/** The string operations the dashboard relies on: `toLowerCase`/`toUpperCase`
    (ASCII letters), `includes`, `startsWith`, `trim`, `split`/`join`,
    `String(n).padStart(3, "0")` and a decimal `parseFloat`. */
module Text {
  import opened Wrappers

  // ---------------------------------------------------------------- case

  function LowerChar(c: char): char {
    if 'A' <= c <= 'Z' then (c as int + 32) as char else c
  }

  function UpperChar(c: char): char {
    if 'a' <= c <= 'z' then (c as int - 32) as char else c
  }

  /** `s.toLowerCase()`, restricted to ASCII letters. */
  function ToLower(s: string): (r: string)
    ensures |r| == |s|
    ensures forall i :: 0 <= i < |s| ==> r[i] == LowerChar(s[i])
  {
    if s == [] then [] else [LowerChar(s[0])] + ToLower(s[1..])
  }

  /** `s.toUpperCase()`, restricted to ASCII letters. */
  function ToUpper(s: string): (r: string)
    ensures |r| == |s|
    ensures forall i :: 0 <= i < |s| ==> r[i] == UpperChar(s[i])
  {
    if s == [] then [] else [UpperChar(s[0])] + ToUpper(s[1..])
  }

  /** No ASCII capital letter in `s`. */
  predicate NoCapitals(s: string) {
    forall i :: 0 <= i < |s| ==> !('A' <= s[i] <= 'Z')
  }

  /** Lower-casing an upper-cased string gives back every string without capitals. */
  lemma LowerOfUpper(s: string)
    requires NoCapitals(s)
    ensures ToLower(ToUpper(s)) == s
  {
    var u := ToUpper(s);
    assert forall i :: 0 <= i < |s| ==> ToLower(u)[i] == LowerChar(UpperChar(s[i])) == s[i];
  }

  // ---------------------------------------------------------------- search

  /** `s.startsWith(p)` */
  predicate StartsWith(s: string, p: string) {
    |p| <= |s| && s[..|p|] == p
  }

  /** `s.includes(sub)`, tried at every position from the left. */
  predicate Contains(s: string, sub: string)
    decreases |s|
  {
    StartsWith(s, sub) || (|s| > 0 && Contains(s[1..], sub))
  }

  /** `sub` occurs in `s` at position `i`. */
  predicate OccursAt(s: string, sub: string, i: nat) {
    i + |sub| <= |s| && s[i..i + |sub|] == sub
  }

  /** What the recursive search finds occurs somewhere. */
  lemma {:induction false} ContainsOccurs(s: string, sub: string)
    requires Contains(s, sub)
    ensures exists i: nat :: OccursAt(s, sub, i)
    decreases |s|
  {
    if StartsWith(s, sub) {
      assert OccursAt(s, sub, 0);
    } else {
      ContainsOccurs(s[1..], sub);
      var i: nat :| OccursAt(s[1..], sub, i);
      assert s[1..][i..i + |sub|] == s[i + 1..i + 1 + |sub|];
      assert OccursAt(s, sub, i + 1);
    }
  }

  /** An occurrence at position `i` is found by the search. */
  lemma {:induction false} OccursContains(s: string, sub: string, i: nat)
    requires OccursAt(s, sub, i)
    ensures Contains(s, sub)
    decreases i
  {
    if i == 0 {
      assert StartsWith(s, sub);
    } else {
      assert s[1..][i - 1..i - 1 + |sub|] == s[i..i + |sub|];
      OccursContains(s[1..], sub, i - 1);
    }
  }

  /** The recursive search finds exactly the substrings that occur somewhere. */
  lemma ContainsIff(s: string, sub: string)
    ensures Contains(s, sub) <==> exists i: nat :: OccursAt(s, sub, i)
  {
    if Contains(s, sub) {
      ContainsOccurs(s, sub);
    }
    if exists i: nat :: OccursAt(s, sub, i) {
      var i: nat :| OccursAt(s, sub, i);
      OccursContains(s, sub, i);
    }
  }

  /** Every string contains the empty string (JavaScript `"abc".includes("")`). */
  lemma ContainsEmpty(s: string)
    ensures Contains(s, "")
  {
    assert StartsWith(s, "");
  }

  /** A string contains itself. */
  lemma ContainsSelf(s: string)
    ensures Contains(s, s)
  {
    assert StartsWith(s, s);
  }

  /** The case-insensitive `includes` that every search box uses:
      `s.toLowerCase().includes(q.toLowerCase())`. */
  predicate ContainsIgnoringCase(s: string, q: string) {
    Contains(ToLower(s), ToLower(q))
  }

  /** The query's own case does not matter to a case-insensitive search. */
  lemma QueryCaseIgnored(s: string, q: string)
    ensures ContainsIgnoringCase(s, ToUpper(q)) == ContainsIgnoringCase(s, q)
    ensures ContainsIgnoringCase(s, ToLower(q)) == ContainsIgnoringCase(s, q)
  {
    LowerAfterCase(q);
  }

  /** Lower-casing forgets whether the text was upper- or lower-cased first. */
  lemma LowerAfterCase(q: string)
    ensures ToLower(ToUpper(q)) == ToLower(q)
    ensures ToLower(ToLower(q)) == ToLower(q)
  {
    var u, l := ToUpper(q), ToLower(q);
    forall i | 0 <= i < |q| ensures ToLower(u)[i] == l[i] && ToLower(l)[i] == l[i] {
      assert ToLower(u)[i] == LowerChar(UpperChar(q[i]));
      assert ToLower(l)[i] == LowerChar(LowerChar(q[i]));
    }
  }

  /** The empty query matches everything. */
  lemma EmptyQueryMatches(s: string)
    ensures ContainsIgnoringCase(s, "")
  {
    ContainsEmpty(ToLower(s));
  }

  // ---------------------------------------------------------------- trim

  /** The characters `String.prototype.trim` removes. */
  predicate IsSpace(c: char) {
    c == ' ' || c == '\t' || c == '\n' || c == '\r' || c == '\U{B}' || c == '\U{C}'
    || c == '\U{A0}' || c == '\U{1680}' || ('\U{2000}' <= c <= '\U{200A}')
    || c == '\U{2028}' || c == '\U{2029}' || c == '\U{202F}' || c == '\U{205F}'
    || c == '\U{3000}' || c == '\U{FEFF}'
  }

  /** Only whitespace (or nothing at all). */
  predicate IsBlank(s: string) {
    forall i :: 0 <= i < |s| ==> IsSpace(s[i])
  }

  function TrimStart(s: string): (r: string)
    ensures r == [] || !IsSpace(r[0])
    ensures IsBlank(s) <==> r == []
    ensures |r| <= |s| && r == s[|s| - |r|..]
    ensures s != [] && !IsSpace(s[0]) ==> r == s
  {
    if s != [] && IsSpace(s[0]) then
      var r := TrimStart(s[1..]);
      assert IsBlank(s) <==> IsBlank(s[1..]) by {
        if IsBlank(s[1..]) {
          forall i | 0 <= i < |s| ensures IsSpace(s[i]) {
            if i > 0 { assert s[i] == s[1..][i - 1]; }
          }
        }
      }
      r
    else s
  }

  function TrimEnd(s: string): (r: string)
    ensures r == [] || !IsSpace(r[|r| - 1])
    ensures |r| <= |s| && r == s[..|r|]
    ensures s != [] && !IsSpace(s[0]) ==> r != []
  {
    if s != [] && IsSpace(s[|s| - 1]) then
      var r := TrimEnd(s[..|s| - 1]);
      assert s[..|s| - 1][..|r|] == s[..|r|];
      r
    else s
  }

  /** `s.trim()` */
  function Trim(s: string): string {
    TrimEnd(TrimStart(s))
  }

  /** A trimmed string is a piece of the original that neither starts nor
      ends with whitespace, and a string that already has no whitespace at
      either end is its own trim. */
  lemma TrimProperties(s: string)
    ensures var r := Trim(s);
      && (forall c :: c in r ==> c in s)
      && (r != [] ==> !IsSpace(r[0]) && !IsSpace(r[|r| - 1]))
      && (s != [] && !IsSpace(s[0]) && !IsSpace(s[|s| - 1]) ==> r == s)
  {
    var a := TrimStart(s);
    var r := TrimEnd(a);
    forall c | c in r ensures c in s {
      var i :| 0 <= i < |r| && r[i] == c;
      assert a[i] == c;
      assert s[|s| - |a| + i] == c;
    }
    if r != [] {
      assert r[0] == a[0];
    }
  }

  /** `!s.trim()` holds exactly for the blank strings. */
  lemma TrimEmptyIffBlank(s: string)
    ensures Trim(s) == "" <==> IsBlank(s)
  {
  }

  // ---------------------------------------------------------------- split / join

  /** `s.split(d)` for a one-character separator: always at least one part,
      and no part contains the separator. */
  function Split(s: string, d: char): (parts: seq<string>)
    ensures |parts| >= 1
    ensures forall k :: 0 <= k < |parts| ==> d !in parts[k]
  {
    if s == [] then [""]
    else if s[0] == d then [""] + Split(s[1..], d)
    else
      var rest := Split(s[1..], d);
      [[s[0]] + rest[0]] + rest[1..]
  }

  /** `parts.join(d)` */
  function Join(parts: seq<string>, d: char): string {
    if |parts| == 0 then ""
    else if |parts| == 1 then parts[0]
    else parts[0] + [d] + Join(parts[1..], d)
  }

  /** Joining the parts of a split with the same separator gives back the string. */
  lemma {:induction false} JoinSplit(s: string, d: char)
    ensures Join(Split(s, d), d) == s
    decreases |s|
  {
    if s == [] {
    } else if s[0] == d {
      JoinSplit(s[1..], d);
      var rest := Split(s[1..], d);
      assert Split(s, d) == [""] + rest;
      assert ([""] + rest)[1..] == rest;
      assert s == [d] + s[1..];
    } else {
      JoinSplit(s[1..], d);
      var rest := Split(s[1..], d);
      var parts := [[s[0]] + rest[0]] + rest[1..];
      assert Split(s, d) == parts;
      if |rest| == 1 {
        assert s == [s[0]] + s[1..];
      } else {
        assert parts[1..] == rest[1..];
        assert Join(rest, d) == rest[0] + [d] + Join(rest[1..], d);
        assert s == [s[0]] + s[1..];
      }
    }
  }

  /** Splitting a joined list of parts that do not hold the separator gives
      the parts back. */
  lemma {:induction false} SplitJoin(parts: seq<string>, d: char)
    requires |parts| >= 1 && forall k :: 0 <= k < |parts| ==> d !in parts[k]
    ensures Split(Join(parts, d), d) == parts
  {
    if |parts| == 1 {
      SplitWithoutSeparator(parts[0], d);
    } else {
      SplitJoin(parts[1..], d);
      SplitAfterPart(parts[0], Join(parts[1..], d), d);
      assert [parts[0]] + parts[1..] == parts;
    }
  }

  /** A part without the separator, then the separator: the part comes off first. */
  lemma {:induction false} SplitAfterPart(a: string, rest: string, d: char)
    requires d !in a
    ensures Split(a + [d] + rest, d) == [a] + Split(rest, d)
    decreases |a|
  {
    var s := a + [d] + rest;
    if a == [] {
      assert s == [d] + rest;
      assert s[1..] == rest;
    } else {
      assert d !in a[1..];
      SplitAfterPart(a[1..], rest, d);
      assert s[1..] == a[1..] + [d] + rest;
      assert [a[0]] + a[1..] == a;
    }
  }

  /** A string without the separator splits into itself alone. */
  lemma {:induction false} SplitWithoutSeparator(s: string, d: char)
    requires d !in s
    ensures Split(s, d) == [s]
    decreases |s|
  {
    if s != [] {
      assert d !in s[1..];
      SplitWithoutSeparator(s[1..], d);
      assert s == [s[0]] + s[1..];
    }
  }

  /** A string that holds the separator splits into at least two parts. */
  lemma {:induction false} SplitWithSeparator(s: string, d: char)
    requires d in s
    ensures |Split(s, d)| >= 2
    decreases |s|
  {
    if s[0] != d {
      assert d in s[1..];
      SplitWithSeparator(s[1..], d);
    }
  }

  // ---------------------------------------------------------------- names

  /** `name.split(" ")[0] || ""`: the first space-separated word. */
  function FirstName(name: string): string {
    Split(name, ' ')[0]
  }

  /** `name.split(" ").slice(1).join(" ") || ""`: the remaining words, re-joined. */
  function LastName(name: string): string {
    Join(Split(name, ' ')[1..], ' ')
  }

  /** The name split used by the settings, profile and checkout pages:
      with a space, first + " " + last is the name again; without one,
      the whole name is the first name and the last name is empty. */
  lemma NameSplit(name: string)
    ensures ' ' !in FirstName(name)
    ensures ' ' in name ==> FirstName(name) + " " + LastName(name) == name
    ensures ' ' !in name ==> FirstName(name) == name && LastName(name) == ""
  {
    var parts := Split(name, ' ');
    if ' ' in name {
      SplitWithSeparator(name, ' ');
      JoinSplit(name, ' ');
      assert Join(parts, ' ') == parts[0] + [' '] + Join(parts[1..], ' ');
    } else {
      SplitWithoutSeparator(name, ' ');
    }
  }

  // ---------------------------------------------------------------- decimal digits

  predicate IsDigit(c: char) {
    '0' <= c <= '9'
  }

  predicate AllDigits(s: string) {
    forall i :: 0 <= i < |s| ==> IsDigit(s[i])
  }

  function DigitChar(d: nat): char
    requires d < 10
  {
    "0123456789"[d]
  }

  /** `String(n)` for a non-negative integer. */
  function NatToString(n: nat): (s: string)
    ensures |s| >= 1 && AllDigits(s)
    ensures n < 10 ==> |s| == 1
    ensures n >= 10 ==> |s| >= 2
  {
    if n < 10 then [DigitChar(n)] else NatToString(n / 10) + [DigitChar(n % 10)]
  }

  /** The value of a string of decimal digits, read left to right. */
  function DigitsValue(s: string): nat
    requires AllDigits(s)
  {
    if s == [] then 0 else DigitsValue(s[..|s| - 1]) * 10 + (s[|s| - 1] as int - '0' as int)
  }

  /** Reading back the decimal text of a number gives the number. */
  lemma {:induction false} DigitsValueOfNatToString(n: nat)
    ensures DigitsValue(NatToString(n)) == n
  {
    if n >= 10 {
      DigitsValueOfNatToString(n / 10);
      var s := NatToString(n);
      assert s[..|s| - 1] == NatToString(n / 10);
    }
  }

  /** Leading zeros do not change the value. */
  lemma {:induction false} DigitsValueLeadingZero(s: string)
    requires AllDigits(s)
    ensures DigitsValue("0" + s) == DigitsValue(s)
    decreases |s|
  {
    if s != [] {
      var t := "0" + s;
      assert t[..|t| - 1] == "0" + s[..|s| - 1];
      DigitsValueLeadingZero(s[..|s| - 1]);
    }
  }

  /** `k` copies of the character `0`. */
  function Zeros(k: nat): (z: string)
    ensures |z| == k && AllDigits(z)
  {
    if k == 0 then "" else "0" + Zeros(k - 1)
  }

  lemma {:induction false} DigitsValueZeros(k: nat, s: string)
    requires AllDigits(s)
    ensures DigitsValue(Zeros(k) + s) == DigitsValue(s)
  {
    if k > 0 {
      var t := Zeros(k - 1) + s;
      DigitsValueZeros(k - 1, s);
      assert AllDigits(t);
      assert Zeros(k) + s == "0" + t;
      DigitsValueLeadingZero(t);
    } else {
      assert Zeros(k) + s == s;
    }
  }

  /** `String(n).padStart(3, "0")`, the sequence field of every generated id. */
  function Pad3(n: nat): string {
    var s := NatToString(n);
    if |s| >= 3 then s else Zeros(3 - |s|) + s
  }

  /** The padded text has at least three digits, exactly three below 1000,
      and reads back as the number. */
  lemma Pad3Properties(n: nat)
    ensures AllDigits(Pad3(n))
    ensures n < 1000 ==> |Pad3(n)| == 3
    ensures n >= 1000 ==> Pad3(n) == NatToString(n)
    ensures |Pad3(n)| >= 3
    ensures DigitsValue(Pad3(n)) == n
  {
    var s := NatToString(n);
    DigitsValueOfNatToString(n);
    if |s| < 3 {
      DigitsValueZeros(3 - |s|, s);
    }
    if n < 1000 {
      NatToStringLength(n);
    } else {
      NatToStringLong(n);
    }
  }

  lemma {:induction false} NatToStringLength(n: nat)
    requires n < 1000
    ensures |NatToString(n)| <= 3
  {
    if n >= 10 { NatToStringLength(n / 10); }
  }

  lemma {:induction false} NatToStringLong(n: nat)
    requires n >= 100
    ensures |NatToString(n)| >= 3
  {
    NatToStringLongStep(n / 10);
  }

  lemma NatToStringLongStep(m: nat)
    requires m >= 10
    ensures |NatToString(m)| >= 2
  {
  }

  /** Different numbers get different padded texts, so the ids are distinct. */
  lemma Pad3Injective(m: nat, n: nat)
    requires Pad3(m) == Pad3(n)
    ensures m == n
  {
    Pad3Properties(m);
    Pad3Properties(n);
  }

  /** `${prefix}${String(n).padStart(3, "0")}`: the ids the admin and
      partner pages give to new records. */
  function NumberedId(prefix: string, n: nat): (id: string)
    ensures |id| >= |prefix| + 3 && id[..|prefix|] == prefix
  {
    Pad3Properties(n);
    prefix + Pad3(n)
  }

  /** One prefix, different numbers: different ids. */
  lemma NumberedIdInjective(prefix: string, m: nat, n: nat)
    requires NumberedId(prefix, m) == NumberedId(prefix, n)
    ensures m == n
  {
    assert NumberedId(prefix, m)[|prefix|..] == Pad3(m);
    assert NumberedId(prefix, n)[|prefix|..] == Pad3(n);
    Pad3Injective(m, n);
  }

  /** `ids` are `prefix` numbered 1, 2, ... in order. */
  predicate Numbered(ids: seq<string>, prefix: string) {
    forall i :: 0 <= i < |ids| ==> ids[i] == NumberedId(prefix, i + 1)
  }

  /** The next number gives a new id, and keeps the list numbered. */
  lemma NextIdFresh(ids: seq<string>, prefix: string)
    requires Numbered(ids, prefix)
    ensures NumberedId(prefix, |ids| + 1) !in ids
    ensures Numbered(ids + [NumberedId(prefix, |ids| + 1)], prefix)
  {
    var next := NumberedId(prefix, |ids| + 1);
    if next in ids {
      var i :| 0 <= i < |ids| && ids[i] == next;
      NumberedIdInjective(prefix, i + 1, |ids| + 1);
    }
    var longer := ids + [next];
    forall i | 0 <= i < |longer| ensures longer[i] == NumberedId(prefix, i + 1) {
      if i < |ids| {
        assert longer[i] == ids[i];
      }
    }
  }

  // ---------------------------------------------------------------- numbers

  function Pow10(k: nat): (p: nat)
    ensures p >= 1
  {
    if k == 0 then 1 else 10 * Pow10(k - 1)
  }

  /** Position of the first `c` in `s`, or `|s|` when there is none. */
  function IndexOf(s: string, c: char): (i: nat)
    ensures i <= |s|
    ensures i < |s| ==> s[i] == c
    ensures forall j :: 0 <= j < i ==> s[j] != c
  {
    if s == [] then 0 else if s[0] == c then 0 else 1 + IndexOf(s[1..], c)
  }

  /** Digits with an optional fractional part: `12`, `0.5`, `32.57`, and
      with either side of the point empty, `.5` and `5.`, but not `.` alone. */
  function ParseUnsigned(s: string): Option<real> {
    var i := IndexOf(s, '.');
    if i == |s| then
      (if s != [] && AllDigits(s) then Some(DigitsValue(s) as real) else None)
    else
      var whole, frac := s[..i], s[i + 1..];
      if (whole != [] || frac != []) && AllDigits(whole) && AllDigits(frac)
      then Some(DigitsValue(whole) as real + DigitsValue(frac) as real / Pow10(|frac|) as real)
      else None
  }

  /** `parseFloat(s)` on plain decimal text with an optional leading minus sign;
      `None` stands for `NaN`. A point alone, or a sign alone, is `NaN`. */
  function ParseNumber(s: string): Option<real> {
    if s != [] && s[0] == '-' then
      match ParseUnsigned(s[1..])
      case Some(v) => Some(-v)
      case None => None
    else ParseUnsigned(s)
  }

  /** `parseFloat(s) || 0`: `NaN` (and zero) become 0. */
  function NumberOrZero(s: string): real {
    ParseNumber(s).GetOr(0.0)
  }

  /** `parseInt` reads digits only: after an optional minus sign the text
      must start with a digit, so `.5` and `-.5` are `NaN` to it. */
  predicate LeadingDigit(text: string) {
    text != [] && (IsDigit(text[0]) || (text[0] == '-' && |text| > 1 && IsDigit(text[1])))
  }

  /** `parseInt(text)` on the decimal text of a number: its integer part,
      cut toward zero, or `None` for `NaN`. */
  function ParseInt(text: string): (r: Option<int>)
    ensures r.Some? <==> ParseNumber(text).Some? && LeadingDigit(text)
    ensures r.Some? && ParseNumber(text).value >= 0.0 ==>
      r.value as real <= ParseNumber(text).value < r.value as real + 1.0
    ensures r.Some? && ParseNumber(text).value < 0.0 ==>
      r.value as real - 1.0 < ParseNumber(text).value <= r.value as real
  {
    if !LeadingDigit(text) then None
    else match ParseNumber(text)
      case None => None
      case Some(v) => Some(if v >= 0.0 then v.Floor else -((-v).Floor))
  }

  /** Text with no digit before the point is a number to `parseFloat` but
      `NaN` to `parseInt`: `parseFloat(".0")` is 0, `parseInt(".0")` is `NaN`. */
  lemma ParseIntNeedsLeadingDigit(digits: string)
    requires digits != [] && AllDigits(digits)
    ensures ParseNumber("." + digits).Some? && ParseInt("." + digits) == None
    ensures ParseNumber("-." + digits).Some? && ParseInt("-." + digits) == None
  {
    FractionOnly(digits);
    SignedFractionOnly(digits);
  }

  /** A whole number, as a number input without a `step` accepts. */
  predicate Whole(r: real) {
    r.Floor as real == r
  }

  /** Parsing the decimal text of a number gives the number (so "0" parses to 0). */
  lemma ParseNatToString(n: nat)
    ensures ParseNumber(NatToString(n)) == Some(n as real)
  {
    var s := NatToString(n);
    assert IsDigit(s[0]);
    assert IndexOf(s, '.') == |s| by {
      var i := IndexOf(s, '.');
      assert i < |s| ==> IsDigit(s[i]);
    }
    DigitsValueOfNatToString(n);
  }

  /** Text with digits after the point only reads as a fraction:
      `parseFloat(".5")` is 0.5. */
  lemma FractionOnly(digits: string)
    requires digits != [] && AllDigits(digits)
    ensures ParseNumber("." + digits) == Some(DigitsValue(digits) as real / Pow10(|digits|) as real)
  {
    var s := "." + digits;
    assert IndexOf(s, '.') == 0;
    assert s[..0] == [] && s[1..] == digits;
  }

  /** A sign in front of such a fraction negates it: `parseFloat("-.5")` is -0.5. */
  lemma SignedFractionOnly(digits: string)
    requires digits != [] && AllDigits(digits)
    ensures ParseNumber("-." + digits) == Some(-(DigitsValue(digits) as real / Pow10(|digits|) as real))
  {
    var s := "." + digits;
    FractionOnly(digits);
    assert s[0] == '.';
    assert ("-." + digits)[1..] == s;
  }

  /** The first point after a run of digits is the one that ends it. */
  lemma PointAfterDigits(digits: string)
    requires AllDigits(digits)
    ensures IndexOf(digits + ".", '.') == |digits|
  {
    var s := digits + ".";
    var i := IndexOf(s, '.');
    assert i < |digits| ==> IsDigit(s[i]);
    assert s[|digits|] == '.';
  }

  /** Digits followed by the point read as the whole number: `parseFloat("5.")` is 5. */
  lemma TrailingPoint(digits: string)
    requires digits != [] && AllDigits(digits)
    ensures ParseNumber(digits + ".") == Some(DigitsValue(digits) as real)
  {
    var s := digits + ".";
    PointAfterDigits(digits);
    assert s[..|digits|] == digits && s[|digits| + 1..] == [];
    var v := DigitsValue(digits) as real;
    assert v + DigitsValue([]) as real / Pow10(0) as real == v;
    assert ParseUnsigned(s) == Some(v);
    assert s[0] == digits[0] && IsDigit(s[0]);
  }

  /** Text with neither digits nor a sign never parses. */
  lemma ParseEmpty()
    ensures ParseNumber("") == None
    ensures NumberOrZero("") == 0.0
  {
  }
}
