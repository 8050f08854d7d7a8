/** The admin's analytics page: the batches counted by species and by
    status, and each bar's share of all batches. */
module Analytics {
  import opened Models

  /** One step of the `reduce`: `acc[k] = (acc[k] || 0) + 1`. */
  function Tally<K>(acc: map<K, nat>, k: K): map<K, nat> {
    acc[k := (if k in acc then acc[k] else 0) + 1]
  }

  /** `keys.reduce(tally, {})`, folding from the left. */
  function Histogram<K(!new)>(keys: seq<K>): (m: map<K, nat>)
    ensures forall k :: k in m <==> k in keys
    ensures forall k :: k in m ==> m[k] == multiset(keys)[k] && m[k] > 0
  {
    if keys == [] then map[]
    else
      var init, last := keys[..|keys| - 1], keys[|keys| - 1];
      assert keys == init + [last];
      Tally(Histogram(init), last)
  }

  /** The sum of the counts of a map. */
  ghost function Total<K>(m: map<K, nat>): nat
    decreases |m.Keys|
  {
    if m == map[] then 0
    else
      var k :| k in m;
      assert |(m - {k}).Keys| < |m.Keys| by { assert m.Keys == (m - {k}).Keys + {k}; }
      m[k] + Total(m - {k})
  }

  /** Whichever key is taken out first, the sum is the same. */
  lemma {:induction false} TotalWithout<K>(m: map<K, nat>, k: K)
    requires k in m
    ensures Total(m) == m[k] + Total(m - {k})
    decreases |m.Keys|
  {
    var j :| j in m && Total(m) == m[j] + Total(m - {j});
    if j != k {
      assert m.Keys == (m - {j}).Keys + {j};
      assert m.Keys == (m - {k}).Keys + {k};
      TotalWithout(m - {j}, k);
      TotalWithout(m - {k}, j);
      assert m - {j} - {k} == m - {k} - {j};
    }
  }

  /** One more tally adds one to the sum. */
  lemma TotalOfTally<K>(acc: map<K, nat>, k: K)
    ensures Total(Tally(acc, k)) == Total(acc) + 1
  {
    var t := Tally(acc, k);
    TotalWithout(t, k);
    assert t - {k} == acc - {k};
    if k in acc {
      TotalWithout(acc, k);
    } else {
      assert acc - {k} == acc;
    }
  }

  /** The counts of a histogram add up to the number of values counted. */
  lemma {:induction false} HistogramTotal<K(!new)>(keys: seq<K>)
    ensures Total(Histogram(keys)) == |keys|
  {
    if keys != [] {
      var init := keys[..|keys| - 1];
      HistogramTotal(init);
      TotalOfTally(Histogram(init), keys[|keys| - 1]);
    }
  }

  /** `batch.species` of every batch, in order. */
  function SpeciesColumn(batches: seq<SeedBatch>): (r: seq<string>)
    ensures |r| == |batches| && forall i :: 0 <= i < |batches| ==> r[i] == batches[i].species
  {
    if batches == [] then [] else [batches[0].species] + SpeciesColumn(batches[1..])
  }

  /** `batch.status` of every batch, in order. */
  function StatusColumn(batches: seq<SeedBatch>): (r: seq<BatchStatus>)
    ensures |r| == |batches| && forall i :: 0 <= i < |batches| ==> r[i] == batches[i].status
  {
    if batches == [] then [] else [batches[0].status] + StatusColumn(batches[1..])
  }

  /** `speciesDistribution`: each species of a batch, with the number of
      batches of that species. */
  function SpeciesDistribution(batches: seq<SeedBatch>): (m: map<string, nat>)
    ensures forall s :: s in m <==> exists i :: 0 <= i < |batches| && batches[i].species == s
    ensures forall s :: s in m ==> m[s] == multiset(SpeciesColumn(batches))[s]
  {
    var column := SpeciesColumn(batches);
    assert forall s :: s in column <==> exists i :: 0 <= i < |batches| && batches[i].species == s by {
      forall s ensures s in column ==> exists i :: 0 <= i < |batches| && batches[i].species == s {
        if s in column {
          var i :| 0 <= i < |column| && column[i] == s;
        }
      }
    }
    Histogram(column)
  }

  /** `statusDistribution`: each status of a batch, with the number of
      batches in that status. */
  function StatusDistribution(batches: seq<SeedBatch>): (m: map<BatchStatus, nat>)
    ensures forall s :: s in m <==> exists i :: 0 <= i < |batches| && batches[i].status == s
    ensures forall s :: s in m ==> m[s] == multiset(StatusColumn(batches))[s]
  {
    var column := StatusColumn(batches);
    assert forall s :: s in column <==> exists i :: 0 <= i < |batches| && batches[i].status == s by {
      forall s ensures s in column ==> exists i :: 0 <= i < |batches| && batches[i].status == s {
        if s in column {
          var i :| 0 <= i < |column| && column[i] == s;
        }
      }
    }
    Histogram(column)
  }

  /** Each batch is counted once under its species and once under its
      status: both histograms add up to the number of batches. */
  lemma DistributionsCountEveryBatch(batches: seq<SeedBatch>)
    ensures Total(SpeciesDistribution(batches)) == |batches|
    ensures Total(StatusDistribution(batches)) == |batches|
  {
    HistogramTotal(SpeciesColumn(batches));
    HistogramTotal(StatusColumn(batches));
  }

  /** No value occurs more often than the sequence is long. */
  lemma {:induction false} OccurrencesBound<K>(keys: seq<K>, k: K)
    ensures multiset(keys)[k] <= |keys|
  {
    if keys != [] {
      OccurrencesBound(keys[1..], k);
      assert keys == [keys[0]] + keys[1..];
    }
  }

  /** `(count / batches.length) * 100` */
  function Percentage(count: nat, n: nat): real
    requires n > 0
  {
    count as real / n as real * 100.0
  }

  /** A bar of either histogram is more than 0 and at most 100 percent wide. */
  lemma PercentageBounds<K(!new)>(keys: seq<K>, k: K)
    requires k in Histogram(keys)
    ensures 0.0 < Percentage(Histogram(keys)[k], |keys|) <= 100.0
  {
    OccurrencesBound(keys, k);
    RatioBounds(Histogram(keys)[k], |keys|);
  }

  lemma RatioBounds(c: nat, n: nat)
    requires 0 < c <= n
    ensures 0.0 < c as real / n as real <= 1.0
  {
    var f := c as real / n as real;
    assert f * n as real == c as real;
  }
}
