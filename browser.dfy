/** What the dashboard uses of the browser: `localStorage`, `sessionStorage`,
    the router's history and `alert`. */
module Web {
  import opened Wrappers
  import opened Models

  /** A stored string. The dashboard writes either plain text (a token, a
      transaction reference) or the JSON of one of its records, so the JSON
      forms are kept by value. `Raw` stands for text that is not JSON at all;
      JSON text of no record's shape (`[]`, `42`, `null`) has no form here. */
  datatype Value =
    | Raw(text: string)
    | SalesJson(sales: seq<Sale>)
    | CollectionsJson(collections: seq<SeedCollection>)
    | UserJson(user: User)
    | OrderJson(order: PendingOrder)

  type Storage = map<string, Value>

  /** `storage.getItem(key)`, `None` standing for `null`. */
  function GetItem(m: Storage, key: string): (r: Option<Value>)
    ensures r.Some? <==> key in m
    ensures r.Some? ==> r.value == m[key]
  {
    if key in m then Some(m[key]) else None
  }

  /** `if (stored)`: a `getItem` result is truthy unless it is `null` or `""`. */
  predicate Present(v: Option<Value>) {
    v.Some? && v.value != Raw("")
  }

  /** `JSON.parse(text)` where a user record is expected: the record when the
      text holds one, `Thrown` when the text is not JSON at all, and a record
      of some other shape (`Ok(None)`) otherwise. */
  function ParseUser(v: Value): (r: Outcome<Option<User>>)
    ensures r.Thrown? <==> v.Raw?
    ensures r == Ok(None) <==> !v.Raw? && !v.UserJson?
  {
    match v
    case Raw(_) => Thrown(JsonError)
    case UserJson(u) => Ok(Some(u))
    case _ => Ok(None)
  }

  /** The message of the `SyntaxError` that `JSON.parse` throws. */
  const JsonError := "Unexpected token in JSON"

  /** A target given to `router.push`. The query of a URL is kept as its list
      of parameters. */
  datatype Route = Path(path: string) | WithQuery(path: string, query: seq<(string, string)>)

  /** `searchParams.get(name)`: the first parameter with that name. */
  function QueryGet(query: seq<(string, string)>, name: string): (r: Option<string>)
    ensures r.Some? ==> exists k :: 0 <= k < |query| && query[k] == (name, r.value)
    ensures r.None? ==> forall k :: 0 <= k < |query| ==> query[k].0 != name
  {
    if query == [] then None
    else if query[0].0 == name then Some(query[0].1)
    else
      var r := QueryGet(query[1..], name);
      assert forall k :: 1 <= k < |query| ==> query[k] == query[1..][k - 1];
      r
  }

  /** A template literal `${x}` of a value that may be `undefined`. */
  function Interpolate(x: Option<string>): (t: string)
    ensures x.Some? ==> t == x.value
    ensures x.None? ==> t == "undefined"
  {
    if x.Some? then x.value else "undefined"
  }

  /** The browser a page runs in. */
  class Browser {
    var local: Storage
    var session: Storage
    /** Every `router.push` target so far, oldest first. */
    var history: seq<Route>
    /** Every `alert` message so far, oldest first. */
    var alerts: seq<string>

    constructor (local: Storage, session: Storage)
      ensures this.local == local && this.session == session
      ensures history == [] && alerts == []
    {
      this.local := local;
      this.session := session;
      history := [];
      alerts := [];
    }

    method SetLocal(key: string, v: Value)
      modifies this`local
      ensures local == old(local)[key := v]
    {
      local := local[key := v];
    }

    method RemoveLocal(key: string)
      modifies this`local
      ensures local == old(local) - {key}
    {
      local := local - {key};
    }

    method SetSession(key: string, v: Value)
      modifies this`session
      ensures session == old(session)[key := v]
    {
      session := session[key := v];
    }

    method RemoveSession(key: string)
      modifies this`session
      ensures session == old(session) - {key}
    {
      session := session - {key};
    }

    /** `router.push(r)` */
    method Push(r: Route)
      modifies this`history
      ensures history == old(history) + [r]
    {
      history := history + [r];
    }

    /** `alert(m)` */
    method Alert(m: string)
      modifies this`alerts
      ensures alerts == old(alerts) + [m]
    {
      alerts := alerts + [m];
    }
  }
}
