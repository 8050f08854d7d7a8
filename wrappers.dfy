/** Small result types shared by the whole model. */
module Wrappers {

  /** A value that may be absent: `undefined`/`null` in the dashboard's TypeScript. */
  datatype Option<+T> = None | Some(value: T) {
    /** `x ?? default` */
    function GetOr(default: T): T {
      if Some? then value else default
    }
  }

  /** The result of code that may throw: `Thrown(m)` stands for `throw new Error(m)`. */
  datatype Outcome<+T> = Ok(value: T) | Thrown(message: string)

  /** The `{ success, data?, error? }` object that the services return instead of throwing. */
  datatype Reply<+T> = Reply(success: bool, data: Option<T>, error: Option<string>)

  function Succeed<T>(d: T): Reply<T> {
    Reply(true, Some(d), None)
  }

  function Fail<T>(e: string): Reply<T> {
    Reply(false, None, Some(e))
  }

  /** JavaScript truthiness of a string that may be absent: neither `null` nor `""`. */
  predicate Truthy(s: Option<string>) {
    s.Some? && s.value != ""
  }

  /** The JavaScript expression `a || b` on an optional string. */
  function OrElse(a: Option<string>, b: string): (r: string)
    ensures Truthy(a) ==> r == a.value
    ensures !Truthy(a) ==> r == b
  {
    if Truthy(a) then a.value else b
  }
}
