/**
  The few JavaScript value shapes the code branches on. Strict equality (`===`),
  truthiness (`||`, `if (x)`) and the `message` field that the gateway sends
  either as a string or as an array of strings.
 */
module Js {
  import opened Wrappers
  import opened Text

  /** A scalar JSON field such as `status` or `txstatus`. Numbers are integers here. */
  datatype JsValue = Undefined | Null | Num(n: int) | Str(s: string)

  predicate Truthy(v: JsValue) {
    match v
    case Undefined => false
    case Null => false
    case Num(n) => n != 0
    case Str(s) => s != ""
  }

  /** A `message` field: missing, a string, or an array of strings. */
  datatype Message = Absent | Text(s: string) | Lines(items: seq<string>) {
    /** Arrays are truthy even when empty; strings when non-empty. */
    predicate Truthy() {
      Lines? || (Text? && s != "")
    }

    /** `this || other` */
    function Else(other: Message): (r: Message)
      ensures Truthy() ==> r == this
      ensures !Truthy() ==> r == other
    {
      if Truthy() then this else other
    }

    /** `this || 'default'` */
    function Or(default: string): (r: Message)
      ensures Truthy() ==> r == this
      ensures !Truthy() ==> r == Text(default)
    {
      Else(Text(default))
    }

    /** `Array.isArray(m) ? m.join('. ') : m` */
    function Joined(): (r: Message)
      ensures !r.Lines?
      ensures !Lines? ==> r == this
      ensures Lines? ==> r == Text(Join(items, ". "))
    {
      if Lines? then Text(Join(items, ". ")) else this
    }
  }

  /** A one-element array and the plain string read the same once joined. */
  lemma JoinedSingleton(x: string)
    ensures Lines([x]).Joined() == Text(x).Joined()
  {
  }

  /** Joining is idempotent. */
  lemma JoinedIdempotent(m: Message)
    ensures m.Joined().Joined() == m.Joined()
  {
  }

  /** `a || b` on two strings, where the empty string is falsy. */
  function OrElse(a: string, b: string): (r: string)
    ensures a != "" ==> r == a
    ensures a == "" ==> r == b
  {
    if a != "" then a else b
  }

  /** The result of an awaited call that may throw: a value, or an exception. */
  datatype Outcome<T> = Received(value: T) | Thrown(reason: Option<string>)

  /** `error instanceof Error ? error.message : 'Network error'` */
  function ThrownText(reason: Option<string>): (r: string)
    ensures reason.Some? ==> r == reason.value
    ensures reason.None? ==> r == "Network error"
  {
    reason.GetOr("Network error")
  }

  /** What a handler sent upstream (if anything) and what it answered. */
  datatype Exchange<P, R> = Exchange(sent: Option<P>, reply: R)

  /** `"TXN-" + Date.now()`, a generated external reference. */
  function GeneratedRef(now: nat): (r: string)
    ensures |r| > 4 && r[..4] == "TXN-" && r[4..] == NatToString(now)
  {
    "TXN-" + NatToString(now)
  }
}
