/** The values a store holds: plain JavaScript data, and the one mutable
    object (the reactive state) that middlewares write to in place. */
module Values {

  datatype Option<+T> = None | Some(value: T)

  /** A JavaScript value as it occurs in store state. Numbers are modelled as
      mathematical integers; `NaN` is what arithmetic on a missing number gives. */
  datatype Value =
    | Undefined
    | NaN
    | Num(n: int)
    | Str(s: string)
    | Obj(fields: map<string, Value>)

  /** An object-shaped state: its own enumerable keys and their values. */
  type State = map<string, Value>

  /** Property access `s[key]`: a missing key reads as `undefined`. */
  function Get(s: State, key: string): (v: Value)
    ensures key !in s ==> v == Undefined
    ensures key in s ==> v == s[key]
  {
    if key in s then s[key] else Undefined
  }

  /** Object spread `{...v}`: the own keys of an object, nothing for
      `undefined` and the other primitives modelled here. */
  function Spread(v: Value): (m: map<string, Value>)
    ensures v.Obj? ==> m == v.fields
    ensures !v.Obj? ==> m == map[]
  {
    if v.Obj? then v.fields else map[]
  }

  /** The store's live state object, shared by reference with middlewares
      and listeners. */
  class Record {
    var fields: State

    constructor (initial: State)
      ensures fields == initial
    {
      fields := initial;
    }
  }
}

/** What a store update makes observable besides the new state: console
    output, callback invocations and listener calls, in the order they happen. */
module Events {
  import opened Values

  /** The console method used: `console.log`, `console.warn` or `console.error`. */
  datatype Level = Log | Warn | Error

  /** The identity of a subscribed listener (JavaScript compares listeners by reference). */
  type ListenerId = nat

  datatype Event =
    | Console(level: Level, text: string)          // a console line with a message
    | StateChanged(prev: State, next: State)       // consoleLogMiddleware's "State updated from … to …"
    | ThrottleTooSoon(elapsed: int, threshold: int) // throttle's console.warn
    | ThrottleAllowed(gap: int)                    // throttle's console.log
    | BeforeChange(state: State)                   // debug's beforeChange callback invoked
    | AfterChange(state: State)                    // debug's afterChange callback invoked
    | Called(index: nat, prev: State, next: State) // the store invokes middleware number `index`
    | Notified(listener: ListenerId, state: State) // the store calls a listener

  predicate IsError(e: Event) {
    e.Console? && e.level == Error
  }

  /** How many times `console.error` was called in a run of events. */
  function ErrorCount(es: seq<Event>): (n: nat)
    ensures n <= |es|
    ensures n == 0 <==> forall i :: 0 <= i < |es| ==> !IsError(es[i])
  {
    if es == [] then 0 else (if IsError(es[0]) then 1 else 0) + ErrorCount(es[1..])
  }

  lemma {:induction false} ErrorCountAppend(a: seq<Event>, b: seq<Event>)
    ensures ErrorCount(a + b) == ErrorCount(a) + ErrorCount(b)
  {
    if a == [] {
      assert a + b == b;
    } else {
      assert (a + b)[1..] == a[1..] + b;
      ErrorCountAppend(a[1..], b);
    }
  }
}
