/** debugMiddleware: optional callbacks run before and after a change, each
    guarded so that what it throws is logged and never escapes. */
module DebugMiddleware {
  import opened Values
  import opened Events

  /** A user callback, seen by what it does when called on a state: return
      normally (None) or throw an error with the given message. */
  type Callback = State -> Option<string>

  /** The console.error line of a guarded callback `which` that threw `msg`. */
  function ErrorLine(which: string, msg: string): Event {
    Console(Error, "Error in " + which + " callback: " + msg)
  }

  /** The console line written when a guarded callback throws. */
  function Caught(which: string, result: Option<string>): (es: seq<Event>)
    ensures result.None? <==> es == []
    ensures result.Some? ==> es == [ErrorLine(which, result.value)]
  {
    if result.Some? then [ErrorLine(which, result.value)] else []
  }

  /** What one invocation of the middleware makes observable: the callback
      calls and console.error lines, at most four events. It returns no
      state and no error: the middleware neither writes a state nor throws. */
  function Run(before: Option<Callback>, after: Option<Callback>, prev: State, next: State): (es: seq<Event>)
    ensures |es| <= 4
    ensures forall e :: e in es ==> e.BeforeChange? || e.AfterChange? || (e.Console? && e.level == Error)
  {
    (if before.Some? then [BeforeChange(prev)] + Caught("beforeChange", before.value(prev)) else [])
    + (if after.Some? then [AfterChange(next)] + Caught("afterChange", after.value(next)) else [])
  }

  /** Absent callbacks are skipped and present ones are called exactly once:
      beforeChange first, with prevState; afterChange after it, with
      nextState, whatever beforeChange did. */
  lemma RunOrder(before: Option<Callback>, after: Option<Callback>, prev: State, next: State)
    ensures var es := Run(before, after, prev, next);
      && (before.None? && after.None? <==> es == [])
      && (before.None? ==> forall e :: e in es ==> !e.BeforeChange?)
      && (after.None? ==> forall e :: e in es ==> !e.AfterChange?)
      && (before.Some? ==> es[0] == BeforeChange(prev))
      && (forall i :: 0 <= i < |es| && es[i].BeforeChange? ==> es[i] == BeforeChange(prev) && i == 0)
      && (after.Some? ==> exists i :: 0 <= i < |es| && es[i] == AfterChange(next) && (before.Some? ==> 0 < i))
      && (forall i :: 0 <= i < |es| && es[i].AfterChange? ==> es[i] == AfterChange(next))
      && (forall i, j :: 0 <= i < j < |es| && es[i].AfterChange? ==> !es[j].AfterChange?)
  {
    var b := if before.Some? then [BeforeChange(prev)] + Caught("beforeChange", before.value(prev)) else [];
    var a := if after.Some? then [AfterChange(next)] + Caught("afterChange", after.value(next)) else [];
    assert Run(before, after, prev, next) == b + a;
    assert after.Some? ==> (b + a)[|b|] == AfterChange(next);
  }

  /** Every console line is the error line of a callback that threw, and
      each thrown error has its line: beforeChange's right after its call
      and before afterChange is called, afterChange's right after its call. */
  lemma RunLines(before: Option<Callback>, after: Option<Callback>, prev: State, next: State)
    ensures var es := Run(before, after, prev, next);
      && (forall e :: e in es && e.Console? ==>
            (before.Some? && before.value(prev).Some? && e == ErrorLine("beforeChange", before.value(prev).value))
            || (after.Some? && after.value(next).Some? && e == ErrorLine("afterChange", after.value(next).value)))
      && (before.Some? && before.value(prev).Some? ==>
            |es| > 1 && es[1] == ErrorLine("beforeChange", before.value(prev).value)
            && forall i :: 0 <= i < |es| && es[i].AfterChange? ==> 1 < i)
      && (after.Some? && after.value(next).Some? ==>
            exists i :: 0 <= i < |es| - 1 && es[i] == AfterChange(next) && es[i + 1] == ErrorLine("afterChange", after.value(next).value))
  {
    var b := if before.Some? then [BeforeChange(prev)] + Caught("beforeChange", before.value(prev)) else [];
    var a := if after.Some? then [AfterChange(next)] + Caught("afterChange", after.value(next)) else [];
    var es := Run(before, after, prev, next);
    assert es == b + a;
    if after.Some? && after.value(next).Some? {
      assert es[|b|] == AfterChange(next) && es[|b| + 1] == ErrorLine("afterChange", after.value(next).value);
    }
  }

  /** Each callback that throws costs exactly one error line, and nothing
      escapes the middleware. */
  lemma RunErrors(before: Option<Callback>, after: Option<Callback>, prev: State, next: State)
    ensures ErrorCount(Run(before, after, prev, next)) ==
      (if before.Some? && before.value(prev).Some? then 1 else 0) +
      (if after.Some? && after.value(next).Some? then 1 else 0)
  {
    var b := if before.Some? then [BeforeChange(prev)] + Caught("beforeChange", before.value(prev)) else [];
    var a := if after.Some? then [AfterChange(next)] + Caught("afterChange", after.value(next)) else [];
    assert Run(before, after, prev, next) == b + a;
    assert ErrorCount(b) == (if before.Some? && before.value(prev).Some? then 1 else 0) by {
      if before.Some? { ErrorCountAppend([BeforeChange(prev)], Caught("beforeChange", before.value(prev))); }
    }
    assert ErrorCount(a) == (if after.Some? && after.value(next).Some? then 1 else 0) by {
      if after.Some? { ErrorCountAppend([AfterChange(next)], Caught("afterChange", after.value(next))); }
    }
    ErrorCountAppend(b, a);
  }
}
