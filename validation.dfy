/** validationMiddleware: ordered predicate checks on the next state, each
    with a severity level. A failing check at level "warn" or "log" reports
    and goes on; at any other level it throws and stops. */
module ValidationMiddleware {
  import opened Values
  import opened Events

  /** One `ValidationCondition`: `level` is absent when the condition does not set it. */
  datatype Condition = Condition(check: State -> bool, message: string, level: Option<string>)

  /** What running the conditions produced: the warn/log lines, in order, and
      the message of the Error thrown, if one was. */
  datatype Verdict = Verdict(reports: seq<Event>, error: Option<string>)

  /** `condition.level || 'error'`: an absent or empty level is falsy and
      falls back to "error". */
  function EffectiveLevel(c: Condition): (l: string)
    ensures c.level.None? || c.level.value == "" ==> l == "error"
    ensures c.level.Some? && c.level.value != "" ==> l == c.level.value
    ensures l != ""
  {
    if c.level.None? || c.level.value == "" then "error" else c.level.value
  }

  /** Only "warn" and "log" let the check continue; every other level throws. */
  predicate Reporting(c: Condition) {
    EffectiveLevel(c) == "warn" || EffectiveLevel(c) == "log"
  }

  /** The condition fails on `s` and its level makes it throw. */
  predicate Blocks(c: Condition, s: State) {
    !c.check(s) && !Reporting(c)
  }

  /** The console line a failing reporting condition writes. */
  function ReportOf(c: Condition): Event
    requires Reporting(c)
  {
    if EffectiveLevel(c) == "warn" then Console(Warn, c.message) else Console(Log, c.message)
  }

  /** The middleware's loop over `conditions`, checked against `next` only
      (the previous state is not an argument: the source never reads it). */
  function Validate(conds: seq<Condition>, next: State): (v: Verdict)
    // at most one line per condition
    ensures |v.reports| <= |conds|
    decreases |conds|
  {
    if conds == [] then Verdict([], None)
    else
      var c := conds[0];
      var rest := Validate(conds[1..], next);
      if c.check(next) then rest
      else if EffectiveLevel(c) == "warn" then Verdict([Console(Warn, c.message)] + rest.reports, rest.error)
      else if EffectiveLevel(c) == "log" then Verdict([Console(Log, c.message)] + rest.reports, rest.error)
      else Verdict([], Some(c.message))
  }

  /** It throws exactly when some condition blocks, and then with the
      message of the first blocking condition. */
  lemma {:induction false} ValidateError(conds: seq<Condition>, next: State)
    ensures var v := Validate(conds, next);
      (v.error.Some? <==> exists i :: 0 <= i < |conds| && Blocks(conds[i], next)) &&
      (v.error.Some? ==>
        exists i :: 0 <= i < |conds| && Blocks(conds[i], next) && v.error.value == conds[i].message
          && forall j :: 0 <= j < i ==> !Blocks(conds[j], next))
  {
    if conds != [] {
      ValidateError(conds[1..], next);
      assert forall i :: 1 <= i < |conds| ==> conds[i] == conds[1..][i - 1];
      var v := Validate(conds, next);
      if !Blocks(conds[0], next) {
        assert v.error == Validate(conds[1..], next).error;
        if v.error.Some? {
          var i :| 0 <= i < |conds[1..]| && Blocks(conds[1..][i], next) && v.error.value == conds[1..][i].message
            && forall j :: 0 <= j < i ==> !Blocks(conds[1..][j], next);
          assert Blocks(conds[i + 1], next);
          assert forall j :: 0 <= j < i + 1 ==> !Blocks(conds[j], next);
        }
      }
    }
  }

  /** `e` is the console line of some failing warn/log condition among `conds`. */
  predicate ReportedBy(e: Event, conds: seq<Condition>, next: State) {
    exists i :: 0 <= i < |conds| && !conds[i].check(next) && Reporting(conds[i]) && e == ReportOf(conds[i])
  }

  /** Every line it reports comes from a failing warn/log condition, and when
      every predicate holds it produces nothing at all. */
  lemma {:induction false} ValidateReports(conds: seq<Condition>, next: State)
    ensures forall e :: e in Validate(conds, next).reports ==> ReportedBy(e, conds, next)
    ensures (forall i :: 0 <= i < |conds| ==> conds[i].check(next)) ==> Validate(conds, next) == Verdict([], None)
  {
    if conds != [] {
      var tail := conds[1..];
      ValidateReports(tail, next);
      assert forall i :: 1 <= i < |conds| ==> conds[i] == tail[i - 1];
      var v, rest := Validate(conds, next), Validate(tail, next);
      forall e | e in v.reports
        ensures ReportedBy(e, conds, next)
      {
        if e in rest.reports {
          assert ReportedBy(e, tail, next);
          var i :| 0 <= i < |tail| && !tail[i].check(next) && Reporting(tail[i]) && e == ReportOf(tail[i]);
          assert conds[i + 1] == tail[i];
        } else {
          assert !conds[0].check(next) && Reporting(conds[0]) && e == ReportOf(conds[0]);
        }
      }
    }
  }

  /** Conditions after the first blocking one are never consulted: whatever
      follows it, the verdict is that of the conditions up to it. */
  lemma {:induction false} StopsAtFirstBlock(conds: seq<Condition>, rest: seq<Condition>, next: State, k: nat)
    requires k < |conds| && Blocks(conds[k], next)
    requires forall j :: 0 <= j < k ==> !Blocks(conds[j], next)
    ensures Validate(conds[..k + 1] + rest, next) == Validate(conds[..k + 1], next)
    ensures Validate(conds[..k + 1], next).error == Some(conds[k].message)
  {
    var pre := conds[..k + 1];
    if k == 0 {
      assert (pre + rest)[0] == conds[0];
      assert pre[0] == conds[0];
    } else {
      assert (pre + rest)[0] == pre[0] == conds[0];
      assert (pre + rest)[1..] == conds[1..][..k] + rest;
      assert pre[1..] == conds[1..][..k];
      assert !Blocks(conds[0], next);
      StopsAtFirstBlock(conds[1..], rest, next, k - 1);
    }
  }

  /** Every failing warn/log condition that comes before any blocking one is
      reported (their order is that of the array, by `ContinuesPastReports`). */
  lemma {:induction false} ReportsAllBeforeBlock(conds: seq<Condition>, next: State, i: nat)
    requires i < |conds| && !conds[i].check(next) && Reporting(conds[i])
    requires forall j :: 0 <= j < i ==> !Blocks(conds[j], next)
    ensures ReportOf(conds[i]) in Validate(conds, next).reports
  {
    if i > 0 {
      assert forall j :: 0 <= j < i - 1 ==> conds[1..][j] == conds[j + 1];
      ReportsAllBeforeBlock(conds[1..], next, i - 1);
    }
  }

  /** The line a non-blocking condition contributes: none when it holds. */
  function LineOf(c: Condition, next: State): seq<Event>
    requires !Blocks(c, next)
  {
    if c.check(next) then [] else [ReportOf(c)]
  }

  /** One turn of the loop past a condition that does not throw. */
  lemma Unfold(conds: seq<Condition>, next: State)
    requires conds != [] && !Blocks(conds[0], next)
    ensures var rest := Validate(conds[1..], next);
      Validate(conds, next) == Verdict(LineOf(conds[0], next) + rest.reports, rest.error)
  {
  }

  /** The loop runs past conditions that do not throw: over `a` followed by
      `b`, it reports what `a` reports, then does what it does over `b`. */
  lemma {:induction false} ValidateAppend(a: seq<Condition>, b: seq<Condition>, next: State)
    requires forall j :: 0 <= j < |a| ==> !Blocks(a[j], next)
    ensures var vb := Validate(b, next);
      Validate(a + b, next) == Verdict(Validate(a, next).reports + vb.reports, vb.error)
  {
    if a == [] {
      assert a + b == b;
    } else {
      assert (a + b)[1..] == a[1..] + b;
      assert (a + b)[0] == a[0];
      ValidateAppend(a[1..], b, next);
      Unfold(a + b, next);
      Unfold(a, next);
      var h, va, vb := LineOf(a[0], next), Validate(a[1..], next), Validate(b, next);
      assert h + (va.reports + vb.reports) == (h + va.reports) + vb.reports;
    }
  }

  /** A failing warn/log condition does not stop the loop: when nothing in
      the first `k` conditions throws, the verdict is their reports followed by
      the verdict of the remaining conditions. */
  lemma ContinuesPastReports(conds: seq<Condition>, next: State, k: nat)
    requires k <= |conds|
    requires forall j :: 0 <= j < k ==> !Blocks(conds[j], next)
    ensures Validate(conds, next)
         == Verdict(Validate(conds[..k], next).reports + Validate(conds[k..], next).reports,
                    Validate(conds[k..], next).error)
  {
    assert conds == conds[..k] + conds[k..];
    ValidateAppend(conds[..k], conds[k..], next);
  }
}
