/** throttleMiddleware: warns when updates come less than `threshold`
    milliseconds apart. Each middleware it creates keeps its own `lastUpdate`,
    starting at 0; the current time is passed in as `now`. */
module ThrottleMiddleware {
  import opened Events

  /** The effect of one invocation: the new `lastUpdate` and the console line. */
  datatype Outcome = Outcome(lastUpdate: int, report: Event)

  /** One invocation at time `now` with the closure's `lastUpdate`. */
  function Step(threshold: int, lastUpdate: int, now: int): (o: Outcome)
    // too soon: warn with the elapsed time and keep lastUpdate
    ensures now - lastUpdate < threshold <==> o.report == ThrottleTooSoon(now - lastUpdate, threshold)
    ensures now - lastUpdate < threshold ==> o.lastUpdate == lastUpdate
    // otherwise: the update is allowed, lastUpdate moves to now, and the
    // gap it logs, computed after that assignment, is 0
    ensures now - lastUpdate >= threshold ==> o.lastUpdate == now && o.report == ThrottleAllowed(0)
  {
    if now - lastUpdate < threshold then
      Outcome(lastUpdate, ThrottleTooSoon(now - lastUpdate, threshold))
    else
      var last := now;
      Outcome(last, ThrottleAllowed(now - last))
  }

  /** `lastUpdate` after a fresh middleware has been invoked at each of `times`, in order. */
  function LastAfter(threshold: int, times: seq<int>): int
    decreases |times|
  {
    if times == [] then 0
    else Step(threshold, LastAfter(threshold, times[..|times| - 1]), times[|times| - 1]).lastUpdate
  }

  /** The invocation at `times[i]` was let through: it came at least
      `threshold` after the `lastUpdate` the invocations before it left. */
  predicate Allowed(threshold: int, times: seq<int>, i: nat)
    requires i < |times|
  {
    times[i] - LastAfter(threshold, times[..i]) >= threshold
  }

  /** `lastUpdate` is the time of the last invocation that was let through,
      and stays 0 while none has been. */
  lemma {:induction false} LastIsAllowedTime(threshold: int, times: seq<int>)
    ensures var l := LastAfter(threshold, times);
      && ((forall i :: 0 <= i < |times| ==> !Allowed(threshold, times, i)) ==> l == 0)
      && (forall i ::
            (0 <= i < |times| && Allowed(threshold, times, i) &&
             forall j :: i < j < |times| ==> !Allowed(threshold, times, j)) ==> l == times[i])
  {
    if times != [] {
      var n := |times| - 1;
      var prefix := times[..n];
      LastIsAllowedTime(threshold, prefix);
      assert prefix == times[..n];
      forall i | 0 <= i < n
        ensures Allowed(threshold, times, i) == Allowed(threshold, prefix, i)
      {
        assert prefix[..i] == times[..i];
      }
      var before := LastAfter(threshold, prefix);
      assert LastAfter(threshold, times) == Step(threshold, before, times[n]).lastUpdate;
      assert Allowed(threshold, times, n) <==> times[n] - before >= threshold;
    }
  }

  /** The closure of one `throttleMiddleware(threshold)` call. */
  class Throttle {
    const threshold: int
    var lastUpdate: int

    constructor (threshold: int)
      ensures this.threshold == threshold && lastUpdate == 0
    {
      this.threshold := threshold;
      lastUpdate := 0;
    }

    /** The middleware body at time `now`. It returns the console line it
        writes, never throws, and has no access to either state. */
    method Invoke(now: int) returns (report: Event)
      modifies this
      ensures Step(threshold, old(lastUpdate), now) == Outcome(lastUpdate, report)
    {
      if now - lastUpdate < threshold {
        report := ThrottleTooSoon(now - lastUpdate, threshold);
      } else {
        lastUpdate := now;
        report := ThrottleAllowed(now - lastUpdate);
      }
    }
  }

  /** Two middlewares made by separate calls do not share `lastUpdate`:
      invoking one leaves the other as it was. */
  method Independent(threshold: int, now: int) returns (a: Throttle, b: Throttle)
    ensures fresh(a) && fresh(b) && a != b
    ensures a.lastUpdate == Step(threshold, 0, now).lastUpdate && b.lastUpdate == 0
  {
    a := new Throttle(threshold);
    b := new Throttle(threshold);
    var _ := a.Invoke(now);
  }
}
