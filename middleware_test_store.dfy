/** testMiddlewareStore: a counter run through console-log, timestamp,
    debug (two logging callbacks) and a validation that the count is not
    negative at level "error". */
module MiddlewareTestStore {
  import opened Values
  import opened Events
  import Store
  import Timestamp = TimestampMiddleware
  import Validation = ValidationMiddleware
  import Debug = DebugMiddleware
  import CounterStore

  const Count := CounterStore.Count
  const Message := "Count must be non-negative"

  /** The predicate `s.count >= 0`: `undefined >= 0` and `NaN >= 0` are false. */
  function NonNegative(s: State): (b: bool)
    ensures b <==> Count in s && s[Count].Num? && s[Count].n >= 0
    ensures Get(s, Count) == Undefined || Get(s, Count) == NaN ==> !b
  {
    Get(s, Count).Num? && Get(s, Count).n >= 0
  }

  function Condition(): Validation.Condition {
    Validation.Condition(NonNegative, Message, Some("error"))
  }

  /** The two debug callbacks only log their argument: they never throw. */
  function Quiet(): Debug.Callback {
    s => None
  }

  function Middlewares(): seq<Store.Middleware> {
    [Store.ConsoleLog, Store.Timestamp, Store.Debug(Some(Quiet()), Some(Quiet())), Store.Validation([Condition()])]
  }

  function Initial(): State {
    map[Count := Num(0)]
  }

  /** The events of one update from snapshot `s` with merged state `m`,
      stamped into `st`, up to and including the validation. */
  function Expected(s: State, m: State, st: State): seq<Event> {
    [Called(0, s, m), StateChanged(s, m), Called(1, s, m), Called(2, s, st), BeforeChange(s), AfterChange(st), Called(3, s, st)]
    + (if NonNegative(st) then [] else [Console(Error, "Middleware error: " + Message)])
  }

  lemma UpToOne(s: State, m: State, clock: Store.Clock, clocks: Store.Clocks)
    ensures Store.Covers(Middlewares(), clocks)
    ensures Store.Pipeline(Middlewares()[..1], s, m, clock, clocks)
         == Store.Run(m, [Called(0, s, m), StateChanged(s, m)], clocks)
  {
    assert Middlewares()[..0] == [];
    Store.PipelineStep(Middlewares(), s, m, clock, clocks, 0);
  }

  lemma UpToTwo(s: State, m: State, clock: Store.Clock, clocks: Store.Clocks)
    ensures Store.Covers(Middlewares(), clocks)
    ensures Store.Pipeline(Middlewares()[..2], s, m, clock, clocks)
         == Store.Run(Timestamp.Stamped(m, clock.iso), [Called(0, s, m), StateChanged(s, m), Called(1, s, m)], clocks)
  {
    UpToOne(s, m, clock, clocks);
    Store.PipelineStep(Middlewares(), s, m, clock, clocks, 1);
  }

  lemma UpToThree(s: State, m: State, clock: Store.Clock, clocks: Store.Clocks)
    ensures Store.Covers(Middlewares(), clocks)
    ensures var st := Timestamp.Stamped(m, clock.iso);
      Store.Pipeline(Middlewares()[..3], s, m, clock, clocks)
        == Store.Run(st, [Called(0, s, m), StateChanged(s, m), Called(1, s, m), Called(2, s, st), BeforeChange(s), AfterChange(st)], clocks)
  {
    UpToTwo(s, m, clock, clocks);
    Store.PipelineStep(Middlewares(), s, m, clock, clocks, 2);
  }

  /** The validation on its own: silent on a non-negative count, otherwise
      it throws with the condition's message. */
  lemma ValidateCount(st: State)
    ensures Validation.Validate([Condition()], st)
         == if NonNegative(st) then Validation.Verdict([], None) else Validation.Verdict([], Some(Message))
  {
    assert [Condition()][1..] == [];
  }

  /** The four middlewares on merged state `m`: the state is stamped, debug
      sees the snapshot and the stamped state, and validation throws, and is
      logged, exactly when the stamped count is not a non-negative number. */
  lemma TestPipeline(s: State, m: State, clock: Store.Clock, clocks: Store.Clocks)
    ensures Store.Covers(Middlewares(), clocks)
    ensures var st := Timestamp.Stamped(m, clock.iso);
      Store.Pipeline(Middlewares(), s, m, clock, clocks) == Store.Run(st, Expected(s, m, st), clocks)
  {
    UpToThree(s, m, clock, clocks);
    ValidateCount(Timestamp.Stamped(m, clock.iso));
    assert Middlewares()[..4] == Middlewares();
    Store.PipelineStep(Middlewares(), s, m, clock, clocks, 3);
  }

  /** One `increment` (d = 1) or `decrement` (d = -1) as a whole update. */
  lemma CountStep(ls: seq<ListenerId>, s: State, d: int, clock: Store.Clock, clocks: Store.Clocks)
    ensures Store.Covers(Middlewares(), clocks)
    ensures var m := CounterStore.Bumped(s, d);
      var st := Timestamp.Stamped(m, clock.iso);
      Store.Transition(Middlewares(), ls, s, Store.Updater(CounterStore.CountBy(d)), clock, clocks)
        == Store.Run(st, Expected(s, m, st) + Store.Notifications(ls, st), clocks)
  {
    var m := CounterStore.Bumped(s, d);
    assert Store.Merge(s, Store.FragmentOf(Store.Updater(CounterStore.CountBy(d)), s)) == m;
    TestPipeline(s, m, clock, clocks);
  }

  /** The console.error calls of one update: one exactly when the stamped
      count is not a non-negative number; listeners add none. */
  lemma ExpectedErrors(s: State, m: State, st: State, ls: seq<ListenerId>)
    ensures ErrorCount(Expected(s, m, st) + Store.Notifications(ls, st)) == if NonNegative(st) then 0 else 1
  {
    var head := [Called(0, s, m), StateChanged(s, m), Called(1, s, m), Called(2, s, st), BeforeChange(s), AfterChange(st), Called(3, s, st)];
    var tail := if NonNegative(st) then [] else [Console(Error, "Middleware error: " + Message)];
    assert ErrorCount(head) == 0;
    assert ErrorCount(tail) == (if NonNegative(st) then 0 else 1);
    ErrorCountAppend(head, tail);
    ErrorCountAppend(Expected(s, m, st), Store.Notifications(ls, st));
    assert ErrorCount(Store.Notifications(ls, st)) == 0;
  }

  /** Validation does not undo anything: a decrement below zero still
      leaves the negative count in the state, stamped (timestamp runs before
      validation), and it costs exactly one console.error; an update that
      keeps the count non-negative costs none. */
  lemma ErrorsOfStep(ls: seq<ListenerId>, s: State, d: int, clock: Store.Clock, clocks: Store.Clocks)
    requires Count in s && s[Count].Num?
    ensures Store.Covers(Middlewares(), clocks)
    ensures var r := Store.Transition(Middlewares(), ls, s, Store.Updater(CounterStore.CountBy(d)), clock, clocks);
      && Get(r.next, Count) == Num(s[Count].n + d)
      && Get(r.next, Timestamp.UpdatedAt) == Str(clock.iso)
      && ErrorCount(r.events) == (if s[Count].n + d < 0 then 1 else 0)
  {
    CountStep(ls, s, d, clock, clocks);
    var m := CounterStore.Bumped(s, d);
    var st := Timestamp.Stamped(m, clock.iso);
    assert Get(st, Count) == Num(s[Count].n + d);
    ExpectedErrors(s, m, st, ls);
  }

  /** The component test: with the count at 1, two decrements bring it to
      0 and then -1, and console.error is called once in all. */
  lemma DecrementBelowZero(ls: seq<ListenerId>, s: State, c1: Store.Clock, c2: Store.Clock, clocks: Store.Clocks)
    requires Count in s && s[Count] == Num(1)
    ensures Store.Covers(Middlewares(), clocks)
    ensures var r1 := Store.Transition(Middlewares(), ls, s, Store.Updater(CounterStore.CountBy(-1)), c1, clocks);
      Store.Covers(Middlewares(), r1.clocks) &&
      var r2 := Store.Transition(Middlewares(), ls, r1.next, Store.Updater(CounterStore.CountBy(-1)), c2, r1.clocks);
      Get(r1.next, Count) == Num(0) && Get(r2.next, Count) == Num(-1) && ErrorCount(r1.events + r2.events) == 1
  {
    ErrorsOfStep(ls, s, -1, c1, clocks);
    var r1 := Store.Transition(Middlewares(), ls, s, Store.Updater(CounterStore.CountBy(-1)), c1, clocks);
    CountStep(ls, s, -1, c1, clocks);
    ErrorsOfStep(ls, r1.next, -1, c2, r1.clocks);
    var r2 := Store.Transition(Middlewares(), ls, r1.next, Store.Updater(CounterStore.CountBy(-1)), c2, r1.clocks);
    ErrorCountAppend(r1.events, r2.events);
  }

  /** The exported `testMiddlewareStore`. */
  class TestStore {
    const base: Store.Store

    ghost predicate Valid()
      reads base, base.live
    {
      base.middlewares == Middlewares() && Count in base.live.fields && base.live.fields[Count].Num?
    }

    /** The `persist` option is accepted by the store and has no effect. */
    constructor ()
      ensures Valid() && fresh(base) && fresh(base.live)
      ensures base.live.fields == Initial() && base.listeners == [] && base.trace == []
    {
      base := new Store.Store(Initial(), Some(Store.Options(Some(Middlewares()))));
    }

    /** `increment()` */
    method Increment(clock: Store.Clock)
      requires Valid()
      modifies base, base.live
      ensures Valid() && base.listeners == old(base.listeners)
      ensures var m := CounterStore.Bumped(old(base.live.fields), 1);
        var st := Timestamp.Stamped(m, clock.iso);
        base.live.fields == st
        && base.trace == old(base.trace) + Expected(old(base.live.fields), m, st) + Store.Notifications(base.listeners, st)
      ensures base.live.fields[Count] == Num(old(base.live.fields[Count].n) + 1)
      ensures Timestamp.UpdatedAt in base.live.fields && base.live.fields[Timestamp.UpdatedAt] == Str(clock.iso)
      ensures ErrorCount(base.trace) == old(ErrorCount(base.trace)) + (if old(base.live.fields[Count].n) + 1 < 0 then 1 else 0)
    {
      Update(1, clock);
    }

    /** `decrement()`: a count that goes below zero is kept, and the
        validation error is logged. */
    method Decrement(clock: Store.Clock)
      requires Valid()
      modifies base, base.live
      ensures Valid() && base.listeners == old(base.listeners)
      ensures var m := CounterStore.Bumped(old(base.live.fields), -1);
        var st := Timestamp.Stamped(m, clock.iso);
        base.live.fields == st
        && base.trace == old(base.trace) + Expected(old(base.live.fields), m, st) + Store.Notifications(base.listeners, st)
      ensures base.live.fields[Count] == Num(old(base.live.fields[Count].n) - 1)
      ensures Timestamp.UpdatedAt in base.live.fields && base.live.fields[Timestamp.UpdatedAt] == Str(clock.iso)
      ensures ErrorCount(base.trace) == old(ErrorCount(base.trace)) + (if old(base.live.fields[Count].n) - 1 < 0 then 1 else 0)
    {
      Update(-1, clock);
    }

    /** `setState((prev) => ({ count: prev.count + d }))` */
    method Update(d: int, clock: Store.Clock)
      requires Valid()
      modifies base, base.live
      ensures Valid() && base.listeners == old(base.listeners)
      ensures var m := CounterStore.Bumped(old(base.live.fields), d);
        var st := Timestamp.Stamped(m, clock.iso);
        base.live.fields == st
        && base.trace == old(base.trace) + Expected(old(base.live.fields), m, st) + Store.Notifications(base.listeners, st)
      ensures base.live.fields[Count] == Num(old(base.live.fields[Count].n) + d)
      ensures ErrorCount(base.trace) == old(ErrorCount(base.trace)) + (if old(base.live.fields[Count].n) + d < 0 then 1 else 0)
    {
      base.NoThrottles();
      ghost var clocks := base.LastUpdates();
      ghost var trace0 := base.trace;
      CountStep(base.listeners, base.live.fields, d, clock, clocks);
      ErrorsOfStep(base.listeners, base.live.fields, d, clock, clocks);
      ghost var r := Store.Transition(Middlewares(), base.listeners, base.live.fields, Store.Updater(CounterStore.CountBy(d)), clock, clocks);
      base.SetState(Store.Updater(CounterStore.CountBy(d)), clock);
      ErrorCountAppend(trace0, r.events);
    }
  }
}
