/** counterStore: `{ count: 0 }` with the console-log and timestamp
    middlewares, and `increment` / `decrement` updaters. */
module CounterStore {
  import opened Values
  import opened Events
  import Store
  import Timestamp = TimestampMiddleware

  const Count := "count"

  function Initial(): State {
    map[Count := Num(0)]
  }

  function Middlewares(): seq<Store.Middleware> {
    [Store.ConsoleLog, Store.Timestamp]
  }

  /** `prev.count + d`: exact on numbers; a missing or NaN count gives NaN. */
  function Plus(v: Value, d: int): (r: Value)
    ensures v.Num? ==> r == Num(v.n + d)
    ensures !v.Num? ==> r == NaN
  {
    if v.Num? then Num(v.n + d) else NaN
  }

  /** The updater `(prev) => ({ count: prev.count + d })`. */
  function CountBy(d: int): (f: State -> State)
    // the fragment has the one key `count`, moved by d when it is a number
    ensures forall s: State :: f(s).Keys == {Count}
    ensures forall s: State :: Count in s && s[Count].Num? ==> f(s)[Count] == Num(s[Count].n + d)
  {
    s => map[Count := Plus(Get(s, Count), d)]
  }

  /** The counter after one update by `d`, before the timestamp. */
  function Bumped(s: State, d: int): State {
    s[Count := Plus(Get(s, Count), d)]
  }

  /** The counter's middlewares on any merged state `m`: console-log, then
      timestamp, each called with the snapshot and `m`; only the stamp
      changes the state. */
  lemma CounterPipeline(s: State, m: State, clock: Store.Clock, clocks: Store.Clocks)
    ensures Store.Covers(Middlewares(), clocks)
    ensures Store.Pipeline(Middlewares(), s, m, clock, clocks)
         == Store.Run(Timestamp.Stamped(m, clock.iso), [Called(0, s, m), StateChanged(s, m), Called(1, s, m)], clocks)
  {
    var mws := Middlewares();
    ConsoleLogFirst(s, m, clock, clocks);
    assert mws[..2] == mws;
    Store.PipelineStep(mws, s, m, clock, clocks, 1);
  }

  /** The first middleware of the counter's list on its own. */
  lemma ConsoleLogFirst(s: State, m: State, clock: Store.Clock, clocks: Store.Clocks)
    ensures Store.Covers(Middlewares(), clocks)
    ensures Store.Pipeline(Middlewares()[..1], s, m, clock, clocks) == Store.Run(m, [Called(0, s, m), StateChanged(s, m)], clocks)
  {
    var mws := Middlewares();
    assert mws[..0] == [];
    Store.PipelineStep(mws, s, m, clock, clocks, 0);
  }

  /** One `increment` (d = 1) or `decrement` (d = -1): the count moves by
      `d`, `updatedAt` is set, nothing else changes; console-log and then
      timestamp are called, both with the pre-update snapshot and the merged
      state, then every listener with the stamped state. */
  lemma CountStep(ls: seq<ListenerId>, s: State, d: int, clock: Store.Clock, clocks: Store.Clocks)
    ensures Store.Covers(Middlewares(), clocks)
    ensures var m := Bumped(s, d);
      var st := Timestamp.Stamped(m, clock.iso);
      Store.Transition(Middlewares(), ls, s, Store.Updater(CountBy(d)), clock, clocks)
        == Store.Run(st, [Called(0, s, m), StateChanged(s, m), Called(1, s, m)] + Store.Notifications(ls, st), clocks)
  {
    var m := Bumped(s, d);
    assert Store.Merge(s, Store.FragmentOf(Store.Updater(CountBy(d)), s)) == m;
    CounterPipeline(s, m, clock, clocks);
  }

  /** `increment` followed by `decrement` gives back the numeric count it
      started from; the state is the start state stamped with the later
      time (the Counter component goes 0, 1, 0). */
  lemma IncrementThenDecrement(ls: seq<ListenerId>, s: State, c1: Store.Clock, c2: Store.Clock, clocks: Store.Clocks)
    requires Count in s && s[Count].Num?
    ensures Store.Covers(Middlewares(), clocks)
    ensures var up := Store.Transition(Middlewares(), ls, s, Store.Updater(CountBy(1)), c1, clocks);
      Store.Covers(Middlewares(), up.clocks) &&
      Store.Transition(Middlewares(), ls, up.next, Store.Updater(CountBy(-1)), c2, up.clocks).next
        == Timestamp.Stamped(s, c2.iso)
  {
    CountStep(ls, s, 1, c1, clocks);
    CountStep(ls, Timestamp.Stamped(Bumped(s, 1), c1.iso), -1, c2, clocks);
    BumpBack(s, c1.iso);
    Timestamp.StampOverwrites(s, c1.iso, c2.iso);
  }

  /** Adding one and then subtracting one, with a stamp in between, leaves
      a numeric count as it was. */
  lemma BumpBack(s: State, iso: string)
    requires Count in s && s[Count].Num?
    ensures Bumped(Timestamp.Stamped(Bumped(s, 1), iso), -1) == Timestamp.Stamped(s, iso)
  {
    var down, want := Bumped(Timestamp.Stamped(Bumped(s, 1), iso), -1), Timestamp.Stamped(s, iso);
    assert down.Keys == want.Keys;
    forall k | k in down ensures down[k] == want[k] {}
  }

  /** The exported `counterStore`: the base store's members plus the two
      updaters. */
  class Counter {
    const base: Store.Store

    /** The store was built with the counter's options and holds a numeric count. */
    ghost predicate Valid()
      reads base, base.live
    {
      base.middlewares == Middlewares() && Count in base.live.fields && base.live.fields[Count].Num?
    }

    constructor ()
      ensures Valid() && fresh(base) && fresh(base.live)
      ensures base.live.fields == Initial() && base.listeners == [] && base.trace == []
    {
      base := new Store.Store(Initial(), Some(Store.Options(Some(Middlewares()))));
    }

    /** `increment()` */
    method Increment(clock: Store.Clock)
      requires Valid()
      modifies base, base.live
      ensures Valid() && base.listeners == old(base.listeners)
      ensures base.live.fields[Count] == Num(old(base.live.fields[Count].n) + 1)
      ensures base.live.fields == Timestamp.Stamped(Bumped(old(base.live.fields), 1), clock.iso)
      ensures var m := Bumped(old(base.live.fields), 1);
        base.trace == old(base.trace) + [Called(0, old(base.live.fields), m), StateChanged(old(base.live.fields), m), Called(1, old(base.live.fields), m)]
          + Store.Notifications(base.listeners, base.live.fields)
    {
      Update(1, clock);
    }

    /** `decrement()` */
    method Decrement(clock: Store.Clock)
      requires Valid()
      modifies base, base.live
      ensures Valid() && base.listeners == old(base.listeners)
      ensures base.live.fields[Count] == Num(old(base.live.fields[Count].n) - 1)
      ensures base.live.fields == Timestamp.Stamped(Bumped(old(base.live.fields), -1), clock.iso)
      ensures var m := Bumped(old(base.live.fields), -1);
        base.trace == old(base.trace) + [Called(0, old(base.live.fields), m), StateChanged(old(base.live.fields), m), Called(1, old(base.live.fields), m)]
          + Store.Notifications(base.listeners, base.live.fields)
    {
      Update(-1, clock);
    }

    /** `setState((prev) => ({ count: prev.count + d }))` */
    method Update(d: int, clock: Store.Clock)
      requires Valid()
      modifies base, base.live
      ensures Valid() && base.listeners == old(base.listeners)
      ensures base.live.fields == Timestamp.Stamped(Bumped(old(base.live.fields), d), clock.iso)
      ensures var m := Bumped(old(base.live.fields), d);
        base.trace == old(base.trace) + [Called(0, old(base.live.fields), m), StateChanged(old(base.live.fields), m), Called(1, old(base.live.fields), m)]
          + Store.Notifications(base.listeners, base.live.fields)
    {
      base.NoThrottles();
      ghost var clocks := base.LastUpdates();
      CountStep(base.listeners, base.live.fields, d, clock, clocks);
      base.SetState(Store.Updater(CountBy(d)), clock);
    }
  }
}
