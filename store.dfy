/** createStore: one mutable state object, an ordered listener list and a
    middleware list fixed at creation. `setState` snapshots the state, merges
    a fragment's own keys into it, runs every middleware in order (logging and
    skipping one that throws), then calls every listener. */
module Store {
  import opened Values
  import opened Events
  import Validation = ValidationMiddleware
  import Debug = DebugMiddleware
  import Throttle = ThrottleMiddleware
  import Timestamp = TimestampMiddleware

  /** What an application-supplied middleware does when called with
      (prevState, nextState): the contents it leaves in nextState, and the
      message of the error it throws, if it throws. */
  datatype Effect = Effect(next: State, error: Option<string>)

  /** An entry of the middleware list. */
  datatype Middleware =
    | ConsoleLog
    | Timestamp
    | Debug(before: Option<Debug.Callback>, after: Option<Debug.Callback>)
    | Validation(conditions: seq<Validation.Condition>)
    | Throttled(throttle: Throttle.Throttle)
    | Custom(run: (State, State) -> Effect)

  /** `StoreOptions`: the middleware array is optional. */
  datatype Options = Options(middleware: Option<seq<Middleware>>)

  /** The argument of `setState`: an object fragment, or a function computing
      one from the current state. */
  datatype Update = Patch(fragment: State) | Updater(compute: State -> State)

  /** The instant an update happens at: `Date.now()` and its ISO string. */
  datatype Clock = Clock(now: int, iso: string)

  /** The `lastUpdate` of every throttle middleware in play. */
  type Clocks = map<Throttle.Throttle, int>

  /** The handle `subscribe` returns; calling it is `Store.Unsubscribe`. */
  datatype Subscription = Subscription(listener: ListenerId)

  /** `options?.middleware ?? []` */
  function MiddlewareList(options: Option<Options>): (mws: seq<Middleware>)
    ensures options.None? ==> mws == []
    ensures options.Some? && options.value.middleware.None? ==> mws == []
    ensures options.Some? && options.value.middleware.Some? ==> mws == options.value.middleware.value
  {
    match options
    case None => []
    case Some(o) => if o.middleware.Some? then o.middleware.value else []
  }

  /** The fragment `setState` merges: the patch itself, or what the updater
      returns when called with the current, not yet updated, state. */
  function FragmentOf(u: Update, current: State): (f: State)
    ensures u.Patch? ==> f == u.fragment
    ensures u.Updater? ==> f == u.compute(current)
  {
    match u
    case Patch(f) => f
    case Updater(compute) => compute(current)
  }

  /** The `for…in` loop: every own key of the fragment is assigned onto the state. */
  function Merge(s: State, fragment: State): (r: State)
    ensures r.Keys == s.Keys + fragment.Keys
    ensures forall k :: k in fragment ==> r[k] == fragment[k]
    ensures forall k :: k in s && k !in fragment ==> r[k] == s[k]
  {
    s + fragment
  }

  /** Every throttle middleware of the list has a known `lastUpdate`. */
  predicate Covers(mws: seq<Middleware>, clocks: Clocks) {
    forall i :: 0 <= i < |mws| && mws[i].Throttled? ==> mws[i].throttle in clocks
  }

  /** One middleware call with (prevState, nextState). */
  datatype Step = Step(next: State, events: seq<Event>, error: Option<string>, clocks: Clocks)

  function Apply(mw: Middleware, prev: State, next: State, clock: Clock, clocks: Clocks): (s: Step)
    requires mw.Throttled? ==> mw.throttle in clocks
    ensures s.clocks.Keys == clocks.Keys
  {
    match mw
    case ConsoleLog => Step(next, [StateChanged(prev, next)], None, clocks)
    case Timestamp => Step(Timestamp.Stamped(next, clock.iso), [], None, clocks)
    case Debug(before, after) => Step(next, Debug.Run(before, after, prev, next), None, clocks)
    case Validation(conditions) =>
      var v := Validation.Validate(conditions, next);
      Step(next, v.reports, v.error, clocks)
    case Throttled(t) =>
      var o := Throttle.Step(t.threshold, clocks[t], clock.now);
      Step(next, [o.report], None, clocks[t := o.lastUpdate])
    case Custom(run) =>
      var e := run(prev, next);
      Step(e.next, [], e.error, clocks)
  }

  /** What each kind of middleware may do: only validation and application
      middlewares throw; only timestamp and application middlewares write
      nextState; only throttle middlewares move a clock; none of them calls
      a listener or another middleware. */
  lemma ApplyFacts(mw: Middleware, prev: State, next: State, clock: Clock, clocks: Clocks)
    requires mw.Throttled? ==> mw.throttle in clocks
    ensures var s := Apply(mw, prev, next, clock, clocks);
      && (!mw.Throttled? ==> s.clocks == clocks)
      && (!mw.Validation? && !mw.Custom? ==> s.error == None)
      && (!mw.Timestamp? && !mw.Custom? ==> s.next == next)
      && (mw.Timestamp? ==> s.next == Timestamp.Stamped(next, clock.iso))
      && (forall e :: e in s.events ==> !e.Called? && !e.Notified?)
  {
    if mw.Validation? {
      Validation.ValidateReports(mw.conditions, next);
      var v := Validation.Validate(mw.conditions, next);
      forall e | e in v.reports ensures e.Console? {
        assert Validation.ReportedBy(e, mw.conditions, next);
      }
    }
  }

  /** The store's `catch`: a thrown error is logged with console.error. */
  function Caught(error: Option<string>): (es: seq<Event>)
    ensures error.None? <==> es == []
    ensures error.Some? ==> es == [Console(Error, "Middleware error: " + error.value)]
  {
    if error.Some? then [Console(Error, "Middleware error: " + error.value)] else []
  }

  /** The result of running middlewares, or of a whole update. */
  datatype Run = Run(next: State, events: seq<Event>, clocks: Clocks)

  /** `runMiddleware(prevState, state)`: the list in order, each on the live
      state the ones before it left. Nothing a middleware throws escapes. */
  function Pipeline(mws: seq<Middleware>, prev: State, next: State, clock: Clock, clocks: Clocks): (r: Run)
    requires Covers(mws, clocks)
    ensures r.clocks.Keys == clocks.Keys
    decreases |mws|
  {
    if mws == [] then Run(next, [], clocks)
    else
      var n := |mws| - 1;
      var done := Pipeline(mws[..n], prev, next, clock, clocks);
      var s := Apply(mws[n], prev, done.next, clock, done.clocks);
      Run(s.next, done.events + [Called(n, prev, done.next)] + s.events + Caught(s.error), s.clocks)
  }

  /** Running one more middleware extends the run of those before it. */
  lemma PipelineStep(mws: seq<Middleware>, prev: State, next: State, clock: Clock, clocks: Clocks, k: nat)
    requires Covers(mws, clocks) && k < |mws|
    ensures var done := Pipeline(mws[..k], prev, next, clock, clocks);
      var s := Apply(mws[k], prev, done.next, clock, done.clocks);
      Pipeline(mws[..k + 1], prev, next, clock, clocks)
        == Run(s.next, done.events + [Called(k, prev, done.next)] + s.events + Caught(s.error), s.clocks)
  {
    assert mws[..k + 1][..k] == mws[..k];
  }

  /** `listeners.forEach(listener => listener(state))` */
  function Notifications(ls: seq<ListenerId>, s: State): (es: seq<Event>)
    // every registered listener exactly once, in registration order, with the final state
    ensures |es| == |ls|
    ensures forall i :: 0 <= i < |ls| ==> es[i] == Notified(ls[i], s)
  {
    if ls == [] then [] else [Notified(ls[0], s)] + Notifications(ls[1..], s)
  }

  /** A whole `setState`: the new state, everything observable, and the new
      throttle clocks. `prevState` is the state before the merge. */
  function Transition(mws: seq<Middleware>, ls: seq<ListenerId>, s: State, u: Update, clock: Clock, clocks: Clocks): (r: Run)
    requires Covers(mws, clocks)
    // every throttle keeps a clock, and each listener adds one event
    ensures r.clocks.Keys == clocks.Keys
    ensures |r.events| >= |ls|
  {
    var p := Pipeline(mws, s, Merge(s, FragmentOf(u, s)), clock, clocks);
    Run(p.next, p.events + Notifications(ls, p.next), p.clocks)
  }

  /** `listeners.filter(l => l !== listener)` */
  function Without(ls: seq<ListenerId>, l: ListenerId): (r: seq<ListenerId>)
    ensures l !in r
    ensures forall x :: x in r <==> x in ls && x != l
    ensures forall x :: x != l ==> multiset(r)[x] == multiset(ls)[x]
  {
    if ls == [] then []
    else
      assert ls == [ls[0]] + ls[1..];
      if ls[0] == l then Without(ls[1..], l) else [ls[0]] + Without(ls[1..], l)
  }

  /* ---------------------------------------------------------------------- */
  /* Properties of the middleware run                                        */
  /* ---------------------------------------------------------------------- */

  /** The middleware calls recorded in a run of events. */
  function Calls(es: seq<Event>): (cs: seq<Event>)
    ensures forall i :: 0 <= i < |cs| ==> cs[i].Called?
  {
    if es == [] then []
    else (if es[0].Called? then [es[0]] else []) + Calls(es[1..])
  }

  lemma {:induction false} CallsAppend(a: seq<Event>, b: seq<Event>)
    ensures Calls(a + b) == Calls(a) + Calls(b)
  {
    if a == [] {
      assert a + b == b;
    } else {
      assert (a + b)[1..] == a[1..] + b;
      CallsAppend(a[1..], b);
    }
  }

  lemma {:induction false} NoCalls(es: seq<Event>)
    requires forall e :: e in es ==> !e.Called?
    ensures Calls(es) == []
  {
    if es != [] {
      NoCalls(es[1..]);
    }
  }

  /** Every middleware is called exactly once and in list order, even when
      an earlier one throws; each receives the pre-merge snapshot as
      prevState and, as nextState, the live state left by the ones before it. */
  lemma {:induction false} CallsInOrder(mws: seq<Middleware>, prev: State, next: State, clock: Clock, clocks: Clocks)
    requires Covers(mws, clocks)
    ensures var cs := Calls(Pipeline(mws, prev, next, clock, clocks).events);
      |cs| == |mws| &&
      forall i :: 0 <= i < |mws| ==> cs[i] == Called(i, prev, Pipeline(mws[..i], prev, next, clock, clocks).next)
  {
    if mws != [] {
      var n := |mws| - 1;
      var done := Pipeline(mws[..n], prev, next, clock, clocks);
      var s := Apply(mws[n], prev, done.next, clock, done.clocks);
      var call := Called(n, prev, done.next);
      var es := Pipeline(mws, prev, next, clock, clocks).events;
      assert es == done.events + [call] + s.events + Caught(s.error) by {
        PipelineStep(mws, prev, next, clock, clocks, n);
        assert mws[..n + 1] == mws;
      }
      var cs := Calls(es);
      assert cs == Calls(done.events) + [call] by {
        ApplyFacts(mws[n], prev, done.next, clock, done.clocks);
        NoCalls(s.events);
        NoCalls(Caught(s.error));
        CallsAppend(done.events, [call]);
        CallsAppend(done.events + [call], s.events);
        CallsAppend(done.events + [call] + s.events, Caught(s.error));
        assert Calls([call]) == [call] by {
          assert [call][1..] == [];
        }
      }
      CallsInOrder(mws[..n], prev, next, clock, clocks);
      forall i | 0 <= i < |mws|
        ensures cs[i] == Called(i, prev, Pipeline(mws[..i], prev, next, clock, clocks).next)
      {
        if i < n {
          assert mws[..n][..i] == mws[..i];
        } else {
          assert mws[..i] == mws[..n];
        }
      }
    }
  }

  /** The run of the first `k` middlewares is where the whole run starts:
      its events are a prefix of the whole run's events. */
  lemma {:induction false} PrefixRun(mws: seq<Middleware>, prev: State, next: State, clock: Clock, clocks: Clocks, k: nat)
    requires Covers(mws, clocks) && k <= |mws|
    ensures Pipeline(mws[..k], prev, next, clock, clocks).events <= Pipeline(mws, prev, next, clock, clocks).events
  {
    if k < |mws| {
      var n := |mws| - 1;
      assert mws[..n][..k] == mws[..k];
      PrefixRun(mws[..n], prev, next, clock, clocks, k);
    } else {
      assert mws[..k] == mws;
    }
  }

  /** A middleware that throws is logged with console.error and skipped:
      the error line is part of the run, and (by CallsInOrder) every later
      middleware is still called. */
  lemma ThrowIsLogged(mws: seq<Middleware>, prev: State, next: State, clock: Clock, clocks: Clocks, k: nat)
    requires Covers(mws, clocks) && k < |mws|
    requires var done := Pipeline(mws[..k], prev, next, clock, clocks);
      Apply(mws[k], prev, done.next, clock, done.clocks).error.Some?
    ensures var done := Pipeline(mws[..k], prev, next, clock, clocks);
      Console(Error, "Middleware error: " + Apply(mws[k], prev, done.next, clock, done.clocks).error.value)
        in Pipeline(mws, prev, next, clock, clocks).events
  {
    var done := Pipeline(mws[..k], prev, next, clock, clocks);
    var s := Apply(mws[k], prev, done.next, clock, done.clocks);
    var upto := Pipeline(mws[..k + 1], prev, next, clock, clocks);
    assert mws[..k + 1][..k] == mws[..k];
    assert upto.events == done.events + [Called(k, prev, done.next)] + s.events + Caught(s.error);
    assert upto.events[|upto.events| - 1] == Console(Error, "Middleware error: " + s.error.value);
    PrefixRun(mws, prev, next, clock, clocks, k + 1);
  }

  /** The list holds no application middleware. */
  predicate BuiltIn(mws: seq<Middleware>) {
    forall i :: 0 <= i < |mws| ==> !mws[i].Custom?
  }

  predicate HasTimestamp(mws: seq<Middleware>) {
    exists i :: 0 <= i < |mws| && mws[i].Timestamp?
  }

  /** Of the library's own middlewares only timestamp writes the state, so
      such a run leaves the merged state as it is, stamped when the list
      holds a timestamp middleware. */
  lemma {:induction false} BuiltInRun(mws: seq<Middleware>, prev: State, next: State, clock: Clock, clocks: Clocks)
    requires Covers(mws, clocks) && BuiltIn(mws)
    ensures Pipeline(mws, prev, next, clock, clocks).next
         == if HasTimestamp(mws) then Timestamp.Stamped(next, clock.iso) else next
  {
    if mws != [] {
      var n := |mws| - 1;
      var pre := mws[..n];
      assert BuiltIn(pre);
      BuiltInRun(pre, prev, next, clock, clocks);
      var done := Pipeline(pre, prev, next, clock, clocks);
      var last := Pipeline(mws, prev, next, clock, clocks).next;
      assert last == if mws[n].Timestamp? then Timestamp.Stamped(done.next, clock.iso) else done.next by {
        ApplyFacts(mws[n], prev, done.next, clock, done.clocks);
      }
      assert HasTimestamp(mws) <==> HasTimestamp(pre) || mws[n].Timestamp? by {
        if HasTimestamp(mws) && !mws[n].Timestamp? {
          var i :| 0 <= i < |mws| && mws[i].Timestamp?;
          assert pre[i].Timestamp?;
        }
        if HasTimestamp(pre) {
          var i :| 0 <= i < n && pre[i].Timestamp?;
          assert mws[i].Timestamp?;
        }
      }
      if mws[n].Timestamp? && HasTimestamp(pre) {
        Timestamp.StampOverwrites(next, clock.iso, clock.iso);
      }
    }
  }

  /** `setState` with the library's own middlewares overwrites exactly the
      fragment's keys: every other key keeps its value and its presence,
      except `updatedAt` when a timestamp middleware is installed. An updater
      is called with the state before the update. */
  lemma OnlyFragmentKeysChange(mws: seq<Middleware>, ls: seq<ListenerId>, s: State, u: Update, clock: Clock, clocks: Clocks)
    requires Covers(mws, clocks) && BuiltIn(mws)
    ensures var r := Transition(mws, ls, s, u, clock, clocks).next;
      var f := FragmentOf(u, s);
      var stamped := HasTimestamp(mws);
      (forall k :: k !in f && (k != Timestamp.UpdatedAt || !stamped) ==> (k in r <==> k in s) && (k in s ==> r[k] == s[k]))
      && (forall k :: k in f && (k != Timestamp.UpdatedAt || !stamped) ==> k in r && r[k] == f[k])
      && (stamped ==> Timestamp.UpdatedAt in r && r[Timestamp.UpdatedAt] == Str(clock.iso))
  {
    BuiltInRun(mws, s, Merge(s, FragmentOf(u, s)), clock, clocks);
  }

  /** The three phases of `setState`, put together, make one `Transition`. */
  lemma SetStateSteps(mws: seq<Middleware>, ls: seq<ListenerId>, s: State, u: Update, clock: Clock, clocks: Clocks,
                      merged: State, clocks1: Clocks, next: State, clocks2: Clocks,
                      trace0: seq<Event>, trace2: seq<Event>, trace3: seq<Event>)
    requires Covers(mws, clocks) && merged == Merge(s, FragmentOf(u, s)) && clocks1 == clocks
    requires var p := Pipeline(mws, s, merged, clock, clocks1);
      next == p.next && clocks2 == p.clocks && trace2 == trace0 + p.events
    requires trace3 == trace2 + Notifications(ls, next)
    ensures var r := Transition(mws, ls, s, u, clock, clocks);
      next == r.next && clocks2 == r.clocks && trace3 == trace0 + r.events
  {
  }

  /** A whole update is the middleware run followed by the notifications. */
  lemma TransitionEvents(mws: seq<Middleware>, ls: seq<ListenerId>, s: State, u: Update, clock: Clock, clocks: Clocks)
    requires Covers(mws, clocks)
    ensures var r := Transition(mws, ls, s, u, clock, clocks);
      r.events == Pipeline(mws, s, Merge(s, FragmentOf(u, s)), clock, clocks).events + Notifications(ls, r.next)
  {
  }

  /** After the middlewares, the listeners are called (see `Notifications`:
      once each, in registration order, with the final state), and nothing
      follows them. */
  lemma ListenersLast(mws: seq<Middleware>, ls: seq<ListenerId>, s: State, u: Update, clock: Clock, clocks: Clocks)
    requires Covers(mws, clocks)
    ensures var r := Transition(mws, ls, s, u, clock, clocks);
      |r.events| >= |ls| && r.events[|r.events| - |ls|..] == Notifications(ls, r.next)
  {
    var r := Transition(mws, ls, s, u, clock, clocks);
    TransitionEvents(mws, ls, s, u, clock, clocks);
    var pre := Pipeline(mws, s, Merge(s, FragmentOf(u, s)), clock, clocks).events;
    assert (pre + Notifications(ls, r.next))[|pre|..] == Notifications(ls, r.next);
  }

  /* ---------------------------------------------------------------------- */
  /* Properties of unsubscribing                                             */
  /* ---------------------------------------------------------------------- */

  /** Removing a listener that is not registered changes nothing. */
  lemma {:induction false} WithoutAbsent(ls: seq<ListenerId>, l: ListenerId)
    requires l !in ls
    ensures Without(ls, l) == ls
  {
    if ls != [] {
      WithoutAbsent(ls[1..], l);
      assert ls == [ls[0]] + ls[1..];
    }
  }

  /** Calling the unsubscribe closure a second time changes nothing. */
  lemma UnsubscribeIdempotent(ls: seq<ListenerId>, l: ListenerId)
    ensures Without(Without(ls, l), l) == Without(ls, l)
  {
    WithoutAbsent(Without(ls, l), l);
  }

  /** The others keep their order: filtering works piece by piece. */
  lemma {:induction false} WithoutAppend(a: seq<ListenerId>, b: seq<ListenerId>, l: ListenerId)
    ensures Without(a + b, l) == Without(a, l) + Without(b, l)
  {
    if a == [] {
      assert a + b == b;
    } else {
      assert (a + b)[0] == a[0];
      assert (a + b)[1..] == a[1..] + b;
      WithoutAppend(a[1..], b, l);
    }
  }

  /** Subscribing a listener and then calling its unsubscribe closure gives
      back the listener list without every occurrence of that listener. */
  lemma SubscribeThenUnsubscribe(ls: seq<ListenerId>, l: ListenerId)
    ensures Without(ls + [l], l) == Without(ls, l)
  {
    WithoutAppend(ls, [l], l);
    assert Without([l], l) == [];
  }

  lemma Regroup(t: seq<Event>, a: seq<Event>, b: seq<Event>, c: seq<Event>, d: seq<Event>)
    ensures t + a + b + c + d == t + (a + b + c + d)
    ensures t + a + b + c + [] == t + a + b + c
  {
  }

  /* ---------------------------------------------------------------------- */
  /* The store object                                                        */
  /* ---------------------------------------------------------------------- */

  /** The object `createStore` returns, with the closure variables it shares. */
  class Store {
    const middlewares: seq<Middleware>
    const live: Record
    var listeners: seq<ListenerId>
    /** Console output, callback calls and listener calls, in order. */
    ghost var trace: seq<Event>

    /** The throttle closures the middleware list holds. */
    ghost function Throttles(): set<Throttle.Throttle> {
      set i | 0 <= i < |middlewares| && middlewares[i].Throttled? :: middlewares[i].throttle
    }

    ghost function LastUpdates(): (c: Clocks)
      reads Throttles()
      ensures c.Keys == Throttles() && Covers(middlewares, c)
    {
      map t | t in Throttles() :: t.lastUpdate
    }

    /** A list without throttle middlewares has no clocks to move. */
    lemma NoThrottles()
      requires forall i :: 0 <= i < |middlewares| ==> !middlewares[i].Throttled?
      ensures Throttles() == {} && LastUpdates() == map[]
    {
    }

    /** `createStore(initialState, options)` */
    constructor (initial: State, options: Option<Options>)
      ensures middlewares == MiddlewareList(options)
      ensures fresh(live) && live.fields == initial
      ensures listeners == [] && trace == []
    {
      middlewares := MiddlewareList(options);
      live := new Record(initial);
      listeners := [];
      trace := [];
    }

    /** `getState()`: the live state object itself. */
    method GetState() returns (r: Record)
      ensures r == live
    {
      r := live;
    }

    /** `getRaw()`: a copy equal to the current state. */
    method GetRaw() returns (r: State)
      ensures r == live.fields
    {
      r := live.fields;
    }

    /** `setState(partial)` */
    method SetState(u: Update, clock: Clock)
      modifies this, live, Throttles()
      ensures listeners == old(listeners)
      ensures var r := Transition(middlewares, listeners, old(live.fields), u, clock, old(LastUpdates()));
        live.fields == r.next && LastUpdates() == r.clocks && trace == old(trace) + r.events
    {
      var prev := live.fields;
      ghost var clocks, trace0 := LastUpdates(), trace;
      var fragment := FragmentOf(u, live.fields);
      Assign(fragment);
      ghost var merged, clocks1 := live.fields, LastUpdates();
      RunMiddlewares(prev, clock);
      ghost var next, clocks2, trace2 := live.fields, LastUpdates(), trace;
      NotifyListeners();
      SetStateSteps(middlewares, listeners, prev, u, clock, clocks, merged, clocks1, next, clocks2, trace0, trace2, trace);
    }

    /** The `for…in` loop of `setState`: assigns each own key of the fragment. */
    method Assign(fragment: State)
      modifies live
      ensures live.fields == Merge(old(live.fields), fragment)
    {
      var pending := fragment.Keys;
      while pending != {}
        invariant pending <= fragment.Keys
        invariant live.fields == old(live.fields) + (fragment - pending)
        decreases pending
      {
        var key :| key in pending;
        live.fields := live.fields[key := fragment[key]];
        pending := pending - {key};
      }
      assert fragment - {} == fragment;
    }

    /** `runMiddleware(prevState, state)` */
    method RunMiddlewares(prev: State, clock: Clock)
      modifies this`trace, live, Throttles()
      ensures var p := Pipeline(middlewares, prev, old(live.fields), clock, old(LastUpdates()));
        live.fields == p.next && LastUpdates() == p.clocks && trace == old(trace) + p.events
    {
      ghost var start, clocks, trace0 := live.fields, LastUpdates(), trace;
      ghost var done := Run(start, [], clocks);
      var i := 0;
      while i < |middlewares|
        invariant 0 <= i <= |middlewares|
        invariant done == Pipeline(middlewares[..i], prev, start, clock, clocks)
        invariant live.fields == done.next && LastUpdates() == done.clocks && trace == trace0 + done.events
      {
        ghost var step := Apply(middlewares[i], prev, done.next, clock, done.clocks);
        ghost var call := Called(i, prev, done.next);
        PipelineStep(middlewares, prev, start, clock, clocks, i);
        GuardedCall(i, prev, clock);
        Regroup(trace0, done.events, [call], step.events, Caught(step.error));
        done := Run(step.next, done.events + [call] + step.events + Caught(step.error), step.clocks);
        i := i + 1;
      }
      assert middlewares[..i] == middlewares;
    }

    /** One turn of the loop: call middleware `i` and log what it throws. */
    method GuardedCall(i: nat, prev: State, clock: Clock)
      requires i < |middlewares|
      modifies this`trace, live, Throttles()
      ensures var s := Apply(middlewares[i], prev, old(live.fields), clock, old(LastUpdates()));
        live.fields == s.next && LastUpdates() == s.clocks
        && trace == old(trace) + [Called(i, prev, old(live.fields))] + s.events + Caught(s.error)
    {
      trace := trace + [Called(i, prev, live.fields)];
      var error := RunMiddleware(middlewares[i], prev, clock);
      if error.Some? {
        trace := trace + [Console(Error, "Middleware error: " + error.value)];
      }
    }

    /** `listeners.forEach((listener) => listener(state))` */
    method NotifyListeners()
      modifies this`trace
      ensures trace == old(trace) + Notifications(listeners, live.fields)
    {
      var j := 0;
      while j < |listeners|
        invariant 0 <= j <= |listeners|
        invariant trace == old(trace) + Notifications(listeners[..j], live.fields)
      {
        assert Notifications(listeners[..j + 1], live.fields) == Notifications(listeners[..j], live.fields) + [Notified(listeners[j], live.fields)];
        trace := trace + [Notified(listeners[j], live.fields)];
        j := j + 1;
      }
      assert listeners[..j] == listeners;
    }

    /** One `try { mw(prevState, newState) }`: returns what the middleware threw. */
    method RunMiddleware(mw: Middleware, prev: State, clock: Clock) returns (error: Option<string>)
      requires mw.Throttled? ==> mw.throttle in Throttles()
      modifies this`trace, live, if mw.Throttled? then {mw.throttle} else {}
      ensures var s := Apply(mw, prev, old(live.fields), clock, old(LastUpdates()));
        live.fields == s.next && LastUpdates() == s.clocks && trace == old(trace) + s.events && error == s.error
    {
      match mw {
        case ConsoleLog =>
          trace := trace + [StateChanged(prev, live.fields)];
          error := None;
        case Timestamp =>
          Timestamp.Stamp(prev, live, clock.iso);
          error := None;
        case Debug(before, after) =>
          trace := trace + Debug.Run(before, after, prev, live.fields);
          error := None;
        case Validation(conditions) =>
          var v := Validation.Validate(conditions, live.fields);
          trace := trace + v.reports;
          error := v.error;
        case Throttled(t) =>
          ghost var before := LastUpdates();
          var report := t.Invoke(clock.now);
          trace := trace + [report];
          error := None;
          forall x | x in Throttles() && x != t
            ensures LastUpdates()[x] == before[x]
          {
          }
          assert LastUpdates() == before[t := t.lastUpdate];
        case Custom(run) =>
          var e := run(prev, live.fields);
          live.fields := e.next;
          error := e.error;
      }
    }

    /** `subscribe(listener)`: appends it and calls it once with the current
      state, which stays as it is. */
    method Subscribe(l: ListenerId) returns (sub: Subscription)
      modifies this`listeners, this`trace
      ensures listeners == old(listeners) + [l]
      ensures trace == old(trace) + [Notified(l, live.fields)]
      ensures sub.listener == l
    {
      listeners := listeners + [l];
      trace := trace + [Notified(l, live.fields)];
      sub := Subscription(l);
    }

    /** The closure `subscribe` returns: drops every occurrence of its listener. */
    method Unsubscribe(sub: Subscription)
      modifies this`listeners
      ensures listeners == Without(old(listeners), sub.listener)
    {
      listeners := Without(listeners, sub.listener);
    }
  }

  /** `createSvelteStore(store)`: exposes only the store's `subscribe`. */
  class SvelteStore {
    const store: Store

    constructor (store: Store)
      ensures this.store == store
    {
      this.store := store;
    }

    method Subscribe(l: ListenerId) returns (sub: Subscription)
      modifies store`listeners, store`trace
      ensures store.listeners == old(store.listeners) + [l]
      ensures store.trace == old(store.trace) + [Notified(l, store.live.fields)]
      ensures sub.listener == l
    {
      sub := store.Subscribe(l);
    }
  }
}
