/** profileStore: a name, an age and a nested address, with the console-log
    middleware and three updaters. */
module ProfileStore {
  import opened Values
  import opened Events
  import Store

  const Name := "name"
  const Age := "age"
  const Address := "address"

  function Initial(): State {
    map[Name := Str("John Doe"), Age := Num(30),
        Address := Obj(map["city" := Str("New York"), "country" := Str("USA")])]
  }

  function Middlewares(): seq<Store.Middleware> {
    [Store.ConsoleLog]
  }

  /** The state after `updateAddress(address)` on `s`. */
  function WithAddress(s: State, address: map<string, Value>): State {
    s[Address := Obj(Spread(Get(s, Address)) + address)]
  }

  /** The updater of `updateAddress(address)`: `{ address: { ...prev.address, ...address } }`. */
  function AddressUpdater(address: map<string, Value>): (f: State -> State)
    // a one-key fragment which, merged into the state it was computed
    // from, gives `WithAddress`
    ensures forall s: State :: f(s).Keys == {Address}
    ensures forall s: State :: Store.Merge(s, f(s)) == WithAddress(s, address)
  {
    s => map[Address := Obj(Spread(Get(s, Address)) + address)]
  }

  /** The only middleware, console-log, on a merged state `m`: it is called
      with the snapshot and `m` and leaves `m` as it is. */
  lemma ProfilePipeline(s: State, m: State, clock: Store.Clock, clocks: Store.Clocks)
    ensures Store.Covers(Middlewares(), clocks)
    ensures Store.Pipeline(Middlewares(), s, m, clock, clocks) == Store.Run(m, [Called(0, s, m), StateChanged(s, m)], clocks)
  {
    var mws := Middlewares();
    assert mws[..0] == [] && mws[..1] == mws;
    Store.PipelineStep(mws, s, m, clock, clocks, 0);
  }

  /** Any update of the profile store: the fragment is merged, console-log
      reports the change, then every listener is called with the new state. */
  lemma ProfileStep(ls: seq<ListenerId>, s: State, u: Store.Update, clock: Store.Clock, clocks: Store.Clocks)
    ensures Store.Covers(Middlewares(), clocks)
    ensures var m := Store.Merge(s, Store.FragmentOf(u, s));
      Store.Transition(Middlewares(), ls, s, u, clock, clocks)
        == Store.Run(m, [Called(0, s, m), StateChanged(s, m)] + Store.Notifications(ls, m), clocks)
  {
    ProfilePipeline(s, Store.Merge(s, Store.FragmentOf(u, s)), clock, clocks);
  }

  /** `updateAddress` merges one level deep: the keys it is given take the
      new values, the other address fields keep theirs, and every other
      top-level field of the profile is untouched. */
  lemma AddressMerges(s: State, address: map<string, Value>)
    ensures var r := WithAddress(s, address);
      var before := Spread(Get(s, Address));
      && Address in r && r[Address].Obj?
      && r[Address].fields.Keys == before.Keys + address.Keys
      && (forall k :: k in address ==> r[Address].fields[k] == address[k])
      && (forall k :: k in before && k !in address ==> r[Address].fields[k] == before[k])
      && r.Keys == s.Keys + {Address}
      && (forall k :: k in s && k != Address ==> r[k] == s[k])
  {
  }

  /** `updateAddress({})` leaves an object-valued address as it was. */
  lemma EmptyAddressUpdate(s: State)
    requires Address in s && s[Address].Obj?
    ensures WithAddress(s, map[]) == s
  {
    var r := WithAddress(s, map[]);
    assert r[Address].fields == s[Address].fields;
    assert r.Keys == s.Keys;
  }

  /** The Profile component's scenario: from the initial profile,
      `updateName("Alice")` changes the name and nothing else. */
  lemma RenameFromInitial(ls: seq<ListenerId>, clock: Store.Clock, clocks: Store.Clocks)
    ensures Store.Covers(Middlewares(), clocks)
    ensures Store.Transition(Middlewares(), ls, Initial(), Store.Patch(map[Name := Str("Alice")]), clock, clocks).next
         == map[Name := Str("Alice"), Age := Num(30),
                Address := Obj(map["city" := Str("New York"), "country" := Str("USA")])]
  {
    var u := Store.Patch(map[Name := Str("Alice")]);
    ProfileStep(ls, Initial(), u, clock, clocks);
    var m, want := Store.Merge(Initial(), Store.FragmentOf(u, Initial())), map[Name := Str("Alice"), Age := Num(30),
                Address := Obj(map["city" := Str("New York"), "country" := Str("USA")])];
    assert m.Keys == want.Keys;
  }

  /** The exported `profileStore`. */
  class Profile {
    const base: Store.Store

    ghost predicate Valid()
      reads base
    {
      base.middlewares == Middlewares()
    }

    /** The `persist` option is accepted by the store and has no effect. */
    constructor ()
      ensures Valid() && fresh(base) && fresh(base.live)
      ensures base.live.fields == Initial() && base.listeners == [] && base.trace == []
    {
      base := new Store.Store(Initial(), Some(Store.Options(Some(Middlewares()))));
    }

    /** `updateName(name)`: `setState({ name })`. */
    method UpdateName(name: string, clock: Store.Clock)
      requires Valid()
      modifies base, base.live
      ensures Valid() && base.listeners == old(base.listeners)
      ensures base.live.fields == old(base.live.fields)[Name := Str(name)]
      ensures base.trace == old(base.trace) + [Called(0, old(base.live.fields), base.live.fields), StateChanged(old(base.live.fields), base.live.fields)]
        + Store.Notifications(base.listeners, base.live.fields)
    {
      Commit(Store.Patch(map[Name := Str(name)]), clock);
      assert base.live.fields == old(base.live.fields)[Name := Str(name)] by {
        var r, want := base.live.fields, old(base.live.fields)[Name := Str(name)];
        assert r.Keys == want.Keys;
      }
    }

    /** `updateAge(age)`: `setState({ age })`. */
    method UpdateAge(age: int, clock: Store.Clock)
      requires Valid()
      modifies base, base.live
      ensures Valid() && base.listeners == old(base.listeners)
      ensures base.live.fields == old(base.live.fields)[Age := Num(age)]
      ensures base.trace == old(base.trace) + [Called(0, old(base.live.fields), base.live.fields), StateChanged(old(base.live.fields), base.live.fields)]
        + Store.Notifications(base.listeners, base.live.fields)
    {
      Commit(Store.Patch(map[Age := Num(age)]), clock);
      assert base.live.fields == old(base.live.fields)[Age := Num(age)] by {
        var r, want := base.live.fields, old(base.live.fields)[Age := Num(age)];
        assert r.Keys == want.Keys;
      }
    }

    /** `updateAddress(address)`: a `setState` with an updater that spreads
        the current address and then the given fields. */
    method UpdateAddress(address: map<string, Value>, clock: Store.Clock)
      requires Valid()
      modifies base, base.live
      ensures Valid() && base.listeners == old(base.listeners)
      ensures base.live.fields == WithAddress(old(base.live.fields), address)
      ensures base.trace == old(base.trace) + [Called(0, old(base.live.fields), base.live.fields), StateChanged(old(base.live.fields), base.live.fields)]
        + Store.Notifications(base.listeners, base.live.fields)
    {
      Commit(Store.Updater(AddressUpdater(address)), clock);
    }

    /** `baseProfileStore.setState(u)` with this store's one middleware. */
    method Commit(u: Store.Update, clock: Store.Clock)
      requires Valid()
      modifies base, base.live
      ensures Valid() && base.listeners == old(base.listeners)
      ensures var m := Store.Merge(old(base.live.fields), Store.FragmentOf(u, old(base.live.fields)));
        base.live.fields == m
        && base.trace == old(base.trace) + [Called(0, old(base.live.fields), m), StateChanged(old(base.live.fields), m)] + Store.Notifications(base.listeners, m)
    {
      base.NoThrottles();
      ProfileStep(base.listeners, base.live.fields, u, clock, base.LastUpdates());
      base.SetState(u, clock);
    }
  }
}
