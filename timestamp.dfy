/** timestampMiddleware: writes the current ISO time into `updatedAt` of the
    next state, in place. The time string is passed in as `stamp`. */
module TimestampMiddleware {
  import opened Values

  const UpdatedAt := "updatedAt"

  /** The next state after the write. */
  function Stamped(s: State, stamp: string): (r: State)
    ensures UpdatedAt in r && r[UpdatedAt] == Str(stamp)
    ensures r.Keys == s.Keys + {UpdatedAt}
    ensures forall k :: k in s && k != UpdatedAt ==> r[k] == s[k]
  {
    s[UpdatedAt := Str(stamp)]
  }

  /** "Adds/updates": an earlier `updatedAt` is overwritten, not kept, so
      stamping twice is stamping once with the later time. */
  lemma StampOverwrites(s: State, first: string, second: string)
    ensures Stamped(Stamped(s, first), second) == Stamped(s, second)
  {
    var a, b := Stamped(Stamped(s, first), second), Stamped(s, second);
    assert a.Keys == b.Keys;
    forall k | k in a ensures a[k] == b[k] {}
  }

  /** The middleware body: `nextState.updatedAt = stamp`. The previous
      state is a separate value that it never writes. */
  method Stamp(prev: State, next: Record, stamp: string)
    modifies next
    ensures next.fields == Stamped(old(next.fields), stamp)
  {
    next.fields := next.fields[UpdatedAt := Str(stamp)];
  }
}
