/** The bounded two-generation set that suppresses repeated log lines. */
module LogOnce {
  import opened Common
  import opened Sequences

  datatype Generations = Generations(seen: set<string>, prior: set<string>)

  const EMPTY := Generations({}, {})

  /** Whether the key is new, and the set after recording it. */
  function First(g: Generations, capacity: int, key: string): (bool, Generations) {
    if key in g.seen || key in g.prior then (false, g)
    else if |g.seen| >= capacity then (true, Generations({key}, g.seen))
    else (true, Generations(g.seen + {key}, g.prior))
  }

  class Suppressor {
    const capacity: int
    var seen: set<string>
    var prior: set<string>

    constructor (cap: int)
      ensures capacity == cap && Contents() == EMPTY
    {
      capacity := cap;
      seen := {};
      prior := {};
    }

    function Contents(): Generations
      reads this
    {
      Generations(seen, prior)
    }

    method Report(key: string) returns (first: bool)
      modifies this
      ensures (first, Contents()) == First(old(Contents()), capacity, key)
    {
      if key in seen {
        return false;
      }
      if key in prior {
        return false;
      }
      if |seen| >= capacity {
        prior := seen;
        seen := {};
      }
      assert {} + {key} == {key};
      seen := seen + {key};
      first := true;
    }
  }

  // ----- Runs -----

  /** The set after a run of calls, and the keys that were reported as new, in order. */
  function Run(capacity: int, calls: seq<string>): (Generations, seq<string>) {
    if calls == [] then (EMPTY, [])
    else
      var (g, recorded) := Run(capacity, calls[..|calls| - 1]);
      var (first, g') := First(g, capacity, calls[|calls| - 1]);
      (g', if first then recorded + [calls[|calls| - 1]] else recorded)
  }

  /** A capacity below one behaves as one. */
  function Effective(capacity: int): int { Max(capacity, 1) }

  /** The recorded keys, cut into those evicted, the prior generation and the live one. */
  datatype Trail = Trail(evicted: seq<string>, older: seq<string>, newer: seq<string>)

  function Whole(t: Trail): seq<string> { t.evicted + t.older + t.newer }

  /** Nothing is evicted before the older generation is full. */
  predicate Shaped(t: Trail, capacity: int) {
    && |t.newer| <= Effective(capacity)
    && (if t.older == [] then t.evicted == [] else |t.older| == Effective(capacity) && t.newer != [])
  }

  ghost predicate Holds(g: Generations, t: Trail, capacity: int) {
    Of(g.seen, t.newer) && Of(g.prior, t.older) && Distinct(t.older + t.newer) && Shaped(t, capacity)
  }

  lemma HoldsCounts(g: Generations, t: Trail, capacity: int)
    requires Holds(g, t, capacity)
    ensures |g.seen| == |t.newer| && |g.prior| == |t.older| && g.seen !! g.prior
  {
    DistinctParts(t.older, t.newer);
    OfCount(g.seen, t.newer);
    OfCount(g.prior, t.older);
  }

  function Extend(g: Generations, t: Trail, capacity: int, key: string): Trail {
    if |g.seen| >= capacity && t.newer != [] then Trail(t.evicted + t.older, t.newer, [key])
    else t.(newer := t.newer + [key])
  }

  lemma HoldsRotated(g: Generations, t: Trail, capacity: int, key: string)
    requires Holds(g, t, capacity) && key !in t.newer && t.newer != [] && |t.newer| >= capacity
    ensures Holds(Generations({key}, g.seen), Trail(t.evicted + t.older, t.newer, [key]), capacity)
  {
    DistinctParts(t.older, t.newer);
    DistinctAppend(t.newer, key);
  }

  lemma HoldsGrown(g: Generations, t: Trail, capacity: int, key: string)
    requires Holds(g, t, capacity) && key !in t.older && key !in t.newer && |t.newer| < Effective(capacity)
    ensures Holds(Generations(g.seen + {key}, g.prior), t.(newer := t.newer + [key]), capacity)
  {
    DistinctAppend(t.older + t.newer, key);
    assert t.older + (t.newer + [key]) == (t.older + t.newer) + [key];
  }

  lemma HoldsStep(g: Generations, t: Trail, capacity: int, key: string)
    requires Holds(g, t, capacity) && First(g, capacity, key).0
    ensures Holds(First(g, capacity, key).1, Extend(g, t, capacity, key), capacity)
  {
    HoldsCounts(g, t, capacity);
    if |g.seen| >= capacity && t.newer != [] {
      HoldsRotated(g, t, capacity, key);
    } else {
      HoldsGrown(g, t, capacity, key);
      if t.newer == [] {
        assert g.seen == {} && g.prior == {};
        assert {} + {key} == {key};
      }
    }
  }

  lemma ExtendRecords(g: Generations, t: Trail, capacity: int, key: string)
    ensures Whole(Extend(g, t, capacity, key)) == Whole(t) + [key]
  {
  }

  lemma {:induction false} RunTrail(capacity: int, calls: seq<string>) returns (t: Trail)
    ensures Holds(Run(capacity, calls).0, t, capacity) && Whole(t) == Run(capacity, calls).1
  {
    if calls == [] {
      t := Trail([], [], []);
    } else {
      t := RunTrail(capacity, calls[..|calls| - 1]);
      var g := Run(capacity, calls[..|calls| - 1]).0;
      var key := calls[|calls| - 1];
      if First(g, capacity, key).0 {
        HoldsStep(g, t, capacity, key);
        ExtendRecords(g, t, capacity, key);
        t := Extend(g, t, capacity, key);
      }
    }
  }

  function Held(g: Generations): nat { |g.seen| + |g.prior| }

  /**
   At most twice the capacity is held, in two disjoint generations that together
   are exactly the last keys recorded, and at least the last capacity + 1 of them.
   */
  ghost predicate BoundedSuffix(g: Generations, recorded: seq<string>, capacity: int) {
    && Held(g) <= 2 * Effective(capacity)
    && g.seen !! g.prior
    && Min(|recorded|, Effective(capacity) + 1) <= Held(g) <= |recorded|
    && Of(g.seen + g.prior, recorded[|recorded| - Held(g)..])
  }

  lemma DropFirst<T>(a: seq<T>, b: seq<T>, c: seq<T>)
    ensures (a + b + c)[|a|..] == b + c
  {
  }

  /** After any run of calls, for any capacity. */
  lemma RunIsBounded(capacity: int, calls: seq<string>)
    ensures BoundedSuffix(Run(capacity, calls).0, Run(capacity, calls).1, capacity)
  {
    var t := RunTrail(capacity, calls);
    HoldsCounts(Run(capacity, calls).0, t, capacity);
    DropFirst(t.evicted, t.older, t.newer);
  }

  /** The next call records its key exactly when First says it is new. */
  lemma RunAppend(capacity: int, calls: seq<string>, key: string)
    ensures var (g, recorded) := Run(capacity, calls);
            var (first, g') := First(g, capacity, key);
            Run(capacity, calls + [key]) == (g', if first then recorded + [key] else recorded)
  {
    assert (calls + [key])[..|calls|] == calls;
  }

  lemma {:induction false} RecordedWereCalled(capacity: int, calls: seq<string>, key: string)
    requires key in Run(capacity, calls).1
    ensures key in calls
  {
    if calls != [] && key in Run(capacity, calls[..|calls| - 1]).1 {
      RecordedWereCalled(capacity, calls[..|calls| - 1], key);
    }
  }

  /** A key no earlier call mentioned is always reported. */
  lemma NewKeyIsReported(capacity: int, calls: seq<string>, key: string)
    ensures key in calls || First(Run(capacity, calls).0, capacity, key).0
  {
    RunIsBounded(capacity, calls);
    var (g, recorded) := Run(capacity, calls);
    if key in g.seen + g.prior {
      assert key in recorded;
      RecordedWereCalled(capacity, calls, key);
    }
  }

  lemma {:induction false} RecordedGrows(capacity: int, first: seq<string>, more: seq<string>)
    ensures Run(capacity, first).1 <= Run(capacity, first + more).1
  {
    if more == [] {
      assert first + more == first;
    } else {
      var init := more[..|more| - 1];
      RecordedGrows(capacity, first, init);
      assert first + more == (first + init) + [more[|more| - 1]];
      RunAppend(capacity, first + init, more[|more| - 1]);
    }
  }

  /** A recorded key stays suppressed until more than capacity further new keys arrived. */
  lemma StaysSuppressed(capacity: int, before: seq<string>, key: string, after: seq<string>)
    requires First(Run(capacity, before).0, capacity, key).0
    requires |Run(capacity, before + [key] + after).1| - |Run(capacity, before + [key]).1| <= Effective(capacity)
    ensures !First(Run(capacity, before + [key] + after).0, capacity, key).0
  {
    RunAppend(capacity, before, key);
    RecordedGrows(capacity, before + [key], after);
    RunIsBounded(capacity, before + [key] + after);
    var (g, recorded) := Run(capacity, before + [key] + after);
    var at := |Run(capacity, before).1|;
    var start := |recorded| - Held(g);
    assert recorded[at] == key;
    assert recorded[start..][at - start] == key;
    assert key in g.seen + g.prior;
  }
}
