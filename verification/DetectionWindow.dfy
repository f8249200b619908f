/**
 The agent's detection deduplication window: a timed map shared by every
 detection source.

 The log records, in order, every event that reached the controller or the
 durable spool, with the time it was remembered. Valid ties the map to the log,
 so what each call promises holds after any run of earlier calls.
 */
module DetectionWindow {
  import opened Common
  import opened DetectionKeys

  const WINDOW: int := 2 * MINUTE

  datatype Accepted = Accepted(event: Event, at: Time)

  datatype Delivery = Posted | Rejected | Spooled | Lost

  /** Whether the log holds an accepted event, under one window old, that shares a key with this one. */
  predicate CoveredBy(a: Accepted, ev: Event, now: Time, singleGPU: bool, catalog: Catalog) {
    now - a.at < WINDOW && WrittenKeys(a.event, catalog) * ProbedKeys(ev, singleGPU, catalog) != {}
  }

  predicate Covered(log: seq<Accepted>, ev: Event, now: Time, singleGPU: bool, catalog: Catalog) {
    exists i :: 0 <= i < |log| && CoveredBy(log[i], ev, now, singleGPU, catalog)
  }

  // ----- The map against what was remembered -----

  /** One accepted event, reduced to when it was remembered and under which keys. */
  datatype Stamp = Stamp(at: Time, keys: set<string>)

  function Expired(seen: map<string, Time>, now: Time): map<string, Time> {
    map key | key in seen && now - seen[key] <= WINDOW :: seen[key]
  }

  function Noted(seen: map<string, Time>, keys: set<string>, now: Time): map<string, Time> {
    map key | key in seen.Keys + keys :: if key in keys then now else seen[key]
  }

  predicate SeenWithin(seen: map<string, Time>, key: string, now: Time) {
    key in seen && now - seen[key] < WINDOW
  }

  /** Every remembered time is some stamp's. */
  ghost predicate Sound(seen: map<string, Time>, stamps: seq<Stamp>) {
    forall key :: key in seen ==>
      exists i :: 0 <= i < |stamps| && stamps[i].at == seen[key] && key in stamps[i].keys
  }

  /** With instants in the order of the calls, no stamp under a window old has lost one of its keys. */
  ghost predicate Reflects(seen: map<string, Time>, stamps: seq<Stamp>, clock: Time) {
    && Sound(seen, stamps)
    && (forall i, key :: 0 <= i < |stamps| && key in stamps[i].keys && clock - stamps[i].at <= WINDOW ==>
          key in seen && seen[key] >= stamps[i].at)
    && (forall i :: 0 <= i < |stamps| ==> stamps[i].at <= clock)
  }

  lemma ExpiredReflects(seen: map<string, Time>, stamps: seq<Stamp>, clock: Time, now: Time)
    requires Reflects(seen, stamps, clock) && clock <= now
    ensures Reflects(Expired(seen, now), stamps, now)
  {
  }

  lemma ExpiredSound(seen: map<string, Time>, stamps: seq<Stamp>, now: Time)
    requires Sound(seen, stamps)
    ensures Sound(Expired(seen, now), stamps)
  {
  }

  lemma NotedSound(seen: map<string, Time>, stamps: seq<Stamp>, now: Time, keys: set<string>)
    requires Sound(seen, stamps)
    ensures Sound(Noted(seen, keys, now), stamps + [Stamp(now, keys)])
  {
    var seen' := Noted(seen, keys, now);
    var stamps' := stamps + [Stamp(now, keys)];
    forall key | key in seen'
      ensures exists i :: 0 <= i < |stamps'| && stamps'[i].at == seen'[key] && key in stamps'[i].keys
    {
      if key in keys {
        assert stamps'[|stamps|] == Stamp(now, keys);
      } else {
        var i :| 0 <= i < |stamps| && stamps[i].at == seen[key] && key in stamps[i].keys;
        assert stamps'[i] == stamps[i];
      }
    }
  }

  lemma NotedReflects(seen: map<string, Time>, stamps: seq<Stamp>, now: Time, keys: set<string>)
    requires Reflects(seen, stamps, now)
    ensures Reflects(Noted(seen, keys, now), stamps + [Stamp(now, keys)], now)
  {
    var seen' := Noted(seen, keys, now);
    var stamps' := stamps + [Stamp(now, keys)];
    NotedSound(seen, stamps, now, keys);
    forall i, key | 0 <= i < |stamps'| && key in stamps'[i].keys && now - stamps'[i].at <= WINDOW
      ensures key in seen' && seen'[key] >= stamps'[i].at
    {
      if i < |stamps| {
        assert stamps'[i] == stamps[i];
      }
    }
  }

  /** A hit on a key is exactly a stamp inside the window that carries it. */
  lemma SeenIffStamped(seen: map<string, Time>, stamps: seq<Stamp>, now: Time, key: string)
    requires Reflects(seen, stamps, now)
    ensures SeenWithin(seen, key, now) <==>
            exists i :: 0 <= i < |stamps| && now - stamps[i].at < WINDOW && key in stamps[i].keys
  {
  }

  ghost predicate Matches(stamps: seq<Stamp>, log: seq<Accepted>, catalog: Catalog) {
    && |stamps| == |log|
    && forall i :: 0 <= i < |log| ==> stamps[i] == Stamp(log[i].at, WrittenKeys(log[i].event, catalog))
  }

  ghost predicate Stamped(stamps: seq<Stamp>, now: Time, probed: set<string>, i: int) {
    0 <= i < |stamps| && now - stamps[i].at < WINDOW && stamps[i].keys * probed != {}
  }

  lemma StampedIffSeen(seen: map<string, Time>, stamps: seq<Stamp>, now: Time, probed: set<string>)
    requires Reflects(seen, stamps, now)
    ensures (exists i :: Stamped(stamps, now, probed, i)) <==>
            exists key :: key in probed && SeenWithin(seen, key, now)
  {
    if i :| Stamped(stamps, now, probed, i) {
      var key :| key in stamps[i].keys * probed;
      SeenIffStamped(seen, stamps, now, key);
      assert SeenWithin(seen, key, now);
    }
    if key :| key in probed && SeenWithin(seen, key, now) {
      SeenIffStamped(seen, stamps, now, key);
      var i :| 0 <= i < |stamps| && now - stamps[i].at < WINDOW && key in stamps[i].keys;
      assert key in stamps[i].keys * probed;
      assert Stamped(stamps, now, probed, i);
    }
  }

  /** In any order, a hit on a probed key is some stamp inside the window. */
  lemma SeenIsStamped(seen: map<string, Time>, stamps: seq<Stamp>, now: Time, probed: set<string>)
    requires Sound(seen, stamps) && exists key :: key in probed && SeenWithin(seen, key, now)
    ensures exists i :: Stamped(stamps, now, probed, i)
  {
    var key :| key in probed && SeenWithin(seen, key, now);
    var i :| 0 <= i < |stamps| && stamps[i].at == seen[key] && key in stamps[i].keys;
    assert key in stamps[i].keys * probed;
    assert Stamped(stamps, now, probed, i);
  }

  lemma CoveredIffStamped(stamps: seq<Stamp>, log: seq<Accepted>, ev: Event, now: Time, singleGPU: bool,
                          catalog: Catalog)
    requires Matches(stamps, log, catalog)
    ensures Covered(log, ev, now, singleGPU, catalog) <==>
            exists i :: Stamped(stamps, now, ProbedKeys(ev, singleGPU, catalog), i)
  {
    var probed := ProbedKeys(ev, singleGPU, catalog);
    forall i | 0 <= i < |log|
      ensures CoveredBy(log[i], ev, now, singleGPU, catalog) <==> Stamped(stamps, now, probed, i)
    {
      assert stamps[i] == Stamp(log[i].at, WrittenKeys(log[i].event, catalog));
    }
    if i :| Stamped(stamps, now, probed, i) {
      assert CoveredBy(log[i], ev, now, singleGPU, catalog);
    }
  }

  class Window {
    const catalog: Catalog
    var seen: map<string, Time>
    ghost var log: seq<Accepted>
    ghost var stamps: seq<Stamp>
    /** The latest instant any call has used. */
    ghost var clock: Time

    ghost predicate Valid()
      reads this
    {
      Sound(seen, stamps) && Matches(stamps, log, catalog)
    }

    /** No call so far used an instant earlier than the call before it. */
    ghost predicate InOrder()
      reads this
    {
      Reflects(seen, stamps, clock)
    }

    constructor (c: Catalog, start: Time)
      ensures Valid() && InOrder() && log == [] && clock == start && catalog == c
    {
      catalog := c;
      seen := map[];
      log := [];
      stamps := [];
      clock := start;
    }

    method Expire(now: Time)
      modifies `seen
      ensures seen == Expired(old(seen), now)
    {
      var keys := seen.Keys;
      while keys != {}
        invariant keys <= old(seen).Keys
        invariant seen ==
                  map key | key in old(seen) && (key in keys || now - old(seen)[key] <= WINDOW) :: old(seen)[key]
        decreases keys
      {
        var key :| key in keys;
        if now - seen[key] > WINDOW {
          seen := seen - {key};
        }
        keys := keys - {key};
      }
    }

    /**
     The caller reads the clock before it takes the lock, so instants can arrive out of
     order. Whatever their order, nothing the log does not cover is called a duplicate.
     */
    method Duplicate(ev: Event, now: Time, singleGPU: bool) returns (duplicate: bool)
      requires Valid()
      modifies `seen, `clock
      ensures Valid() && clock == Max(old(clock), now)
      ensures duplicate ==> Covered(log, ev, now, singleGPU, catalog)
      ensures old(InOrder()) && now >= old(clock) ==>
                InOrder() && (duplicate <==> Covered(log, ev, now, singleGPU, catalog))
    {
      ghost var probed := ProbedKeys(ev, singleGPU, catalog);
      ExpiredSound(seen, stamps, now);
      if InOrder() && now >= clock {
        ExpiredReflects(seen, stamps, clock, now);
        StampedIffSeen(Expired(seen, now), stamps, now, probed);
      }
      Expire(now);
      clock := Max(clock, now);
      CoveredIffStamped(stamps, log, ev, now, singleGPU, catalog);
      duplicate := Probe(ev, now, singleGPU);
      if duplicate {
        SeenIsStamped(seen, stamps, now, probed);
      }
    }

    method Probe(ev: Event, now: Time, singleGPU: bool) returns (hit: bool)
      ensures hit <==> exists key :: key in ProbedKeys(ev, singleGPU, catalog) && SeenWithin(seen, key, now)
    {
      if SeenWithin(seen, DetectionKey(ev), now) {
        return true;
      }
      if Attributed(ev) {
        var problem := catalog(ev.native);
        if problem.Some? && SeenWithin(seen, ClassAnchorKey(ev, OtherTag(ev.native), problem.value), now) {
          return true;
        }
        if ev.pciAddr != "" {
          return false;
        }
        if singleGPU && SeenWithin(seen, NodeFaultKey(ev), now) {
          return true;
        }
      }
      return false;
    }

    method Remember(ev: Event, now: Time)
      requires Valid()
      modifies this
      ensures Valid() && log == old(log) + [Accepted(ev, now)] && clock == Max(old(clock), now)
      ensures old(InOrder()) && now >= old(clock) ==> InOrder()
    {
      ghost var keys := WrittenKeys(ev, catalog);
      ExpiredSound(seen, stamps, now);
      NotedSound(Expired(seen, now), stamps, now, keys);
      if InOrder() && now >= clock {
        ExpiredReflects(seen, stamps, clock, now);
        NotedReflects(Expired(seen, now), stamps, now, keys);
      }
      Expire(now);
      Note(ev, now);
      stamps := stamps + [Stamp(now, keys)];
      log := log + [Accepted(ev, now)];
      clock := Max(clock, now);
    }

    method Note(ev: Event, now: Time)
      modifies `seen
      ensures seen == Noted(old(seen), WrittenKeys(ev, catalog), now)
    {
      seen := seen[DetectionKey(ev) := now];
      if Attributed(ev) {
        var problem := catalog(ev.native);
        if problem.Some? {
          seen := seen[ClassAnchorKey(ev, Tag(ev.native), problem.value) := now];
        }
        return;
      }
      if ev.pciAddr != "" {
        seen := seen[NodeFaultKey(ev) := now];
      }
    }

    /**
     One detection from any source. It is suppressed only when the log covers it, and
     exactly then when instants arrive in order; only an event that was posted or
     spooled enters the log.
     */
    method Handle(ev: Event, checkedAt: Time, rememberedAt: Time, singleGPU: bool, delivery: Delivery)
      returns (settled: bool, suppressed: bool)
      requires Valid()
      modifies this
      ensures Valid()
      ensures suppressed ==> Covered(old(log), ev, checkedAt, singleGPU && Attributed(ev), catalog)
      ensures old(InOrder()) && old(clock) <= checkedAt <= rememberedAt ==>
                InOrder() && (suppressed <==> Covered(old(log), ev, checkedAt, singleGPU && Attributed(ev), catalog))
      ensures log == if !suppressed && (delivery.Posted? || delivery.Spooled?)
                     then old(log) + [Accepted(ev, rememberedAt)] else old(log)
      ensures settled <==> suppressed || !delivery.Lost?
    {
      var single := if Attributed(ev) then singleGPU else false;
      suppressed := Duplicate(ev, checkedAt, single);
      if suppressed {
        return true, suppressed;
      }
      if delivery.Rejected? {
        return true, suppressed;
      }
      if delivery.Lost? {
        return false, suppressed;
      }
      Remember(ev, rememberedAt);
      settled := true;
    }
  }
}
