/**
 The holds of one node over whole runs: incidents come, move, are resolved and are
 pruned; playbooks take and return the node; the janitor judges from a listing that
 may be stale, reads a store that may be down, and acts some time later.
 */
module CordonHistory {
  import opened Common
  import opened CordonReason
  import opened Escalation
  import opened CordonJanitor

  /** The janitor works on one verdict at a time. */
  datatype World = World(cordon: Cordon, rows: Rows, used: set<string>, pending: Judgement)

  datatype Event =
    | Appear(id: string)
    | Transition(id: string, to: State)
    | Prune(id: string)
    | Take(id: string, problem: string)
    | Return(id: string, problem: string)
    | OldCordon(reason: string)
    | Clear
    | Look(owner: string, listing: Cordon, unreadable: bool)
    | Act(ok: bool)

  predicate Names(owner: string, id: string) { FromOwner(owner) == Some(id) }

  /** Ids are generated: never reused, and never the one a verdict is about. */
  predicate Unused(w: World, id: string) {
    WellNamed(id) && id !in w.used && id !in w.rows && !(w.pending.Drop? && Names(w.pending.owner, id))
  }

  function Step(w: World, ev: Event): World {
    match ev
    case Appear(id) => if Unused(w, id) then w.(rows := w.rows[id := State.Open], used := w.used + {id}) else w
    case Transition(id, to) => if id in w.rows && CanTransition(w.rows[id], to) then w.(rows := w.rows[id := to]) else w
    case Prune(id) =>
      if id in w.rows && (w.rows[id].Resolved? || w.rows[id].Expired?) then w.(rows := w.rows - {id}) else w
    case Take(id, problem) => if WellNamed(id) then w.(cordon := CordonFor(w.cordon, id, Reason(problem, id))) else w
    case Return(id, problem) =>
      if WellNamed(id) then w.(cordon := Release(w.cordon, {id, LegacyOwner(Reason(problem, id))})) else w
    case OldCordon(reason) => if w.cordon.Free? then w.(cordon := Untracked(reason, false)) else w
    case Clear => w.(cordon := Free)
    case Look(owner, listing, unreadable) =>
      if w.pending.Leave? then w.(pending := Judge(w.rows, listing, owner, unreadable)) else w
    case Act(ok) => w.(cordon := if ok then Carry(w.cordon, w.pending) else w.cordon, pending := Leave)
  }

  function Run(w: World, events: seq<Event>): World {
    if events == [] then w else Step(Run(w, events[..|events| - 1]), events[|events| - 1])
  }

  // ----- What the janitor lets go of -----

  /** Resolved, or without a row: nothing an incident does afterwards can revive it. */
  predicate Finished(w: World, id: string) { id !in w.rows || w.rows[id].Resolved? }

  ghost predicate PendingOk(w: World) {
    w.pending.Drop? ==> FromOwner(w.pending.owner).Some? && Finished(w, FromOwner(w.pending.owner).value)
  }

  lemma StepKeepsPending(w: World, ev: Event)
    requires PendingOk(w)
    ensures PendingOk(Step(w, ev))
  {
  }

  lemma {:induction false} RunKeepsPending(w: World, events: seq<Event>)
    requires w.pending.Leave?
    ensures PendingOk(Run(w, events))
  {
    if events != [] {
      RunKeepsPending(w, events[..|events| - 1]);
      StepKeepsPending(Run(w, events[..|events| - 1]), events[|events| - 1]);
    }
  }

  /** A verdict to drop came from a look at a readable row. */
  ghost predicate LookedAt(w: World, events: seq<Event>, owner: string) {
    exists j :: 0 <= j < |events| && LooksTo(Run(w, events[..j]), events[j], owner)
  }

  predicate LooksTo(w: World, ev: Event, owner: string) {
    && ev.Look? && ev.owner == owner && !ev.unreadable && w.pending.Leave?
    && FromOwner(owner).Some? && Finished(w, FromOwner(owner).value)
    && (FromOwner(owner).value !in w.rows ==> !HeldBy(ev.listing, owner))
  }

  lemma {:induction false} DropWasLookedAt(w: World, events: seq<Event>)
    requires w.pending.Leave? && Run(w, events).pending.Drop?
    ensures LookedAt(w, events, Run(w, events).pending.owner)
  {
    if events != [] {
      var n := |events| - 1;
      var before, owner := Run(w, events[..n]), Run(w, events).pending.owner;
      if before.pending == Run(w, events).pending {
        DropWasLookedAt(w, events[..n]);
        var j :| 0 <= j < n && LooksTo(Run(w, events[..n][..j]), events[..n][j], owner);
        assert events[..n][..j] == events[..j];
      } else {
        JudgeShape(before.rows, events[n].listing, events[n].owner, events[n].unreadable);
        assert LooksTo(before, events[n], owner);
      }
    }
  }

  /**
   In every run, a hold the janitor lets go of belongs to an incident that is resolved
   or has no row: never to an active one, never to one halted unresolved, and never on
   the word of a store that could not be read.
   */
  lemma JanitorDropsOnlyFinished(w: World, events: seq<Event>, ok: bool, owner: string)
    requires w.pending.Leave?
    requires var before := Run(w, events);
             owner in Holds(before.cordon) && owner !in Holds(Step(before, Act(ok)).cordon)
    ensures FromOwner(owner).Some? && Finished(Run(w, events), FromOwner(owner).value)
    ensures LookedAt(w, events, owner)
  {
    var before := Run(w, events);
    CarryHolds(before.cordon, before.pending);
    RunKeepsPending(w, events);
    DropWasLookedAt(w, events);
  }

  // ----- What a human has taken charge of -----

  /** The incident has a hold on the node that a human owns. */
  ghost predicate Kept(c: Cordon, id: string) {
    exists owner :: owner in Holds(c) && HeldBy(c, owner) && Names(owner, id)
  }

  /** The incident is not resolved, and no verdict against it is under way. */
  ghost predicate Unresolved(w: World, id: string) {
    && (id in w.rows ==> !w.rows[id].Resolved?)
    && !(w.pending.Drop? && Names(w.pending.owner, id))
  }

  /**
   Nobody resolves the incident or returns its node, and a listing it is judged by without
   its row shows its marks.
   */
  predicate Respects(w: World, ev: Event, id: string) {
    match ev
    case Transition(other, to) => other != id || !to.Resolved?
    case Return(other, _) => other != id
    case Clear => false
    case Look(owner, listing, unreadable) => Names(owner, id) && !unreadable && id !in w.rows ==> HeldBy(listing, owner)
    case _ => true
  }

  lemma TakeKeeps(c: Cordon, other: string, problem: string, id: string)
    requires Kept(c, id) && WellNamed(other)
    ensures Kept(CordonFor(c, other, Reason(problem, other)), id)
  {
    var after := CordonFor(c, other, Reason(problem, other));
    var owner :| owner in Holds(c) && HeldBy(c, owner) && Names(owner, id);
    OwnersReadBack(problem, other);
    if c.Untracked? && c.reason == Reason(problem, other) {
      assert other in Holds(after) && HeldBy(after, other) && Names(other, id);
    } else {
      assert owner in Holds(after) && HeldBy(after, owner);
    }
  }

  lemma ReleaseKeeps(c: Cordon, leaving: set<string>, id: string)
    requires Kept(c, id) && forall owner :: owner in leaving ==> !Names(owner, id)
    ensures Kept(Release(c, leaving), id)
  {
    var owner :| owner in Holds(c) && HeldBy(c, owner) && Names(owner, id);
    ReleaseLeaves(c, leaving, owner);
  }

  lemma ReleaseLeaves(c: Cordon, leaving: set<string>, owner: string)
    requires owner in Holds(c) && HeldBy(c, owner) && owner !in leaving
    ensures owner in Holds(Release(c, leaving)) && HeldBy(Release(c, leaving), owner)
  {
  }

  lemma CarryKeeps(c: Cordon, v: Judgement, id: string)
    requires Kept(c, id) && !(v.Drop? && Names(v.owner, id))
    ensures Kept(Carry(c, v), id)
  {
    var owner :| owner in Holds(c) && HeldBy(c, owner) && Names(owner, id);
    CarryHolds(c, v);
    assert owner in Holds(Carry(c, v)) && HeldBy(Carry(c, v), owner);
  }

  lemma StepKeepsHold(w: World, ev: Event, id: string)
    requires Kept(w.cordon, id) && Unresolved(w, id) && Respects(w, ev, id)
    ensures Kept(Step(w, ev).cordon, id) && Unresolved(Step(w, ev), id)
  {
    match ev
    case Take(other, problem) =>
      if WellNamed(other) {
        TakeKeeps(w.cordon, other, problem, id);
      }
    case Return(other, problem) =>
      if WellNamed(other) {
        OwnersReadBack(problem, other);
        ReleaseKeeps(w.cordon, {other, LegacyOwner(Reason(problem, other))}, id);
      }
    case Look(owner, listing, unreadable) => JudgeShape(w.rows, listing, owner, unreadable);
    case Act(ok) => CarryKeeps(w.cordon, w.pending, id);
    case _ =>
  }

  /**
   A hold marked for a human outlives every other hold on the node, an upgrade to
   counted holds, store outages and the pruning of its own incident's row, as long as
   that incident is not resolved and the listings the janitor judges it by, once its row
   is gone, show the mark.
   */
  lemma {:induction false} HeldHoldsStay(w: World, events: seq<Event>, id: string)
    requires Kept(w.cordon, id) && Unresolved(w, id)
    requires forall i :: 0 <= i < |events| ==> Respects(Run(w, events[..i]), events[i], id)
    ensures Kept(Run(w, events).cordon, id) && Unresolved(Run(w, events), id)
  {
    if events != [] {
      var n := |events| - 1;
      forall i | 0 <= i < n ensures Respects(Run(w, events[..n][..i]), events[..n][i], id) {
        assert events[..n][..i] == events[..i];
      }
      HeldHoldsStay(w, events[..n], id);
      StepKeepsHold(Run(w, events[..n]), events[n], id);
    }
  }

  /**
   Exactly when one look and one act cost a marked hold its place: its incident is
   resolved, or has no row left and the listing does not show the mark.
   */
  lemma MarkedHoldDroppedIff(w: World, owner: string, listing: Cordon, unreadable: bool)
    requires w.pending.Leave? && owner in Holds(w.cordon) && HeldBy(w.cordon, owner) && FromOwner(owner).Some?
    ensures var id := FromOwner(owner).value;
            owner !in Holds(Step(Step(w, Look(owner, listing, unreadable)), Act(true)).cordon) <==>
            !unreadable && (if id in w.rows then w.rows[id].Resolved? else !HeldBy(listing, owner))
  {
    JudgeShape(w.rows, listing, owner, unreadable);
    CarryHolds(w.cordon, Judge(w.rows, listing, owner, unreadable));
  }

  // ----- A run that loses a marked hold -----

  /** Every listing is what the cordon once was in this run. */
  ghost predicate FormerListings(w: World, events: seq<Event>) {
    forall j :: 0 <= j < |events| && events[j].Look? ==>
      exists k :: 0 <= k <= j && events[j].listing == Run(w, events[..k]).cordon
  }

  /** Marked after so many events; then nothing but pruning and the janitor, and the hold is gone. */
  ghost predicate LosesMarked(w: World, id: string, events: seq<Event>, marked: nat) {
    && marked <= |events| && FormerListings(w, events)
    && Kept(Run(w, events[..marked]).cordon, id) && Unresolved(Run(w, events[..marked]), id)
    && (forall i :: marked <= i < |events| ==> events[i].Prune? || events[i].Look? || events[i].Act?)
    && !Kept(Run(w, events).cordon, id)
  }

  const FRESH := World(Free, map[], {}, Leave)

  const UNMARKED := Tracked({"i"}, {})

  function Holding(state: State): World { World(UNMARKED, map["i" := state], {"i"}, Leave) }

  /** A cordon step, then a step whose approval expires; the janitor marks the hold, and the row is pruned. */
  const STALE := [
    Appear("i"), Transition("i", Evaluating), Transition("i", Executing), Take("i", "xid"),
    Transition("i", Evaluating), Transition("i", AwaitingApproval), Transition("i", State.Expired),
    Look("i", UNMARKED, false), Act(true), Prune("i"), Look("i", UNMARKED, false), Act(true)]

  /** Where a run from a fresh node stands after its first n events. */
  predicate Reaches(events: seq<Event>, n: nat, at: World) { n <= |events| && Run(FRESH, events[..n]) == at }

  lemma ReachStart(events: seq<Event>)
    ensures Reaches(events, 0, FRESH)
  {
    assert events[..0] == [];
  }

  lemma Reach(events: seq<Event>, n: nat, ev: Event, at: World, next: World)
    requires Reaches(events, n, at) && n < |events| && events[n] == ev && Step(at, ev) == next
    ensures Reaches(events, n + 1, next)
  {
    assert events[..n + 1][..n] == events[..n];
  }

  function Appeared(state: State): World { World(Free, map["i" := state], {"i"}, Leave) }

  lemma TakingSteps()
    ensures Step(FRESH, Appear("i")) == Appeared(State.Open)
    ensures Step(Appeared(State.Open), Transition("i", Evaluating)) == Appeared(Evaluating)
    ensures Step(Appeared(Evaluating), Transition("i", Executing)) == Appeared(Executing)
    ensures Step(Appeared(Executing), Take("i", "xid")) == Holding(Executing)
  {
  }

  lemma StaleAppears(events: seq<Event>)
    requires events == STALE
    ensures Reaches(events, 2, Appeared(Evaluating))
  {
    TakingSteps();
    ReachStart(events);
    Reach(events, 0, Appear("i"), FRESH, Appeared(State.Open));
    Reach(events, 1, Transition("i", Evaluating), Appeared(State.Open), Appeared(Evaluating));
  }

  lemma StaleTakes(events: seq<Event>)
    requires events == STALE
    ensures Reaches(events, 4, Holding(Executing))
  {
    TakingSteps();
    StaleAppears(events);
    Reach(events, 2, Transition("i", Executing), Appeared(Evaluating), Appeared(Executing));
    Reach(events, 3, Take("i", "xid"), Appeared(Executing), Holding(Executing));
  }

  lemma ExpiringSteps()
    ensures Step(Holding(Executing), Transition("i", Evaluating)) == Holding(Evaluating)
    ensures Step(Holding(Evaluating), Transition("i", AwaitingApproval)) == Holding(AwaitingApproval)
    ensures Step(Holding(AwaitingApproval), Transition("i", State.Expired)) == Holding(State.Expired)
  {
  }

  lemma StaleExpires(events: seq<Event>)
    requires events == STALE
    ensures Reaches(events, 7, Holding(State.Expired))
  {
    StaleTakes(events);
    ExpiringSteps();
    Reach(events, 4, Transition("i", Evaluating), Holding(Executing), Holding(Evaluating));
    Reach(events, 5, Transition("i", AwaitingApproval), Holding(Evaluating), Holding(AwaitingApproval));
    Reach(events, 6, Transition("i", State.Expired), Holding(AwaitingApproval), Holding(State.Expired));
  }

  const MARKED := Holding(State.Expired).(cordon := Tracked({"i"}, {"i"}))

  lemma JanitorSteps()
    ensures Step(Holding(State.Expired), Look("i", UNMARKED, false)) ==
            Holding(State.Expired).(pending := HoldOwner("i"))
    ensures Step(Holding(State.Expired).(pending := HoldOwner("i")), Act(true)) == MARKED
    ensures Step(MARKED, Prune("i")) == MARKED.(rows := map[])
    ensures Step(MARKED.(rows := map[]), Look("i", UNMARKED, false)) == MARKED.(rows := map[], pending := Drop("i"))
    ensures Step(MARKED.(rows := map[], pending := Drop("i")), Act(true)) == World(Free, map[], {"i"}, Leave)
  {
    assert FromOwner("i") == Some("i");
    assert {} + {"i"} == {"i"};
  }

  lemma StaleMarks(events: seq<Event>)
    requires events == STALE
    ensures Reaches(events, 9, MARKED)
  {
    StaleExpires(events);
    JanitorSteps();
    var judged := Holding(State.Expired).(pending := HoldOwner("i"));
    Reach(events, 7, Look("i", UNMARKED, false), Holding(State.Expired), judged);
    Reach(events, 8, Act(true), judged, MARKED);
  }

  lemma StaleDrops(events: seq<Event>)
    requires events == STALE
    ensures Reaches(events, 12, World(Free, map[], {"i"}, Leave))
  {
    StaleMarks(events);
    JanitorSteps();
    Reach(events, 9, Prune("i"), MARKED, MARKED.(rows := map[]));
    Reach(events, 10, Look("i", UNMARKED, false), MARKED.(rows := map[]), MARKED.(rows := map[], pending := Drop("i")));
    Reach(events, 11, Act(true), MARKED.(rows := map[], pending := Drop("i")), World(Free, map[], {"i"}, Leave));
  }

  lemma StaleListings()
    ensures FormerListings(FRESH, STALE)
  {
    StaleExpires(STALE);
    var before := 7;
    assert Run(FRESH, STALE[..before]).cordon == UNMARKED;
    forall j | 0 <= j < |STALE| && STALE[j].Look?
      ensures before <= j && STALE[j].listing == Run(FRESH, STALE[..before]).cordon
    {
    }
  }

  lemma MarkedIsKept()
    ensures Kept(MARKED.cordon, "i") && Unresolved(MARKED, "i") && !Kept(Free, "i")
  {
    assert FromOwner("i") == Some("i");
    assert "i" in Holds(MARKED.cordon) && HeldBy(MARKED.cordon, "i") && Names("i", "i");
  }

  /**
   From a free node: the hold of an incident that expired is marked, its row is pruned,
   and a listing from before the mark then costs it the hold.
   */
  lemma StaleListingDropsHeldHold()
    ensures LosesMarked(FRESH, "i", STALE, 9)
  {
    StaleMarks(STALE);
    StaleDrops(STALE);
    StaleListings();
    MarkedIsKept();
    assert STALE[..12] == STALE;
  }
}
