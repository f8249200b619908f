/**
 Quiesce steps, restore steps and the janitor over whole runs, with a crash possible
 between any two of their moves. A write that is reported failed may have landed.

 Host changes are actions queued for the node's agent. One the controller stopped
 waiting for, or died waiting for, may still land later. The agent serves its node's
 queue in order, so a host restore that landed has every earlier host change behind it.
 */
module StackProtocol {
  import opened Common
  import opened Escalation
  import opened StackJanitor

  /** A quiesce pins, marks, then settles the host; a restore does the host, the marker, then the pin. */
  datatype Stage = Pinning | Marking | Settling | HostRestoring | Unmarking | Forgetting

  /** Of owed nodes a host change is still queued. */
  datatype State = State(world: World, tasks: map<string, Stage>, owed: set<string>)

  /** What became of a move that was reported failed; only a queued host change can land later. */
  datatype Landing = Landed | Later | Never

  datatype Event =
    | Register(id: string, row: Row)
    | Walk(id: string, walk: Escalation.Event)
    | Prune(id: string)
    | DropPin(id: string)
    | BeginQuiesce(id: string)
    | BeginRestore(id: string)
    | Move(id: string, landing: Landing, ok: bool)
    | LateChange(node: string)
    | HostReset(node: string)
    | Restart
    | Janitor(node: string, engine: Engine, faults: Faults)

  predicate Ready(s: State, id: string) {
    id in s.world.rows && id !in s.tasks && !s.world.rows[id].incident.inFlight
  }

  function Dispatch(s: State, id: string, stage: Stage): State {
    if !Ready(s, id) then s
    else
      var row := s.world.rows[id];
      var begun := row.(incident := row.incident.(state := Executing, inFlight := true));
      s.(world := s.world.(rows := s.world.rows[id := begun]), tasks := s.tasks[id := stage])
  }

  /** The step goes on to its next stage, or ends: done, or at its first failure. */
  function Next(s: State, id: string, next: Option<Stage>, ok: bool): map<string, Stage> {
    if ok && next.Some? then s.tasks[id := next.value] else s.tasks - {id}
  }

  function NodeOf(s: State, id: string): string
    requires id in s.world.rows
  {
    s.world.rows[id].node
  }

  function MoveOn(s: State, id: string, landing: Landing, ok: bool): State
    requires id in s.tasks && id in s.world.rows
  {
    var w, node, landed := s.world, NodeOf(s, id), landing.Landed? || ok;
    match s.tasks[id]
    case Pinning =>
      s.(tasks := Next(s, id, Some(Marking), ok), world := if ok then w.(pins := w.pins[id := node]) else w)
    case Marking =>
      s.(tasks := Next(s, id, Some(Settling), ok), world := if landed then w.(marked := w.marked + {node}) else w)
    case Settling =>
      s.(tasks := Next(s, id, None, ok), world := if landed then w.(changed := w.changed + {node}) else w,
         owed := if !landed && landing.Later? then s.owed + {node} else s.owed)
    case HostRestoring =>
      s.(tasks := Next(s, id, Some(Unmarking), ok), world := if landed then w.(changed := w.changed - {node}) else w,
         owed := if landed then s.owed - {node} else s.owed)
    case Unmarking =>
      s.(tasks := Next(s, id, Some(Forgetting), ok), world := if landed then w.(marked := w.marked - {node}) else w)
    case Forgetting => s.(tasks := Next(s, id, None, ok), world := w.(pins := w.pins - {id}))
  }

  /** The janitor's host restore of this node lands. */
  predicate JanitorRestores(w: World, node: string, engine: Engine, faults: Faults) {
    Restorable(w, node, engine, faults) && (node !in faults.host || node in faults.hostLands)
  }

  function Grounded(row: Row): Row { row.(incident := row.incident.(inFlight := false)) }

  /** HostReset is a reboot, or a queued restore nobody waits for any more. */
  function Step(s: State, ev: Event): State {
    var w := s.world;
    match ev
    case Register(id, row) => if id in w.rows then s else s.(world := w.(rows := w.rows[id := row]))
    case Walk(id, walk) =>
      if id !in w.rows || id in s.tasks then s
      else s.(world := w.(rows := w.rows[id := w.rows[id].(incident := Apply(w.rows[id].incident, walk))]))
    case Prune(id) => if id !in w.rows || id in s.tasks then s else s.(world := w.(rows := w.rows - {id}))
    case DropPin(id) => if id in s.tasks then s else s.(world := w.(pins := w.pins - {id}))
    case BeginQuiesce(id) => Dispatch(s, id, Pinning)
    case BeginRestore(id) => Dispatch(s, id, HostRestoring)
    case Move(id, landing, ok) => if id in s.tasks && id in w.rows then MoveOn(s, id, landing, ok) else s
    case LateChange(node) =>
      if node in s.owed then s.(world := w.(changed := w.changed + {node}), owed := s.owed - {node}) else s
    case HostReset(node) => s.(world := w.(changed := w.changed - {node}))
    case Restart =>
      s.(world := w.(pins := map[], rows := map id | id in w.rows :: Grounded(w.rows[id])), tasks := map[])
    case Janitor(node, engine, faults) =>
      if node !in w.marked then s
      else
        s.(world := JanitorNode(w, node, w.pins, engine, faults),
           owed := if JanitorRestores(w, node, engine, faults) then s.owed - {node} else s.owed)
  }

  function Run(s: State, events: seq<Event>): State
    decreases |events|
  {
    if events == [] then s else Run(Step(s, events[0]), events[1..])
  }

  const BLANK := State(World({}, {}, map[], map[]), map[], {})

  /** Every host that was changed, or is about to be, carries the durable marker. */
  predicate Safe(s: State) { s.world.changed + s.owed <= s.world.marked }

  // ----- Exactly which event loses a marker -----

  /** The move that unmarks a changed host, or changes a host that is not marked. */
  predicate Loses(s: State, ev: Event) {
    && ev.Move? && ev.id in s.tasks && ev.id in s.world.rows
    && var node, landed := NodeOf(s, ev.id), ev.landing.Landed? || ev.ok;
       || (s.tasks[ev.id].Unmarking? && landed && node in s.world.changed + s.owed)
       || (s.tasks[ev.id].Settling? && (landed || ev.landing.Later?) && node !in s.world.marked)
  }

  /** Every event but those moves is safe: crashes, late changes, failures and the janitor always are. */
  lemma LosesIff(s: State, ev: Event)
    requires Safe(s)
    ensures Safe(Step(s, ev)) <==> !Loses(s, ev)
  {
    if ev.Janitor? && ev.node in s.world.marked {
      JanitorIsSafe(s, ev.node, ev.engine, ev.faults);
    } else if ev.Move? && ev.id in s.tasks && ev.id in s.world.rows {
      MoveSets(s, ev.id, ev.landing, ev.ok);
    }
  }

  lemma JanitorIsSafe(s: State, node: string, engine: Engine, faults: Faults)
    requires Safe(s) && node in s.world.marked
    ensures Safe(Step(s, Janitor(node, engine, faults)))
  {
    NodeSets(s.world, node, s.world.pins, engine, faults);
    NodeOutcome(s.world, node, s.world.pins, engine, faults);
    UnmarksOnlyRestored(s.world, node, engine, faults);
  }

  lemma UnmarksOnlyRestored(w: World, node: string, engine: Engine, faults: Faults)
    requires node in w.marked
    ensures node !in JanitorNode(w, node, w.pins, engine, faults).marked ==> JanitorRestores(w, node, engine, faults)
  {
  }

  lemma MoveSets(s: State, id: string, landing: Landing, ok: bool)
    requires id in s.tasks && id in s.world.rows && Safe(s)
    ensures Safe(MoveOn(s, id, landing, ok)) <==> !Loses(s, Move(id, landing, ok))
  {
    var node := NodeOf(s, id);
    var after := MoveOn(s, id, landing, ok);
    if s.tasks[id].Unmarking? && (landing.Landed? || ok) {
      assert node !in after.world.marked && after.world.changed + after.owed == s.world.changed + s.owed;
    } else if s.tasks[id].Settling? && (!landing.Never? || ok) {
      assert node in after.world.changed + after.owed && after.world.marked == s.world.marked;
    }
  }

  // ----- A quiesce beside a restore -----

  predicate Quiesces(stage: Stage) { stage.Pinning? || stage.Marking? || stage.Settling? }

  /** Until the marker is gone, a restore will still take it. */
  predicate Restores(stage: Stage) { stage.HostRestoring? || stage.Unmarking? }

  predicate Opposed(a: Stage, b: Stage) { (Quiesces(a) && Restores(b)) || (Restores(a) && Quiesces(b)) }

  /** No step begins on a node where one of the opposite kind is in progress; two of a kind may. */
  predicate Apart(s: State, ev: Event) {
    (ev.BeginQuiesce? || ev.BeginRestore?) && Ready(s, ev.id) ==>
      forall other :: other in s.tasks && other in s.world.rows && NodeOf(s, other) == NodeOf(s, ev.id) ==>
        !Opposed(if ev.BeginQuiesce? then Pinning else HostRestoring, s.tasks[other])
  }

  predicate ApartRun(s: State, events: seq<Event>)
    decreases |events|
  {
    events == [] || (Apart(s, events[0]) && ApartRun(Step(s, events[0]), events[1..]))
  }

  // ----- What every run keeps -----

  predicate TaskOk(s: State, id: string)
    requires id in s.tasks
  {
    && id in s.world.rows && s.world.rows[id].incident.inFlight && s.world.rows[id].incident.state.Executing?
    && (s.tasks[id].Marking? || s.tasks[id].Settling? ==> id in s.world.pins && s.world.pins[id] == NodeOf(s, id))
    && (s.tasks[id].Settling? ==> NodeOf(s, id) in s.world.marked)
    && (s.tasks[id].Unmarking? ==> NodeOf(s, id) !in s.world.changed + s.owed)
  }

  ghost predicate Inv(s: State) {
    && Safe(s)
    && (forall id :: id in s.tasks ==> TaskOk(s, id))
    && (forall a, b :: a in s.tasks && b in s.tasks && NodeOf(s, a) == NodeOf(s, b) ==>
          !Opposed(s.tasks[a], s.tasks[b]))
  }

  lemma InvNeverLoses(s: State, ev: Event)
    requires Inv(s)
    ensures !Loses(s, ev)
  {
    if ev.Move? && ev.id in s.tasks {
      assert TaskOk(s, ev.id);
    }
  }

  lemma JanitorKeepsTask(s: State, node: string, engine: Engine, faults: Faults, id: string)
    requires Inv(s) && node in s.world.marked && id in s.tasks
    ensures var after := Step(s, Janitor(node, engine, faults));
            TaskOk(after, id) && after.world.rows[id] == s.world.rows[id]
  {
    assert TaskOk(s, id);
    var w := s.world;
    NodeRows(w, node, w.pins, engine, faults, id);
    NodeSets(w, node, w.pins, engine, faults);
    NodePins(w, node, w.pins, engine, faults, id);
    if w.rows[id].node == node && (s.tasks[id].Marking? || s.tasks[id].Settling?) {
      assert Driven(w.rows, w.pins, node, faults);
    }
  }

  lemma NodePins(w: World, node: string, owners: map<string, string>, engine: Engine, faults: Faults, id: string)
    ensures var after := JanitorNode(w, node, owners, engine, faults);
            id in w.pins && !(id in owners && owners[id] == node) ==> id in after.pins && after.pins[id] == w.pins[id]
  {
  }

  lemma MoveKeeps(s: State, id: string, landing: Landing, ok: bool)
    requires Inv(s) && id in s.tasks
    ensures Inv(MoveOn(s, id, landing, ok))
  {
    assert TaskOk(s, id);
    var after := MoveOn(s, id, landing, ok);
    LosesIff(s, Move(id, landing, ok));
    InvNeverLoses(s, Move(id, landing, ok));
    forall other | other in after.tasks ensures TaskOk(after, other) && KeepsKind(s, after, other) {
      assert TaskOk(s, other);
      if other == id {
        MoverStaysOk(s, id, landing, ok);
      } else {
        OthersStayOk(s, id, landing, ok, other);
      }
    }
  }

  /** The step is on the node it was on, and no stage of it turns a quiesce into a restore or back. */
  predicate KeepsKind(s: State, after: State, id: string)
    requires id in s.tasks && id in after.tasks && id in s.world.rows && id in after.world.rows
  {
    && NodeOf(after, id) == NodeOf(s, id)
    && (Quiesces(after.tasks[id]) ==> Quiesces(s.tasks[id])) && (Restores(after.tasks[id]) ==> Restores(s.tasks[id]))
  }

  lemma MoverStaysOk(s: State, id: string, landing: Landing, ok: bool)
    requires id in s.tasks && TaskOk(s, id) && id in MoveOn(s, id, landing, ok).tasks
    ensures TaskOk(MoveOn(s, id, landing, ok), id) && KeepsKind(s, MoveOn(s, id, landing, ok), id)
  {
  }

  lemma OthersStayOk(s: State, id: string, landing: Landing, ok: bool, other: string)
    requires id in s.tasks && id in s.world.rows && other in s.tasks && TaskOk(s, other) && other != id
    requires NodeOf(s, other) == NodeOf(s, id) ==> !Opposed(s.tasks[other], s.tasks[id])
    ensures other in MoveOn(s, id, landing, ok).tasks && TaskOk(MoveOn(s, id, landing, ok), other)
    ensures KeepsKind(s, MoveOn(s, id, landing, ok), other)
  {
  }

  lemma DispatchKeeps(s: State, ev: Event)
    requires Inv(s) && Apart(s, ev) && (ev.BeginQuiesce? || ev.BeginRestore?)
    ensures Inv(Step(s, ev))
  {
    var after := Step(s, ev);
    forall other | other in after.tasks ensures TaskOk(after, other) {
      assert other in s.tasks ==> TaskOk(s, other);
    }
    forall a, b | a in after.tasks && b in after.tasks && NodeOf(after, a) == NodeOf(after, b)
      ensures !Opposed(after.tasks[a], after.tasks[b])
    {
      assert a in s.tasks ==> TaskOk(s, a);
      assert b in s.tasks ==> TaskOk(s, b);
    }
  }

  /** Events that touch no step in progress. */
  lemma AsideKeeps(s: State, ev: Event)
    requires Inv(s) && !ev.BeginQuiesce? && !ev.BeginRestore? && !ev.Move? && !ev.Janitor?
    ensures Inv(Step(s, ev))
  {
    var after := Step(s, ev);
    LosesIff(s, ev);
    forall id | id in after.tasks ensures TaskOk(after, id) && after.world.rows[id] == s.world.rows[id] {
      assert TaskOk(s, id);
    }
  }

  lemma JanitorKeeps(s: State, node: string, engine: Engine, faults: Faults)
    requires Inv(s) && node in s.world.marked
    ensures Inv(Step(s, Janitor(node, engine, faults)))
  {
    var after := Step(s, Janitor(node, engine, faults));
    LosesIff(s, Janitor(node, engine, faults));
    forall id | id in after.tasks ensures TaskOk(after, id) && NodeOf(after, id) == NodeOf(s, id) {
      JanitorKeepsTask(s, node, engine, faults, id);
    }
  }

  lemma StepKeeps(s: State, ev: Event)
    requires Inv(s) && Apart(s, ev)
    ensures Inv(Step(s, ev))
  {
    if ev.BeginQuiesce? || ev.BeginRestore? {
      DispatchKeeps(s, ev);
    } else if ev.Move? {
      if ev.id in s.tasks && ev.id in s.world.rows {
        MoveKeeps(s, ev.id, ev.landing, ev.ok);
      }
    } else if ev.Janitor? {
      if ev.node in s.world.marked {
        JanitorKeeps(s, ev.node, ev.engine, ev.faults);
      }
    } else {
      AsideKeeps(s, ev);
    }
  }

  lemma {:induction false} RunKeeps(s: State, events: seq<Event>)
    requires Inv(s) && ApartRun(s, events)
    ensures Inv(Run(s, events))
    decreases |events|
  {
    if events != [] {
      StepKeeps(s, events[0]);
      RunKeeps(Step(s, events[0]), events[1..]);
    }
  }

  predicate HostsMarked(s: State) { s.world.changed <= s.world.marked }

  /**
   At every crash point of every run in which no quiesce runs beside a restore on its
   node, a node whose host state was changed carries its durable marker. Any number of
   quiesces, or of restores, may share the node.
   */
  lemma ChangedHostsStayMarked(events: seq<Event>)
    requires ApartRun(BLANK, events)
    ensures HostsMarked(Run(BLANK, events))
  {
    RunKeeps(BLANK, events);
  }

  // ----- Whatever begins beside its opposite can lose the marker -----

  /** The steps in progress go on, and nothing else happens. */
  predicate OnlyMoves(events: seq<Event>) { forall i :: 0 <= i < |events| ==> events[i].Move? }

  lemma {:induction false} MovesAreApart(s: State, events: seq<Event>)
    requires OnlyMoves(events)
    ensures ApartRun(s, events)
    decreases |events|
  {
    if events != [] {
      MovesAreApart(Step(s, events[0]), events[1..]);
    }
  }

  lemma FollowOne(s: State, ev: Event, rest: seq<Event>)
    ensures Run(s, [ev] + rest) == Run(Step(s, ev), rest)
  {
    assert ([ev] + rest)[1..] == rest;
  }

  predicate Crossed(s: State, quiesce: string, restore: string) {
    && quiesce in s.tasks && restore in s.tasks && quiesce in s.world.rows && restore in s.world.rows
    && NodeOf(s, quiesce) == NodeOf(s, restore) && Quiesces(s.tasks[quiesce]) && Restores(s.tasks[restore])
  }

  function MovesLeft(s: State, quiesce: string, restore: string): nat
    requires Crossed(s, quiesce, restore)
  {
    (if s.tasks[quiesce].Pinning? then 2 else if s.tasks[quiesce].Marking? then 1 else 0)
    + (if s.tasks[restore].HostRestoring? then 1 else 0)
  }

  /** The restore puts the host back, the quiesce changes it, the restore unmarks it. */
  lemma {:induction false} CrossedLoses(s: State, quiesce: string, restore: string) returns (events: seq<Event>)
    requires Crossed(s, quiesce, restore)
    ensures OnlyMoves(events) && !HostsMarked(Run(s, events))
    decreases MovesLeft(s, quiesce, restore)
  {
    var settle, unmark := Move(quiesce, Landed, true), Move(restore, Landed, true);
    if MovesLeft(s, quiesce, restore) == 0 {
      events := [settle] + [unmark];
      FollowOne(s, settle, [unmark]);
      FollowOne(Step(s, settle), unmark, []);
      assert [unmark] + [] == [unmark];
      assert NodeOf(s, restore) in Step(Step(s, settle), unmark).world.changed;
    } else {
      var next := if s.tasks[restore].HostRestoring? then unmark else settle;
      var rest := CrossedLoses(Step(s, next), quiesce, restore);
      FollowOne(s, next, rest);
      events := [next] + rest;
    }
  }

  /**
   Exactly when: after an event, the steps in progress keep every changed host marked
   however they go on, if and only if the event began no step beside its opposite.
   */
  lemma MarkedIffApart(s: State, ev: Event)
    requires Inv(s)
    ensures (forall events :: OnlyMoves(events) ==> HostsMarked(Run(Step(s, ev), events))) <==> Apart(s, ev)
  {
    var after := Step(s, ev);
    if Apart(s, ev) {
      StepKeeps(s, ev);
      forall events | OnlyMoves(events) ensures HostsMarked(Run(after, events)) {
        MovesAreApart(after, events);
        RunKeeps(after, events);
      }
    } else {
      var stage := if ev.BeginQuiesce? then Pinning else HostRestoring;
      var other :| other in s.tasks && other in s.world.rows && NodeOf(s, other) == NodeOf(s, ev.id)
                   && Opposed(stage, s.tasks[other]);
      var (quiesce, restore) := if ev.BeginQuiesce? then (ev.id, other) else (other, ev.id);
      var events := CrossedLoses(after, quiesce, restore);
    }
  }

  // ----- After a crash -----

  /**
   After a crash nothing is pinned and nothing in flight, so one pass in which nothing
   fails restores every node and leaves no incident past its quiesce step there.
   */
  lemma CrashRecovers(s: State, engine: Engine, after: World)
    requires Safe(s) && PassKeeps(Step(s, Restart).world, after, engine, NO_FAULTS, s.world.marked)
    ensures after.marked == {} && after.changed == {}
    ensures forall node :: node in s.world.marked ==> NonePast(after.rows, node, engine)
  {
    var w := Step(s, Restart).world;
    forall node | node in w.marked ensures Restorable(w, node, engine, NO_FAULTS) && !Held(w.pins, node) {
    }
    PassMeans(w, after, engine, NO_FAULTS);
  }

  function Sweep(nodes: seq<string>, engine: Engine): seq<Event> {
    if nodes == [] then [] else [Janitor(nodes[0], engine, NO_FAULTS)] + Sweep(nodes[1..], engine)
  }

  predicate AtRest(s: State) {
    s.world.pins == map[] && forall id :: id in s.world.rows ==> !s.world.rows[id].incident.inFlight
  }

  lemma JanitorRestoresAtRest(s: State, node: string, engine: Engine)
    requires AtRest(s) && Safe(s)
    ensures var after := Step(s, Janitor(node, engine, NO_FAULTS));
            AtRest(after) && Safe(after) && after.world.marked == s.world.marked - {node}
  {
    var w := s.world;
    LosesIff(s, Janitor(node, engine, NO_FAULTS));
    if node in w.marked {
      NodeSets(w, node, w.pins, engine, NO_FAULTS);
      NodeOutcome(w, node, w.pins, engine, NO_FAULTS);
      forall id | id in w.rows
        ensures !JanitorNode(w, node, w.pins, engine, NO_FAULTS).rows[id].incident.inFlight
      {
        NodeRows(w, node, w.pins, engine, NO_FAULTS, id);
        RewindRowMeans(engine, w.rows[id], node, id in NO_FAULTS.updates);
      }
    }
  }

  /** Such a pass also leaves no host change queued: none can surface behind the janitor. */
  lemma {:induction false} SweepDrains(s: State, nodes: seq<string>, engine: Engine)
    requires AtRest(s) && Safe(s) && forall node :: node in s.world.marked ==> node in nodes
    ensures var after := Run(s, Sweep(nodes, engine));
            after.world.marked == {} && after.world.changed == {} && after.owed == {}
    decreases |nodes|
  {
    if nodes != [] {
      var sweep := Janitor(nodes[0], engine, NO_FAULTS);
      JanitorRestoresAtRest(s, nodes[0], engine);
      FollowOne(s, sweep, Sweep(nodes[1..], engine));
      SweepDrains(Step(s, sweep), nodes[1..], engine);
    }
  }

  /** After a crash at any point of any run, whatever host changes were still queued. */
  lemma CrashDrains(s: State, nodes: seq<string>, engine: Engine)
    requires Safe(s) && forall node :: node in s.world.marked ==> node in nodes
    ensures var after := Run(s, [Restart] + Sweep(nodes, engine));
            after.world.marked == {} && after.world.changed == {} && after.owed == {}
  {
    FollowOne(s, Restart, Sweep(nodes, engine));
    SweepDrains(Step(s, Restart), nodes, engine);
  }

  // ----- A run that loses a marker -----

  const OPENING := [
    Register("a", Row("n", Incident("a", "ladder", 0, 0, Evaluating, false))),
    Register("b", Row("n", Incident("b", "ladder", 0, 0, Evaluating, false))),
    BeginRestore("a"), BeginQuiesce("b")]

  lemma RunFour(s: State, events: seq<Event>)
    requires |events| == 4
    ensures Run(s, events) == Step(Step(Step(Step(s, events[0]), events[1]), events[2]), events[3])
  {
    FollowOne(s, events[0], events[1..]);
    FollowOne(Step(s, events[0]), events[1], events[2..]);
    FollowOne(Step(Step(s, events[0]), events[1]), events[2], events[3..]);
    FollowOne(Step(Step(Step(s, events[0]), events[1]), events[2]), events[3], []);
    assert events == [events[0]] + events[1..] && events[1..] == [events[1]] + events[2..];
    assert events[2..] == [events[2]] + events[3..] && events[3..] == [events[3]] + [];
  }

  lemma {:induction false} RunConcat(s: State, first: seq<Event>, second: seq<Event>)
    ensures Run(s, first + second) == Run(Run(s, first), second)
    decreases |first|
  {
    if first == [] {
      assert first + second == second;
    } else {
      assert (first + second)[0] == first[0] && (first + second)[1..] == first[1..] + second;
      RunConcat(Step(s, first[0]), first[1..], second);
    }
  }

  /** From an empty world: one incident restores the node's stack while another quiesces it. */
  lemma OverlapLosesMarker()
    ensures exists moves :: OnlyMoves(moves) && !HostsMarked(Run(BLANK, OPENING + moves))
  {
    var begun := Run(BLANK, OPENING);
    RunFour(BLANK, OPENING);
    assert Crossed(begun, "b", "a");
    var moves := CrossedLoses(begun, "b", "a");
    RunConcat(BLANK, OPENING, moves);
  }
}
