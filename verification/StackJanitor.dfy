/**
 The accelerator stack of a node: stood down by a quiesce step, put back by a restore
 step, and put back by the janitor when nothing drives it any more.

 Durable are the platform's quiesce marker, the host state the agent changed, and the
 incident rows; the pins are memory of the process and die with it.
 */
module StackJanitor {
  import opened Escalation

  datatype Row = Row(node: string, incident: Incident)

  datatype World = World(marked: set<string>, changed: set<string>, pins: map<string, string>, rows: map<string, Row>)

  /** Which reads and writes of a pass fail; a write that fails may have landed all the same. */
  datatype Faults = Faults(
    unreadable: set<string>, unlisted: set<string>, updates: set<string>,
    host: set<string>, hostLands: set<string>, stack: set<string>, stackLands: set<string>)

  const NO_FAULTS := Faults({}, {}, {}, {}, {}, {}, {})

  // ----- Rewinding -----

  predicate Concerned(row: Row, node: string) {
    row.node == node &&
      (row.incident.state.Evaluating? || row.incident.state.Executing? || row.incident.state.AwaitingApproval?)
  }

  /** Still to run, and beyond the step that stood the stack down. */
  predicate PastQuiesce(engine: Engine, inc: Incident) {
    && (inc.state.Evaluating? || inc.state.Executing? || inc.state.AwaitingApproval?) && inc.playbook in engine
    && var index := QuiesceIndex(engine[inc.playbook].steps);
       index.Some? && index.value < inc.stepIndex
  }

  function RewindRow(engine: Engine, row: Row, node: string, fails: bool): Row {
    if row.node == node && Rewinds(engine, row.incident) && !fails then Row(node, Rewound(engine, row.incident))
    else row
  }

  predicate RowCommits(engine: Engine, row: Row, node: string, fails: bool) {
    Concerned(row, node) ==> !row.incident.inFlight && (Rewinds(engine, row.incident) ==> !fails)
  }

  /** Every rewind the node needs is committed; an incident in flight cannot be rewound. */
  predicate RewindCommits(rows: map<string, Row>, node: string, engine: Engine, faults: Faults) {
    node !in faults.unlisted && forall id :: id in rows ==> RowCommits(engine, rows[id], node, id in faults.updates)
  }

  function RewoundRows(rows: map<string, Row>, node: string, engine: Engine, faults: Faults): map<string, Row> {
    if node in faults.unlisted then rows
    else map id | id in rows :: RewindRow(engine, rows[id], node, id in faults.updates)
  }

  lemma RewindRowMeans(engine: Engine, row: Row, node: string, fails: bool)
    ensures var after := RewindRow(engine, row, node, fails);
            && after.node == row.node && after.incident.state == row.incident.state
            && after.incident.inFlight == row.incident.inFlight
            && (row.node == node && RowCommits(engine, row, node, fails) ==> !PastQuiesce(engine, after.incident))
            && (after != row ==> after.incident.attempt == row.incident.attempt + 1 && row.node == node)
  {
  }

  // ----- One node of a pass -----

  predicate Held(owners: map<string, string>, node: string) {
    exists id :: id in owners && owners[id] == node
  }

  /** Some owner of the quiesce is still running, or cannot be read. */
  predicate Driven(rows: map<string, Row>, owners: map<string, string>, node: string, faults: Faults) {
    exists id :: id in owners && owners[id] == node &&
      (id in faults.unreadable || (id in rows && Walking(rows[id].incident.state)))
  }

  function Without(pins: map<string, string>, owners: map<string, string>, node: string): map<string, string> {
    pins - set id | id in owners && owners[id] == node
  }

  /** What a pass does about one quiesced node. */
  function JanitorNode(w: World, node: string, owners: map<string, string>, engine: Engine, faults: Faults): World {
    var held := Held(owners, node);
    if Driven(w.rows, owners, node, faults) then w
    else
      var rows := if held then w.rows else RewoundRows(w.rows, node, engine, faults);
      if !held && !RewindCommits(w.rows, node, engine, faults) then w.(rows := rows)
      else if node in faults.host then
        w.(rows := rows, changed := if node in faults.hostLands then w.changed - {node} else w.changed)
      else if node in faults.stack then
        w.(rows := rows, changed := w.changed - {node},
           marked := if node in faults.stackLands then w.marked - {node} else w.marked)
      else
        World(w.marked - {node}, w.changed - {node}, if held then Without(w.pins, owners, node) else w.pins, rows)
  }

  class Janitor {
    var world: World

    constructor (w: World)
      ensures world == w
    {
      world := w;
    }

    /** Rewinds every incident the node needs rewound, one row at a time. */
    method RewindIncidents(node: string, engine: Engine, faults: Faults) returns (complete: bool)
      modifies this
      ensures world == old(world).(rows := RewoundRows(old(world.rows), node, engine, faults))
      ensures complete <==> RewindCommits(old(world.rows), node, engine, faults)
    {
      if node in faults.unlisted {
        return false;
      }
      ghost var rows := world.rows;
      complete := true;
      var rest := world.rows.Keys;
      while rest != {}
        invariant world == old(world).(rows := world.rows) && world.rows.Keys == rows.Keys && rest <= rows.Keys
        invariant forall id :: id in rest ==> world.rows[id] == rows[id]
        invariant forall id :: id in rows && id !in rest ==>
                    world.rows[id] == RewindRow(engine, rows[id], node, id in faults.updates)
        invariant complete <==>
                  forall id :: id in rows && id !in rest ==> RowCommits(engine, rows[id], node, id in faults.updates)
      {
        var id :| id in rest;
        var row := world.rows[id];
        rest := rest - {id};
        if Concerned(row, node) {
          if row.incident.inFlight {
            complete := false;
          } else if row.incident.playbook in engine {
            var index := QuiesceIndex(engine[row.incident.playbook].steps);
            if index.Some? && row.incident.stepIndex > index.value {
              if id in faults.updates {
                complete := false;
              } else {
                var inc := row.incident.(stepIndex := index.value, attempt := row.incident.attempt + 1);
                world := world.(rows := world.rows[id := Row(node, inc)]);
              }
            }
          }
        }
      }
      assert world.rows == RewoundRows(rows, node, engine, faults);
    }

    /** Looks at the pinned owners until one is running or unreadable. */
    method InspectOwners(node: string, owners: map<string, string>, faults: Faults) returns (held: bool, owned: bool)
      ensures held <==> Held(owners, node)
      ensures owned <==> Driven(world.rows, owners, node, faults)
    {
      held := false;
      var rest := owners.Keys;
      while rest != {}
        invariant rest <= owners.Keys
        invariant held <==> exists id :: id in owners && id !in rest && owners[id] == node
        invariant forall id :: id in owners && id !in rest && owners[id] == node ==>
                    id !in faults.unreadable && !(id in world.rows && Walking(world.rows[id].incident.state))
      {
        var id :| id in rest;
        rest := rest - {id};
        if owners[id] == node {
          held := true;
          if id in faults.unreadable || (id in world.rows && Walking(world.rows[id].incident.state)) {
            return true, true;
          }
        }
      }
      owned := false;
    }

    method RestoreNode(node: string, owners: map<string, string>, engine: Engine, faults: Faults)
      modifies this
      ensures world == JanitorNode(old(world), node, owners, engine, faults)
    {
      var held, owned := InspectOwners(node, owners, faults);
      if owned {
        return;
      }
      if !held {
        var complete := RewindIncidents(node, engine, faults);
        if !complete {
          return;
        }
      }
      if node in faults.host {
        if node in faults.hostLands {
          world := world.(changed := world.changed - {node});
        }
        return;
      }
      world := world.(changed := world.changed - {node});
      if node in faults.stack {
        if node in faults.stackLands {
          world := world.(marked := world.marked - {node});
        }
        return;
      }
      world := world.(marked := world.marked - {node});
      if held {
        world := world.(pins := Without(world.pins, owners, node));
      }
    }

    /** One pass over the marked nodes, with the owners read once. */
    method Pass(engine: Engine, faults: Faults)
      modifies this
      ensures PassKeeps(old(world), world, engine, faults, old(world.marked))
      ensures old(world.changed) <= old(world.marked) ==> world.changed <= world.marked
      ensures faults == NO_FAULTS ==>
                forall node :: node in old(world.marked) && Restorable(old(world), node, engine, faults) ==>
                  node !in world.marked && node !in world.changed &&
                  (!Held(old(world.pins), node) ==> NonePast(world.rows, node, engine))
    {
      var owners, rest := world.pins, world.marked;
      PassStart(world, engine, faults);
      while rest != {}
        invariant rest <= old(world.marked)
        invariant PassKeeps(old(world), world, engine, faults, old(world.marked) - rest)
      {
        var node :| node in rest;
        ghost var before := world;
        RestoreNode(node, owners, engine, faults);
        PassStep(old(world), before, engine, faults, old(world.marked) - rest, node);
        rest := rest - {node};
        assert old(world.marked) - rest == old(world.marked) - (rest + {node}) + {node};
      }
      assert old(world.marked) - rest == old(world.marked);
      PassMeans(old(world), world, engine, faults);
    }
  }

  // ----- What a pass does -----

  /** A node the pass may restore: nothing drives it, and its rows, when unpinned, can all be rewound. */
  predicate Restorable(w: World, node: string, engine: Engine, faults: Faults) {
    !Driven(w.rows, w.pins, node, faults) && (!Held(w.pins, node) ==> RewindCommits(w.rows, node, engine, faults))
  }

  /** No incident of the node that is still to run stands past its quiesce step. */
  predicate NonePast(rows: map<string, Row>, node: string, engine: Engine) {
    forall id :: id in rows && rows[id].node == node ==> !PastQuiesce(engine, rows[id].incident)
  }

  /** One node after the pass has dealt with it. */
  predicate NodeKeeps(w: World, after: World, node: string, engine: Engine, faults: Faults) {
    && (node in after.changed ==> node in w.changed)
    && (node !in after.marked ==>
          node !in after.changed && Restorable(w, node, engine, faults) &&
          (!Held(w.pins, node) ==> NonePast(after.rows, node, engine)))
    && (Restorable(w, node, engine, faults) && node !in faults.host && node !in faults.stack ==>
          node !in after.marked && node !in after.changed)
  }

  predicate RowKeeps(w: World, after: World, id: string, engine: Engine, faults: Faults, handled: set<string>) {
    && id in w.rows && id in after.rows
    && (after.rows[id] == w.rows[id] ||
        (w.rows[id].node in handled && !Held(w.pins, w.rows[id].node)
         && after.rows[id] == RewindRow(engine, w.rows[id], w.rows[id].node, id in faults.updates)))
  }

  /** After the handled nodes: the others are as they were, and rows changed only by rewinds of unpinned nodes. */
  predicate PassKeeps(w: World, after: World, engine: Engine, faults: Faults, handled: set<string>) {
    && after.marked <= w.marked && after.changed <= w.changed && after.rows.Keys == w.rows.Keys
    && (forall node :: node in w.marked && node !in handled ==> node in after.marked)
    && (forall node :: node in w.changed && node !in handled ==> node in after.changed)
    && (forall node :: node in handled ==> NodeKeeps(w, after, node, engine, faults))
    && (forall id :: id in w.rows ==> RowKeeps(w, after, id, engine, faults, handled))
  }

  lemma PassStart(w: World, engine: Engine, faults: Faults)
    ensures PassKeeps(w, w, engine, faults, w.marked - w.marked)
  {
  }

  /** Rewinding one node leaves the standing of every other node as it was. */
  lemma SameStanding(w: World, at: World, node: string, engine: Engine, faults: Faults, handled: set<string>)
    requires node !in handled && at.rows.Keys == w.rows.Keys
    requires forall id :: id in w.rows ==> RowKeeps(w, at, id, engine, faults, handled)
    ensures Driven(at.rows, w.pins, node, faults) == Driven(w.rows, w.pins, node, faults)
    ensures RewindCommits(at.rows, node, engine, faults) == RewindCommits(w.rows, node, engine, faults)
    ensures forall id :: id in w.rows && w.rows[id].node == node ==> at.rows[id] == w.rows[id]
  {
    forall id | id in w.rows
      ensures at.rows[id].incident.state == w.rows[id].incident.state && at.rows[id].node == w.rows[id].node
      ensures w.rows[id].node == node ==> at.rows[id] == w.rows[id]
    {
      assert RowKeeps(w, at, id, engine, faults, handled);
      RewindRowMeans(engine, w.rows[id], w.rows[id].node, id in faults.updates);
    }
    forall id | id in w.rows
      ensures RowCommits(engine, at.rows[id], node, id in faults.updates) ==
              RowCommits(engine, w.rows[id], node, id in faults.updates)
    {
    }
  }

  /** The rows after one node: as they were, or rewound for that node when it is unpinned. */
  lemma NodeRows(w: World, node: string, owners: map<string, string>, engine: Engine, faults: Faults, id: string)
    requires id in w.rows
    ensures var after := JanitorNode(w, node, owners, engine, faults);
            && id in after.rows
            && (after.rows[id] == w.rows[id] ||
                (!Held(owners, node) && w.rows[id].node == node &&
                 after.rows[id] == RewindRow(engine, w.rows[id], node, id in faults.updates)))
  {
  }

  lemma NodeSets(w: World, node: string, owners: map<string, string>, engine: Engine, faults: Faults)
    ensures var after := JanitorNode(w, node, owners, engine, faults);
            && after.rows.Keys == w.rows.Keys
            && after.marked <= w.marked && after.changed <= w.changed
            && (forall m :: m in w.marked && m != node ==> m in after.marked)
            && (forall m :: m in w.changed && m != node ==> m in after.changed)
  {
  }

  lemma NodeOutcome(w: World, node: string, owners: map<string, string>, engine: Engine, faults: Faults)
    requires node in w.marked
    ensures var after := JanitorNode(w, node, owners, engine, faults);
            var commits := RewindCommits(w.rows, node, engine, faults);
            var restorable := !Driven(w.rows, owners, node, faults) && (!Held(owners, node) ==> commits);
            && (node !in after.marked ==>
                  node !in after.changed && restorable &&
                  (!Held(owners, node) ==> after.rows == RewoundRows(w.rows, node, engine, faults)))
            && (restorable && node !in faults.host && node !in faults.stack ==>
                  node !in after.marked && node !in after.changed)
  {
  }

  lemma CommittedNonePast(rows: map<string, Row>, node: string, engine: Engine, faults: Faults)
    requires RewindCommits(rows, node, engine, faults)
    ensures NonePast(RewoundRows(rows, node, engine, faults), node, engine)
  {
    forall id | id in rows
      ensures rows[id].node == node ==> !PastQuiesce(engine, RewoundRows(rows, node, engine, faults)[id].incident)
    {
      RewindRowMeans(engine, rows[id], node, id in faults.updates);
    }
    forall id | id in RewoundRows(rows, node, engine, faults)
      ensures RewoundRows(rows, node, engine, faults)[id].node == rows[id].node
    {
      RewindRowMeans(engine, rows[id], node, id in faults.updates);
    }
  }

  lemma StepKeepsRow(w: World, at: World, engine: Engine, faults: Faults, handled: set<string>, node: string,
                     id: string)
    requires PassKeeps(w, at, engine, faults, handled) && node !in handled && id in w.rows
    ensures RowKeeps(w, JanitorNode(at, node, w.pins, engine, faults), id, engine, faults, handled + {node})
  {
    assert RowKeeps(w, at, id, engine, faults, handled);
    RewindRowMeans(engine, w.rows[id], w.rows[id].node, id in faults.updates);
    NodeRows(at, node, w.pins, engine, faults, id);
  }

  lemma StepKeepsNode(w: World, at: World, engine: Engine, faults: Faults, handled: set<string>, node: string,
                      other: string)
    requires PassKeeps(w, at, engine, faults, handled) && node !in handled && other in handled
    ensures NodeKeeps(w, JanitorNode(at, node, w.pins, engine, faults), other, engine, faults)
  {
    var after := JanitorNode(at, node, w.pins, engine, faults);
    assert NodeKeeps(w, at, other, engine, faults);
    NodeSets(at, node, w.pins, engine, faults);
    if other !in after.marked && !Held(w.pins, other) {
      forall id | id in after.rows && after.rows[id].node == other
        ensures !PastQuiesce(engine, after.rows[id].incident)
      {
        NodeRows(at, node, w.pins, engine, faults, id);
        RewindRowMeans(engine, at.rows[id], node, id in faults.updates);
        assert after.rows[id] == at.rows[id];
      }
    }
  }

  lemma StepDoesNode(w: World, at: World, engine: Engine, faults: Faults, handled: set<string>, node: string)
    requires PassKeeps(w, at, engine, faults, handled) && node !in handled && node in w.marked
    ensures NodeKeeps(w, JanitorNode(at, node, w.pins, engine, faults), node, engine, faults)
  {
    SameStanding(w, at, node, engine, faults, handled);
    NodeSets(at, node, w.pins, engine, faults);
    NodeOutcome(at, node, w.pins, engine, faults);
    if RewindCommits(at.rows, node, engine, faults) {
      CommittedNonePast(at.rows, node, engine, faults);
    }
  }

  lemma PassStep(w: World, at: World, engine: Engine, faults: Faults, handled: set<string>, node: string)
    requires PassKeeps(w, at, engine, faults, handled) && node !in handled && node in w.marked
    ensures PassKeeps(w, JanitorNode(at, node, w.pins, engine, faults), engine, faults, handled + {node})
  {
    var after := JanitorNode(at, node, w.pins, engine, faults);
    NodeSets(at, node, w.pins, engine, faults);
    forall m | m in handled + {node} ensures NodeKeeps(w, after, m, engine, faults) {
      if m == node {
        StepDoesNode(w, at, engine, faults, handled, node);
      } else {
        StepKeepsNode(w, at, engine, faults, handled, node, m);
      }
    }
    forall id | id in w.rows ensures RowKeeps(w, after, id, engine, faults, handled + {node}) {
      StepKeepsRow(w, at, engine, faults, handled, node, id);
    }
  }

  /**
   Whatever fails during a pass, a changed host keeps its marker; and a pass in which
   nothing fails restores every marked node that nothing drives.
   */
  lemma PassMeans(w: World, after: World, engine: Engine, faults: Faults)
    requires PassKeeps(w, after, engine, faults, w.marked)
    ensures w.changed <= w.marked ==> after.changed <= after.marked
    ensures faults == NO_FAULTS ==>
              forall node :: node in w.marked && Restorable(w, node, engine, faults) ==>
                node !in after.marked && node !in after.changed &&
                (!Held(w.pins, node) ==> NonePast(after.rows, node, engine))
  {
    forall node | node in w.marked ensures NodeKeeps(w, after, node, engine, faults) {
    }
  }
}
