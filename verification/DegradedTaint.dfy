/**
 The degraded-node mark: placed while an incident is worked, and converged by a janitor
 onto what the store says. Every read of the store may see other incidents than the one
 before it, or fail; every write may fail, having landed or not.
 */
module DegradedTaint {
  import opened Escalation

  datatype Worked = Worked(id: string, node: string, dryRun: bool, state: State)

  datatype Read = Read(ok: bool, incidents: seq<Worked>)

  /** An active incident of this node that was not opened dry-run. */
  predicate Live(inc: Worked, node: string) { inc.node == node && Walking(inc.state) && !inc.dryRun }

  predicate UnderIncident(incidents: seq<Worked>, node: string) {
    exists i :: 0 <= i < |incidents| && Live(incidents[i], node)
  }

  /** What the store answers, read by read. */
  class Store {
    const script: nat -> Read
    var turn: nat

    constructor (s: nat -> Read)
      ensures script == s && turn == 0
    {
      script, turn := s, 0;
    }

    method List() returns (r: Read)
      modifies this
      ensures turn == old(turn) + 1 && r == script(old(turn))
    {
      r, turn := script(turn), turn + 1;
    }
  }

  /** Some read since the given turn succeeded and saw no live incident on the node. */
  ghost predicate SeenClear(script: nat -> Read, from: nat, to: nat, node: string) {
    exists k :: from <= k < to && script(k).ok && !UnderIncident(script(k).incidents, node)
  }

  ghost predicate SeenLive(script: nat -> Read, from: nat, to: nat, node: string) {
    exists k :: from <= k < to && script(k).ok && UnderIncident(script(k).incidents, node)
  }

  /** Which writes fail, and which of those land all the same. */
  datatype Writes = Writes(fail: set<string>, lands: set<string>)

  predicate Takes(w: Writes, node: string) { node !in w.fail || node in w.lands }

  class Marks {
    var marked: set<string>

    constructor (m: set<string>)
      ensures marked == m
    {
      marked := m;
    }

    method Remove(node: string, w: Writes)
      modifies this
      ensures marked == if Takes(w, node) then old(marked) - {node} else old(marked)
    {
      if node !in w.fail || node in w.lands {
        marked := marked - {node};
      }
    }

    method Apply(node: string, w: Writes)
      modifies this
      ensures marked == if Takes(w, node) then old(marked) + {node} else old(marked)
    {
      if node !in w.fail || node in w.lands {
        marked := marked + {node};
      }
    }
  }

  // ----- Reading the store -----

  /** Each node with a live incident, and one of them. */
  method NodesUnderOpenIncidents(incidents: seq<Worked>) returns (open: map<string, Worked>)
    ensures forall node :: node in open <==> node != "" && UnderIncident(incidents, node)
    ensures forall node :: node in open ==> open[node] in incidents && Live(open[node], node)
  {
    open := map[];
    for i := 0 to |incidents|
      invariant forall node :: node in open <==> node != "" && UnderIncident(incidents[..i], node)
      invariant forall node :: node in open ==> open[node] in incidents && Live(open[node], node)
    {
      var inc := incidents[i];
      UnderGrows(incidents, i);
      if Walking(inc.state) && inc.node != "" && !inc.dryRun {
        if inc.node !in open {
          open := open[inc.node := inc];
        }
      }
    }
    assert incidents[..|incidents|] == incidents;
  }

  lemma UnderGrows(incidents: seq<Worked>, i: nat)
    requires i < |incidents|
    ensures forall node :: UnderIncident(incidents[..i + 1], node) <==>
                           UnderIncident(incidents[..i], node) || Live(incidents[i], node)
  {
    forall node
      ensures UnderIncident(incidents[..i + 1], node) <==>
              UnderIncident(incidents[..i], node) || Live(incidents[i], node)
    {
      if UnderIncident(incidents[..i], node) {
        var k :| 0 <= k < i && Live(incidents[..i][k], node);
        assert Live(incidents[..i + 1][k], node);
      }
      if Live(incidents[i], node) {
        assert Live(incidents[..i + 1][i], node);
      }
      if UnderIncident(incidents[..i + 1], node) && !Live(incidents[i], node) {
        var k :| 0 <= k < i + 1 && Live(incidents[..i + 1][k], node);
        assert Live(incidents[..i][k], node);
      }
    }
  }

  method NodeHasOpenIncident(incidents: seq<Worked>, node: string) returns (found: bool)
    ensures found <==> UnderIncident(incidents, node)
  {
    for i := 0 to |incidents|
      invariant forall k :: 0 <= k < i ==> !Live(incidents[k], node)
    {
      if Walking(incidents[i].state) && incidents[i].node == node && !incidents[i].dryRun {
        return true;
      }
    }
    found := false;
  }

  // ----- The janitor -----

  /** What a pass may do to one node, given everything it read. */
  ghost predicate NodeJustified(node: string, was: bool, now: bool, dryRun: bool, script: nat -> Read, from: nat,
                                to: nat) {
    && (was && !now ==> SeenClear(script, from, to, node))
    && (!was && now ==> !dryRun && SeenLive(script, from, to, node))
  }

  ghost predicate Justified(before: set<string>, after: set<string>, dryRun: bool, script: nat -> Read, from: nat,
                            to: nat) {
    forall node :: NodeJustified(node, node in before, node in after, dryRun, script, from, to)
  }

  /** Every read of the pass succeeds and sees the same incidents, and every write succeeds. */
  ghost predicate Quiet(script: nat -> Read, from: nat, incidents: seq<Worked>, w: Writes) {
    w.fail == {} && forall k :: k >= from ==> script(k) == Read(true, incidents)
  }

  class Janitor {
    const store: Store
    const marks: Marks

    constructor (s: Store, m: Marks)
      ensures store == s && marks == m
    {
      store, marks := s, m;
    }

    /** Switched off, the feature takes its marks with it. */
    method RemoveAll(w: Writes)
      modifies marks
      ensures marks.marked == set node | node in old(marks.marked) && !Takes(w, node)
    {
      var rest := marks.marked;
      while rest != {}
        invariant rest <= old(marks.marked)
        invariant forall node :: node in marks.marked <==>
                    node in old(marks.marked) && (node in rest || !Takes(w, node))
      {
        var node :| node in rest;
        marks.Remove(node, w);
        rest := rest - {node};
      }
    }

    /** Marks without an open incident come off, each only after a read of its own. */
    method Unmark(open: map<string, Worked>, w: Writes)
      modifies marks, store
      ensures store.turn >= old(store.turn)
      ensures marks.marked <= old(marks.marked)
      ensures forall node :: node in old(marks.marked) && node !in marks.marked ==>
                node !in open && SeenClear(store.script, old(store.turn), store.turn, node)
      ensures forall incidents :: Quiet(store.script, old(store.turn), incidents, w) ==>
                forall node :: node in marks.marked <==>
                  node in old(marks.marked) && (node in open || UnderIncident(incidents, node))
    {
      var rest := marks.marked;
      while rest != {}
        invariant rest <= old(marks.marked) && store.turn >= old(store.turn) && marks.marked <= old(marks.marked)
        invariant rest <= marks.marked
        invariant forall node :: node in old(marks.marked) && node !in marks.marked ==>
                    node !in open && SeenClear(store.script, old(store.turn), store.turn, node)
        invariant forall incidents :: Quiet(store.script, old(store.turn), incidents, w) ==>
                    forall node :: node in marks.marked && node !in rest ==>
                      node in open || UnderIncident(incidents, node)
      {
        var node :| node in rest;
        rest := rest - {node};
        if node in open {
          continue;
        }
        ghost var k := store.turn;
        var r := store.List();
        if !r.ok {
          continue;
        }
        var found := NodeHasOpenIncident(r.incidents, node);
        if found {
          continue;
        }
        assert store.script(k).ok && !UnderIncident(store.script(k).incidents, node);
        marks.Remove(node, w);
      }
    }

    /** Open nodes that were not listed as marked get one, unless the installation is in dry-run. */
    method Mark(open: map<string, Worked>, listed: set<string>, dryRun: bool, w: Writes)
      modifies marks
      ensures old(marks.marked) <= marks.marked
      ensures forall node :: node in marks.marked && node !in old(marks.marked) ==>
                node in open && !dryRun && node !in listed
      ensures w.fail == {} && !dryRun ==> forall node :: node in open && node !in listed ==> node in marks.marked
    {
      var rest := open.Keys;
      while rest != {}
        invariant rest <= open.Keys && old(marks.marked) <= marks.marked
        invariant forall node :: node in marks.marked && node !in old(marks.marked) ==>
                    node in open && !dryRun && node !in listed
        invariant w.fail == {} && !dryRun ==>
                    forall node :: node in open && node !in listed && node !in rest ==> node in marks.marked
      {
        var node :| node in rest;
        rest := rest - {node};
        if node in listed || dryRun {
          continue;
        }
        marks.Apply(node, w);
      }
    }

    /**
     One pass. While the feature is on, a mark comes off only after a read that saw no
     live incident on its node, whatever opened between the reads, and goes on only for
     a live incident outside dry-run. In quiet surroundings the marks afterwards are
     exactly the nodes under live incidents, or those of them already marked.
     */
    method Reconcile(enabled: bool, listable: bool, dryRun: bool, w: Writes)
      requires "" !in marks.marked
      modifies marks, store
      ensures enabled ==> Justified(old(marks.marked), marks.marked, dryRun, store.script, old(store.turn), store.turn)
      ensures !listable ==> marks.marked == old(marks.marked)
      ensures !enabled && listable ==> marks.marked == set node | node in old(marks.marked) && !Takes(w, node)
      ensures forall incidents :: enabled && listable && Quiet(store.script, old(store.turn), incidents, w) ==>
                forall node :: node in marks.marked <==> QuietMark(old(marks.marked), incidents, dryRun, node)
      ensures "" !in marks.marked && store.turn >= old(store.turn)
    {
      if !listable {
        return;
      }
      var listed := marks.marked;
      if !enabled {
        RemoveAll(w);
        return;
      }
      ghost var first := store.turn;
      var r := store.List();
      if !r.ok {
        return;
      }
      var open := NodesUnderOpenIncidents(r.incidents);
      assert store.script(first) == r;
      Unmark(open, w);
      ghost var kept, last := marks.marked, store.turn;
      Mark(open, listed, dryRun, w);
      forall node ensures NodeJustified(node, node in listed, node in marks.marked, dryRun, store.script, first,
                                        store.turn) {
        PassJustifies(node, listed, kept, marks.marked, open, r.incidents, dryRun, store.script, first, last);
      }
      forall incidents | Quiet(store.script, first, incidents, w)
        ensures forall node :: node in marks.marked <==> QuietMark(listed, incidents, dryRun, node)
      {
        assert r.incidents == incidents && Quiet(store.script, first + 1, incidents, w);
        assert forall node :: node in kept <==> node in listed && (node in open || UnderIncident(incidents, node));
      }
    }

    /** Two passes in quiet surroundings: the second leaves the marks as the first did, in either mode. */
    method ReconcileTwice(dryRun: bool, w: Writes, ghost incidents: seq<Worked>) returns (once: set<string>)
      requires "" !in marks.marked && Quiet(store.script, store.turn, incidents, w)
      modifies marks, store
      ensures marks.marked == once
      ensures forall node :: node in once <==> QuietMark(old(marks.marked), incidents, dryRun, node)
    {
      ghost var before := marks.marked;
      Reconcile(true, true, dryRun, w);
      once := marks.marked;
      Reconcile(true, true, dryRun, w);
      QuietMarksStay(before, once, marks.marked, incidents, dryRun);
    }

    /**
     The fast path after a transition. Outside dry-run, a halted incident takes the mark
     of its node with it unless another live incident was read there; the first work on
     an incident, or its return from a halt, places one.
     */
    method Sync(inc: Worked, from: State, enabled: bool, dryRun: bool, w: Writes)
      modifies marks, store
      ensures var r := store.script(old(store.turn));
              marks.marked ==
                if inc.node == "" || !enabled || dryRun || inc.dryRun || !Takes(w, inc.node) then old(marks.marked)
                else if !Walking(inc.state) then
                  (if r.ok && !OtherLive(r.incidents, inc) then old(marks.marked) - {inc.node} else old(marks.marked))
                else if from.Open? || !Walking(from) then old(marks.marked) + {inc.node}
                else old(marks.marked)
    {
      if inc.node == "" || !enabled || dryRun || inc.dryRun {
        return;
      }
      if !Walking(inc.state) {
        var r := store.List();
        if !r.ok {
          return;
        }
        var others := OthersOnNode(r.incidents, inc);
        if others {
          return;
        }
        marks.Remove(inc.node, w);
      } else if from.Open? || !Walking(from) {
        marks.Apply(inc.node, w);
      }
    }
  }

  predicate OtherLive(incidents: seq<Worked>, inc: Worked) {
    exists i :: 0 <= i < |incidents| && Live(incidents[i], inc.node) && incidents[i].id != inc.id
  }

  method OthersOnNode(incidents: seq<Worked>, inc: Worked) returns (found: bool)
    ensures found <==> OtherLive(incidents, inc)
  {
    for i := 0 to |incidents|
      invariant forall k :: 0 <= k < i ==> !(Live(incidents[k], inc.node) && incidents[k].id != inc.id)
    {
      if Walking(incidents[i].state) && incidents[i].node == inc.node && incidents[i].id != inc.id &&
         !incidents[i].dryRun {
        return true;
      }
    }
    found := false;
  }

  lemma PassJustifies(node: string, listed: set<string>, kept: set<string>, after: set<string>,
                      open: map<string, Worked>,
                      incidents: seq<Worked>, dryRun: bool, script: nat -> Read, first: nat, last: nat)
    requires script(first) == Read(true, incidents) && first < last
    requires node in open ==> UnderIncident(incidents, node)
    requires kept <= listed && kept <= after
    requires node in listed && node !in kept ==> SeenClear(script, first + 1, last, node)
    requires node in after && node !in kept ==> node in open && !dryRun
    ensures NodeJustified(node, node in listed, node in after, dryRun, script, first, last)
  {
    if node in listed && node !in after {
      var k :| first + 1 <= k < last && script(k).ok && !UnderIncident(script(k).incidents, node);
      assert SeenClear(script, first, last, node);
    }
    if node !in listed && node in after {
      assert SeenLive(script, first, last, node);
    }
  }

  // ----- Convergence -----

  /** The marks one quiet pass leaves: in dry-run only those already there. */
  predicate QuietMark(marked: set<string>, incidents: seq<Worked>, dryRun: bool, node: string) {
    UnderIncident(incidents, node) && (node in marked || (!dryRun && node != ""))
  }

  lemma QuietMarksStay(marked: set<string>, once: set<string>, twice: set<string>, incidents: seq<Worked>,
                       dryRun: bool)
    requires forall node :: node in once <==> QuietMark(marked, incidents, dryRun, node)
    requires forall node :: node in twice <==> QuietMark(once, incidents, dryRun, node)
    ensures twice == once
  {
    forall node ensures node in twice <==> node in once {
    }
  }
}
