/**
 Admission and execution of steps while the configuration reloads under them. Every
 pass over an incident pins one snapshot and one simulate-or-execute decision; a
 reload can happen between any two of its moves, and passes interleave freely.
 */
module Admission {
  import opened Common
  import opened Selectors

  /** The part of one configuration generation these decisions read; no limits means dry-run. */
  datatype Snapshot = Snapshot(dryRun: Option<bool>, selector: Labels)

  predicate Simulated(s: Snapshot) { s.dryRun.None? || s.dryRun.value }

  /** What the action registry knows of a step's action. */
  datatype Def = Def(destructive: bool, compensating: bool)

  /** One step of one incident; an action the registry does not know has no definition. */
  datatype Task = Task(incident: string, node: string, openedDryRun: bool, def: Option<Def>)

  datatype Pass =
    | Pinned(task: Task, generation: nat, simulate: bool)
    | Admitted(task: Task, generation: nat, simulate: bool)
    | Ended

  datatype Effect = Effect(pass: nat, task: Task)

  /** The generations installed so far, the last one current; a generation is never rewritten. */
  datatype World = World(
    generations: seq<Snapshot>, passes: map<nat, Pass>, pins: map<string, string>, markers: set<string>,
    effects: seq<Effect>)

  predicate Start(w: World) {
    |w.generations| == 1 && w.passes == map[] && w.effects == []
  }

  function Current(w: World): Snapshot
    requires w.generations != []
  {
    w.generations[|w.generations| - 1]
  }

  // ----- Confinement -----

  datatype Confinement = Allowed | OutOfScope | Unresolved

  /** Labels are absent when the platform could not resolve the node. */
  function Confine(simulate: bool, task: Task, selector: Labels, labels: Option<Labels>): Confinement {
    if simulate || task.def.None? || !task.def.value.destructive || selector == map[] then Allowed
    else if labels.None? then Unresolved
    else if Matches(selector, labels.value) then Allowed
    else OutOfScope
  }

  // ----- Moves -----

  /**
   Reload installs a snapshot; Begin pins one for a pass; Admit is the admission of
   its step; Abandon any other gate saying no; Execute the last check and dispatch.
   The pins and markers of quiesced nodes come and go on their own.
   */
  datatype Event =
    | Reload(snapshot: Snapshot)
    | Begin(pass: nat, task: Task)
    | Admit(pass: nat, labels: Option<Labels>)
    | Abandon(pass: nat)
    | Execute(pass: nat, readable: bool)
    | Pin(incident: string, node: string)
    | Unpin(incident: string)
    | Mark(node: string)
    | Unmark(node: string)

  function DecideDryRun(task: Task, snapshot: Snapshot): bool { task.openedDryRun || Simulated(snapshot) }

  /** The incident owns a pin for its node and the platform still shows the node quiesced. */
  predicate RecordedQuiesce(w: World, task: Task, readable: bool) {
    && task.incident in w.pins && w.pins[task.incident] == task.node
    && readable && task.node in w.markers
  }

  /** The last check before the side effect. */
  predicate Dispatches(w: World, pass: Pass, readable: bool)
    requires w.generations != []
  {
    && pass.Admitted? && pass.task.def.Some?
    && ((!pass.simulate && !Simulated(Current(w)))
        || (pass.task.def.value.compensating && RecordedQuiesce(w, pass.task, readable)))
  }

  function Step(w: World, ev: Event): World
    requires w.generations != []
  {
    match ev
    case Reload(s) =>
      // a reload that names no limits keeps the current ones
      w.(generations := w.generations + [if s.dryRun.None? then s.(dryRun := Current(w).dryRun) else s])
    case Begin(p, task) =>
      if p in w.passes then w
      else w.(passes := w.passes[p := Pinned(task, |w.generations| - 1, DecideDryRun(task, Current(w)))])
    case Admit(p, labels) =>
      if p !in w.passes || !w.passes[p].Pinned? then w
      else
        var pass := w.passes[p];
        if pass.generation != |w.generations| - 1 then w.(passes := w.passes[p := Ended])
        else if Confine(pass.simulate, pass.task, Current(w).selector, labels).Allowed?
        then w.(passes := w.passes[p := Admitted(pass.task, pass.generation, pass.simulate)])
        else w.(passes := w.passes[p := Ended])
    case Abandon(p) => if p in w.passes then w.(passes := w.passes[p := Ended]) else w
    case Execute(p, readable) =>
      if p !in w.passes || !w.passes[p].Admitted? then w
      else
        w.(passes := w.passes[p := Ended],
           effects := if Dispatches(w, w.passes[p], readable) then w.effects + [Effect(p, w.passes[p].task)]
                      else w.effects)
    case Pin(id, node) => w.(pins := w.pins[id := node])
    case Unpin(id) => w.(pins := w.pins - {id})
    case Mark(node) => w.(markers := w.markers + {node})
    case Unmark(node) => w.(markers := w.markers - {node})
  }

  function Run(w: World, events: seq<Event>): (r: World)
    requires w.generations != []
    ensures r.generations != []
  {
    if events == [] then w else Step(Run(w, events[..|events| - 1]), events[|events| - 1])
  }

  // ----- The controller's own moves -----

  class StepRunner {
    var world: World

    constructor (initial: Snapshot)
      ensures Start(world) && Current(world) == initial
    {
      world := World([initial], map[], map[], {}, []);
    }

    method InstallRuntimeConfig(snapshot: Snapshot)
      requires world.generations != []
      modifies this
      ensures world == Step(old(world), Reload(snapshot))
    {
      var installed := snapshot;
      if installed.dryRun.None? {
        installed := installed.(dryRun := Current(world).dryRun);
      }
      world := world.(generations := world.generations + [installed]);
    }

    /** Admission of a pinned pass; true when its step may run. */
    method StartStep(p: nat, labels: Option<Labels>) returns (started: bool)
      requires world.generations != [] && p in world.passes && world.passes[p].Pinned?
      modifies this
      ensures world == Step(old(world), Admit(p, labels))
      ensures started <==> world.passes[p].Admitted?
    {
      var pass := world.passes[p];
      started := false;
      if pass.generation == |world.generations| - 1 {
        var confinement := Allowed;
        var selector := Current(world).selector;
        if !pass.simulate && pass.task.def.Some? && pass.task.def.value.destructive && |selector| > 0 {
          if labels.None? {
            confinement := Unresolved;
          } else {
            var ok := LabelsMatchSelector(selector, labels.value);
            confinement := if ok then Allowed else OutOfScope;
          }
        }
        started := confinement.Allowed?;
      }
      if started {
        world := world.(passes := world.passes[p := Admitted(pass.task, pass.generation, pass.simulate)]);
      } else {
        world := world.(passes := world.passes[p := Ended]);
      }
    }

    /** The last check and the dispatch; live tells whether anything was touched. */
    method ExecuteStep(p: nat, readable: bool) returns (live: bool)
      requires world.generations != [] && p in world.passes && world.passes[p].Admitted?
      modifies this
      ensures world == Step(old(world), Execute(p, readable))
      ensures live <==> world.effects != old(world.effects)
    {
      var pass := world.passes[p];
      live := false;
      if pass.task.def.Some? {
        live := true;
        if pass.simulate || Simulated(Current(world)) {
          var compensates := pass.task.def.value.compensating;
          if !compensates || !RecordedQuiesce(world, pass.task, readable) {
            live := false;
          }
        }
      }
      world := world.(passes := world.passes[p := Ended]);
      if live {
        world := world.(effects := world.effects + [Effect(p, pass.task)]);
      }
    }
  }

  // ----- What every run keeps -----

  /** A pass under way pinned an installed generation and decided by it. */
  ghost predicate PassOk(generations: seq<Snapshot>, pass: Pass) {
    pass.Ended? ||
    (pass.generation < |generations| && pass.simulate == DecideDryRun(pass.task, generations[pass.generation]))
  }

  ghost predicate PassesOk(w: World) {
    forall p :: p in w.passes ==> PassOk(w.generations, w.passes[p])
  }

  lemma StepKeepsPasses(w: World, ev: Event)
    requires w.generations != [] && PassesOk(w)
    ensures PassesOk(Step(w, ev)) && w.generations <= Step(w, ev).generations
  {
    var after := Step(w, ev);
    forall p | p in after.passes ensures PassOk(after.generations, after.passes[p]) {
      if p in w.passes {
        assert PassOk(w.generations, w.passes[p]);
      }
    }
  }

  lemma {:induction false} RunKeepsPasses(w: World, events: seq<Event>)
    requires Start(w)
    ensures PassesOk(Run(w, events))
  {
    if events != [] {
      RunKeepsPasses(w, events[..|events| - 1]);
      StepKeepsPasses(Run(w, events[..|events| - 1]), events[|events| - 1]);
    }
  }

  /** The pass was admitted by this move, while its pinned snapshot was the current one. */
  ghost predicate AdmittedBy(w: World, ev: Event, p: nat, pass: Pass) {
    && w.generations != [] && PassesOk(w)
    && pass.Admitted? && ev.Admit? && ev.pass == p
    && p in w.passes && w.passes[p] == Pinned(pass.task, pass.generation, pass.simulate)
    && pass.generation == |w.generations| - 1
    && Confine(pass.simulate, pass.task, Current(w).selector, ev.labels).Allowed?
  }

  ghost predicate AdmittedDuring(w: World, events: seq<Event>, p: nat, pass: Pass)
    requires w.generations != []
  {
    exists j :: 0 <= j < |events| && AdmittedBy(Run(w, events[..j]), events[j], p, pass)
  }

  lemma AdmittedExtends(w: World, events: seq<Event>, p: nat, pass: Pass)
    requires w.generations != [] && events != [] && AdmittedDuring(w, events[..|events| - 1], p, pass)
    ensures AdmittedDuring(w, events, p, pass)
  {
    var init := events[..|events| - 1];
    var j :| 0 <= j < |init| && AdmittedBy(Run(w, init[..j]), init[j], p, pass);
    assert init[..j] == events[..j] && init[j] == events[j];
  }

  lemma {:induction false} AdmittedHasHistory(w: World, events: seq<Event>, p: nat)
    requires Start(w) && p in Run(w, events).passes && Run(w, events).passes[p].Admitted?
    ensures AdmittedDuring(w, events, p, Run(w, events).passes[p])
  {
    if events != [] {
      var n := |events| - 1;
      var before := Run(w, events[..n]);
      RunKeepsPasses(w, events[..n]);
      if p in before.passes && before.passes[p] == Run(w, events).passes[p] {
        AdmittedHasHistory(w, events[..n], p);
        AdmittedExtends(w, events, p, Run(w, events).passes[p]);
      } else {
        assert AdmittedBy(before, events[n], p, Run(w, events).passes[p]);
      }
    }
  }

  /** The grounds of a live step: a current snapshot that executes, whose own selector holds the node. */
  ghost predicate LiveGrounds(w: World, ev: Event, p: nat, task: Task) {
    && w.generations != [] && ev.Admit? && ev.pass == p
    && !task.openedDryRun && !Simulated(Current(w))
    && (task.def.Some? && task.def.value.destructive && Current(w).selector != map[] ==>
          ev.labels.Some? && Matches(Current(w).selector, ev.labels.value))
  }

  ghost predicate EffectOf(w: World, events: seq<Event>, k: nat, task: Task)
    requires Start(w)
  {
    && k < |events| && events[k].Execute?
    && Run(w, events[..k + 1]).effects == Run(w, events[..k]).effects + [Effect(events[k].pass, task)]
  }

  lemma Dispatched(w: World, ev: Event, e: Effect)
    requires w.generations != [] && Step(w, ev).effects == w.effects + [e]
    ensures ev.Execute? && e.pass == ev.pass && ev.pass in w.passes
    ensures Dispatches(w, w.passes[ev.pass], ev.readable) && w.passes[ev.pass].task == e.task
  {
    assert |Step(w, ev).effects| == |w.effects| + 1;
    assert Step(w, ev).effects[|w.effects|] == e;
  }

  lemma OnlyExecutionsAdd(w: World, ev: Event, e: Effect)
    requires w.generations != [] && e in Step(w, ev).effects && e !in w.effects
    ensures ev.Execute? && ev.pass == e.pass && Step(w, ev).effects == w.effects + [e]
  {
  }

  /**
   Across any interleaving of reloads, admissions and executions: a live effect of a
   step that compensates nothing was admitted under a snapshot current then, not
   dry-run, whose own selector matched a destructive step's node; and the snapshot
   installed at the last check is not dry-run either.
   */
  lemma LiveEffectsWereAdmitted(w: World, events: seq<Event>, k: nat, task: Task)
    requires Start(w) && EffectOf(w, events, k, task) && task.def.Some? && !task.def.value.compensating
    ensures exists j :: 0 <= j < k && LiveGrounds(Run(w, events[..j]), events[j], events[k].pass, task)
    ensures !task.openedDryRun && !Simulated(Current(Run(w, events[..k])))
  {
    var at, p := Run(w, events[..k]), events[k].pass;
    assert events[..k + 1][..k] == events[..k];
    Dispatched(at, events[k], Effect(p, task));
    AdmittedHasHistory(w, events[..k], p);
    var j :| 0 <= j < k && AdmittedBy(Run(w, events[..k][..j]), events[..k][j], p, at.passes[p]);
    assert events[..k][..j] == events[..j];
    AdmittedLive(Run(w, events[..j]), events[j], p, at.passes[p]);
  }

  lemma AdmittedLive(w: World, ev: Event, p: nat, pass: Pass)
    requires AdmittedBy(w, ev, p, pass) && !pass.simulate
    ensures LiveGrounds(w, ev, p, pass.task)
  {
    assert PassOk(w.generations, w.passes[p]);
  }

  /** A compensating step runs under a dry-run only for the owner of a pin whose node is still marked. */
  lemma CompensationNeedsItsQuiesce(w: World, events: seq<Event>, k: nat, task: Task)
    requires Start(w) && EffectOf(w, events, k, task)
    requires task.openedDryRun || Simulated(Current(Run(w, events[..k])))
    ensures task.def.Some? && task.def.value.compensating
    ensures RecordedQuiesce(Run(w, events[..k]), task, events[k].readable)
  {
    var at, p := Run(w, events[..k]), events[k].pass;
    assert events[..k + 1][..k] == events[..k];
    Dispatched(at, events[k], Effect(p, task));
    RunKeepsPasses(w, events[..k]);
    assert PassOk(at.generations, at.passes[p]);
  }

  /** Nothing else ever touches a node: every effect of a run was dispatched by one of its executions. */
  lemma {:induction false} EffectsAreDispatched(w: World, events: seq<Event>, e: Effect)
    requires Start(w) && e in Run(w, events).effects
    ensures exists k: nat :: EffectOf(w, events, k, e.task) && events[k].pass == e.pass
  {
    if events != [] {
      var n := |events| - 1;
      if e in Run(w, events[..n]).effects {
        EffectsAreDispatched(w, events[..n], e);
        var k: nat :| EffectOf(w, events[..n], k, e.task) && events[..n][k].pass == e.pass;
        EffectExtends(w, events, k, e.task);
      } else {
        assert events[..n + 1] == events;
        OnlyExecutionsAdd(Run(w, events[..n]), events[n], e);
        assert EffectOf(w, events, n, e.task);
      }
    }
  }

  lemma EffectExtends(w: World, events: seq<Event>, k: nat, task: Task)
    requires Start(w) && events != [] && EffectOf(w, events[..|events| - 1], k, task)
    ensures EffectOf(w, events, k, task) && events[k] == events[..|events| - 1][k]
  {
    var init := events[..|events| - 1];
    assert init[..k] == events[..k] && init[..k + 1] == events[..k + 1];
  }
}
