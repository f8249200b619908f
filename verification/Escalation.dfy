/**
 The walk of one incident along its playbook and up its escalation ladder: where
 it stands, which action identity a dispatch carries, and why the walk ends.
 */
module Escalation {
  import opened Common
  import opened Text

  const MAX_ATTEMPTS := 8

  datatype State = Open | Observing | Evaluating | AwaitingApproval | Executing | Verifying | NeedsHuman | Resolved
    | Expired

  /** A step that guards the device's idleness, one that stands the accelerator stack down, or any other. */
  datatype Step = Step(name: string, idleGuard: bool, quiesces: bool)

  datatype Playbook = Playbook(steps: seq<Step>, escalateTo: string)

  /** The playbooks of one configuration generation, by name; escalation may be cyclic. */
  type Engine = map<string, Playbook>

  datatype Incident = Incident(
    id: string, playbook: string, stepIndex: nat, attempt: nat, state: State, inFlight: bool)

  /** The legal moves of the state machine. */
  predicate CanTransition(from: State, to: State) {
    match from
    case Open => to.Observing? || to.Evaluating? || to.NeedsHuman? || to.Resolved?
    case Observing => to.Evaluating? || to.NeedsHuman? || to.Resolved?
    case Evaluating =>
      to.Evaluating? || to.Executing? || to.AwaitingApproval? || to.Observing? || to.NeedsHuman? || to.Resolved?
    case AwaitingApproval => to.Executing? || to.NeedsHuman? || to.Expired? || to.Resolved?
    case Executing => to.Verifying? || to.NeedsHuman? || to.Evaluating?
    case Verifying => to.Resolved? || to.Evaluating? || to.NeedsHuman?
    case NeedsHuman => to.Resolved? || to.Evaluating?
    case Resolved => false
    case Expired => false
  }

  // ----- Decisions of the engine -----

  datatype Next = Missing | Done | Ready(step: Step)

  function NextStep(engine: Engine, inc: Incident): Next {
    if inc.playbook !in engine then Missing
    else if inc.stepIndex >= |engine[inc.playbook].steps| then Done
    else Ready(engine[inc.playbook].steps[inc.stepIndex])
  }

  function EscalationOf(engine: Engine, name: string): Option<string> {
    if name !in engine || engine[name].escalateTo == "" || engine[name].escalateTo !in engine then None
    else Some(engine[name].escalateTo)
  }

  function QuiesceIndex(steps: seq<Step>): (r: Option<nat>)
    ensures r.None? ==> forall i :: 0 <= i < |steps| ==> !steps[i].quiesces
    ensures r.Some? ==>
              r.value < |steps| && steps[r.value].quiesces && forall i :: 0 <= i < r.value ==> !steps[i].quiesces
  {
    if steps == [] then None
    else
      var init := QuiesceIndex(steps[..|steps| - 1]);
      if init.Some? then init
      else if steps[|steps| - 1].quiesces then Some(|steps| - 1)
      else None
  }

  // ----- The operations that move an incident -----

  predicate CanClimb(engine: Engine, inc: Incident) {
    inc.attempt < MAX_ATTEMPTS && EscalationOf(engine, inc.playbook).Some?
  }

  function Quarantined(inc: Incident): Incident { inc.(state := NeedsHuman, inFlight := false) }

  function Escalated(engine: Engine, inc: Incident): Incident {
    if !CanClimb(engine, inc) then Quarantined(inc)
    else Incident(inc.id, EscalationOf(engine, inc.playbook).value, 0, inc.attempt + 1, Evaluating, false)
  }

  function StepSucceeded(engine: Engine, inc: Incident): Incident {
    var moved := inc.(stepIndex := inc.stepIndex + 1, inFlight := false);
    moved.(state := if NextStep(engine, moved).Done? then Verifying else Evaluating)
  }

  /** A failed idle guard hands the incident to a human; any other failure climbs. */
  function StepFailed(engine: Engine, inc: Incident): Incident {
    var next := NextStep(engine, inc);
    if next.Ready? && next.step.idleGuard then Quarantined(inc) else Escalated(engine, inc)
  }

  predicate Rewinds(engine: Engine, inc: Incident) {
    && (inc.state.Evaluating? || inc.state.Executing? || inc.state.AwaitingApproval?) && !inc.inFlight
    && inc.playbook in engine
    && var index := QuiesceIndex(engine[inc.playbook].steps);
       index.Some? && index.value < inc.stepIndex
  }

  function Rewound(engine: Engine, inc: Incident): Incident
    requires Rewinds(engine, inc)
  {
    inc.(stepIndex := QuiesceIndex(engine[inc.playbook].steps).value, attempt := inc.attempt + 1)
  }

  /**
   Everything that happens to an incident after it opened, each under the
   configuration generation the operation had pinned. Start dispatches the current
   step; Succeed and Fail are its outcome, and LostOutcome one the store did not take:
   the write failed, or was refused because the row had moved meanwhile. Refuse is a
   rung refused before its first step; Recur a signal during verification; Crash a
   controller restart.
   */
  datatype Event =
    | Start(engine: Engine)
    | Succeed(engine: Engine)
    | Fail(engine: Engine)
    | LostOutcome
    | Refuse(engine: Engine)
    | Recur(engine: Engine)
    | Observe(engine: Engine)
    | Threshold(engine: Engine)
    | Bind(name: string)
    | Park
    | Crash
    | RecoverOrphan
    | Rewind(engine: Engine)
    | Quarantine
    | Resume
    | Finish(state: State)

  predicate Walking(s: State) { !s.NeedsHuman? && !s.Resolved? && !s.Expired? }

  predicate Enabled(inc: Incident, ev: Event) {
    match ev
    case Start(engine) => (inc.state.Evaluating? || inc.state.AwaitingApproval?) && NextStep(engine, inc).Ready?
    case Succeed(engine) => inc.state.Executing? && inc.inFlight && NextStep(engine, inc).Ready?
    case Fail(engine) => inc.state.Executing? && inc.inFlight && NextStep(engine, inc).Ready?
    case LostOutcome => inc.state.Executing? && inc.inFlight
    case Refuse(engine) => inc.state.Evaluating? && inc.playbook in engine
    case Recur(engine) => inc.state.Verifying?
    case Observe(engine) => inc.state.Open? || (inc.state.Evaluating? && inc.playbook !in engine)
    case Threshold(engine) => (inc.state.Observing? || inc.state.Open?) && inc.playbook in engine
    case Bind(name) => (inc.state.Observing? || inc.state.Open?) && inc.playbook == ""
    case Park => inc.state.Evaluating? || inc.state.AwaitingApproval?
    case Crash => true
    case RecoverOrphan => inc.state.Executing? && !inc.inFlight
    case Rewind(engine) => Rewinds(engine, inc)
    case Quarantine => Walking(inc.state) && !inc.inFlight
    case Resume => inc.state.NeedsHuman?
    case Finish(state) =>
      || (state.Resolved? && !inc.state.Executing? && !inc.state.Resolved? && !inc.state.Expired?)
      || (state.Expired? && inc.state.AwaitingApproval?)
  }

  function Apply(inc: Incident, ev: Event): Incident {
    if !Enabled(inc, ev) then inc
    else match ev
      case Start(engine) => inc.(state := Executing, inFlight := true)
      case Succeed(engine) => StepSucceeded(engine, inc)
      case Fail(engine) => StepFailed(engine, inc)
      case LostOutcome => inc.(inFlight := false)
      case Refuse(engine) => Escalated(engine, inc)
      case Recur(engine) => Escalated(engine, inc)
      case Observe(engine) => inc.(state := Observing)
      case Threshold(engine) => inc.(state := Evaluating)
      case Bind(name) => inc.(playbook := name)
      case Park => inc.(state := AwaitingApproval)
      case Crash => inc.(inFlight := false)
      case RecoverOrphan => inc.(state := Evaluating)
      case Rewind(engine) => Rewound(engine, inc)
      case Quarantine => Quarantined(inc)
      case Resume => inc.(state := Evaluating)
      case Finish(state) => inc.(state := state)
  }

  /** Every event moves the incident along a legal edge, or leaves its state alone. */
  lemma ApplyIsLegal(inc: Incident, ev: Event)
    ensures Apply(inc, ev).state == inc.state || CanTransition(inc.state, Apply(inc, ev).state)
  {
  }

  function After(inc: Incident, events: seq<Event>): Incident
    decreases |events|
  {
    if events == [] then inc else After(Apply(inc, events[0]), events[1..])
  }

  // ----- The class whose fields the controller rewrites -----

  class IncidentRow {
    var row: Incident

    constructor (inc: Incident)
      ensures row == inc
    {
      row := inc;
    }

    /** A write the store does not take leaves the row as it was. */
    method Quarantine(stored: bool)
      requires Enabled(row, Event.Quarantine) || row.inFlight
      modifies this
      ensures row == if stored then Quarantined(old(row)) else old(row)
      ensures row.playbook == old(row.playbook) && row.stepIndex == old(row.stepIndex) &&
              row.attempt == old(row.attempt)
    {
      if stored {
        row := row.(state := NeedsHuman, inFlight := false);
      }
    }

    /** Never past the cap, never to a playbook that does not exist. */
    method Escalate(engine: Engine, stored: bool)
      requires row.state.Evaluating? || row.state.Verifying? || (row.state.Executing? && row.inFlight)
      modifies this
      ensures row == if stored then Escalated(engine, old(row)) else old(row)
      ensures stored && row.state.Evaluating? ==>
                row.playbook in engine && row.attempt == old(row.attempt) + 1 <= MAX_ATTEMPTS
      ensures stored ==> row.state.Evaluating? || (row.state.NeedsHuman? && row.attempt == old(row.attempt))
    {
      if row.attempt >= MAX_ATTEMPTS {
        Quarantine(stored);
        return;
      }
      var next := EscalationOf(engine, row.playbook);
      if next.None? {
        Quarantine(stored);
        return;
      }
      if stored {
        row := Incident(row.id, next.value, 0, row.attempt + 1, Evaluating, false);
      }
    }

    /**
     The outcome of the step in flight, against the generation that admitted it. An
     outcome the store does not take is lost: the step ran, and the row stands where it
     stood, with nothing in flight.
     */
    method RunStep(engine: Engine, ok: bool, stored: bool)
      requires row.state.Executing? && row.inFlight && NextStep(engine, row).Ready?
      modifies this
      ensures row == Apply(old(row), if !stored then LostOutcome else if ok then Succeed(engine) else Fail(engine))
      ensures !stored ==> row.state.Executing? && !row.inFlight && ActionId(row) == ActionId(old(row))
      ensures stored && !ok && NextStep(engine, old(row)).step.idleGuard ==>
                row.state.NeedsHuman? && row.playbook == old(row.playbook) && row.attempt == old(row.attempt)
      ensures stored && ok ==> row.attempt == old(row.attempt) && row.stepIndex == old(row.stepIndex) + 1
      ensures stored && ok ==> (row.state.Verifying? <==> row.stepIndex == |engine[row.playbook].steps|)
    {
      if !ok {
        if NextStep(engine, row).step.idleGuard {
          Quarantine(stored);
        } else {
          Escalate(engine, stored);
        }
      } else {
        var moved := row.(stepIndex := row.stepIndex + 1);
        moved := moved.(state := if NextStep(engine, moved).Done? then Verifying else Evaluating);
        if stored {
          row := moved;
        }
      }
      row := row.(inFlight := false);
    }
  }

  // ----- Action identities -----

  /** The text whose digest is the action identity; the digest is taken to be injective. */
  function ActionText(id: string, stepIndex: nat, attempt: nat): string {
    id + "|" + Itoa(stepIndex) + "|" + Itoa(attempt)
  }

  function ActionId(inc: Incident): string { ActionText(inc.id, inc.stepIndex, inc.attempt) }

  /** Two texts that end in a bar and a bar-free tail agree on both parts. */
  lemma LastBar(a: string, x: string, b: string, y: string)
    requires Free(x, '|') && Free(y, '|') && a + "|" + x == b + "|" + y
    ensures a == b && x == y
  {
    var s := a + "|" + x;
    LastIndexIs(a, '|', x);
    LastIndexIs(b, '|', y);
    assert s == a + ['|'] + x && s == b + ['|'] + y;
    assert a == s[..|a|] && b == s[..|b|];
    assert x == s[|a| + 1..] && y == s[|b| + 1..];
  }

  /** The encoding is injective whatever the incident id contains, bars included. */
  lemma ActionTextInjective(id: string, stepIndex: nat, attempt: nat, id': string, stepIndex': nat, attempt': nat)
    requires ActionText(id, stepIndex, attempt) == ActionText(id', stepIndex', attempt')
    ensures id == id' && stepIndex == stepIndex' && attempt == attempt'
  {
    ItoaShape(stepIndex);
    ItoaShape(attempt);
    ItoaShape(stepIndex');
    ItoaShape(attempt');
    var front, front' := id + "|" + Itoa(stepIndex), id' + "|" + Itoa(stepIndex');
    assert ActionText(id, stepIndex, attempt) == front + "|" + Itoa(attempt);
    assert ActionText(id', stepIndex', attempt') == front' + "|" + Itoa(attempt');
    LastBar(front, Itoa(attempt), front', Itoa(attempt'));
    LastBar(id, Itoa(stepIndex), id', Itoa(stepIndex'));
    ItoaInjective(attempt, attempt');
    ItoaInjective(stepIndex, stepIndex');
  }

  /** The operations that move the incident: a step done, a rung climbed, a rewind. */
  predicate Progress(inc: Incident, ev: Event) {
    && Enabled(inc, ev)
    && match ev
       case Succeed(_) => true
       case Fail(engine) => !NextStep(engine, inc).step.idleGuard && CanClimb(engine, inc)
       case Refuse(engine) => CanClimb(engine, inc)
       case Recur(engine) => CanClimb(engine, inc)
       case Rewind(_) => true
       case _ => false
  }

  predicate Progresses(inc: Incident, events: seq<Event>)
    decreases |events|
  {
    events != [] && (Progress(inc, events[0]) || Progresses(Apply(inc, events[0]), events[1..]))
  }

  predicate Below(a: Incident, b: Incident) {
    a.attempt < b.attempt || (a.attempt == b.attempt && a.stepIndex < b.stepIndex)
  }

  lemma ApplyMoves(inc: Incident, ev: Event)
    ensures Apply(inc, ev).id == inc.id
    ensures if Progress(inc, ev) then Below(inc, Apply(inc, ev))
            else Apply(inc, ev).attempt == inc.attempt && Apply(inc, ev).stepIndex == inc.stepIndex
  {
  }

  /** Over every run, (attempt, step) never moves back and moves forward exactly when something progressed. */
  lemma {:induction false} PositionGrows(inc: Incident, events: seq<Event>)
    ensures After(inc, events).id == inc.id
    ensures if Progresses(inc, events) then Below(inc, After(inc, events))
            else After(inc, events).attempt == inc.attempt && After(inc, events).stepIndex == inc.stepIndex
    decreases |events|
  {
    if events != [] {
      ApplyMoves(inc, events[0]);
      PositionGrows(Apply(inc, events[0]), events[1..]);
    }
  }

  /**
   Between any two instants of a run the action identity is the same if and only if
   nothing progressed.
   */
  lemma IdentityIffNoProgress(inc: Incident, events: seq<Event>)
    ensures ActionId(inc) == ActionId(After(inc, events)) <==> !Progresses(inc, events)
  {
    var later := After(inc, events);
    PositionGrows(inc, events);
    if ActionId(inc) == ActionId(later) {
      ActionTextInjective(inc.id, inc.stepIndex, inc.attempt, later.id, later.stepIndex, later.attempt);
    }
  }

  /** What brings an incident back to the step it was dispatched for: see ReturnIff. */
  predicate Returns(inc: Incident, ev: Event) {
    match ev
    case Crash | LostOutcome => inc.state.Executing? && inc.inFlight
    case Resume => inc.state.NeedsHuman?
    case _ => false
  }

  predicate Undisturbed(inc: Incident, events: seq<Event>)
    decreases |events|
  {
    events == [] || (!Returns(inc, events[0]) && Undisturbed(Apply(inc, events[0]), events[1..]))
  }

  /** In flight, or past all dispatching. */
  predicate Dispatched(inc: Incident) {
    (inc.state.Executing? && inc.inFlight) || inc.state.NeedsHuman? || inc.state.Resolved? || inc.state.Expired?
  }

  lemma {:induction false} DispatchedStays(inc: Incident, events: seq<Event>)
    requires Dispatched(inc) && Undisturbed(inc, events) && !Progresses(inc, events)
    ensures Dispatched(After(inc, events))
    decreases |events|
  {
    if events != [] {
      DispatchedStays(Apply(inc, events[0]), events[1..]);
    }
  }

  /**
   No two dispatches of an incident share an action identity, unless in between the
   controller crashed while the step was in flight, the step's outcome was lost, or a
   human handed the incident back.
   */
  lemma DispatchesDiffer(inc: Incident, first: Engine, between: seq<Event>, second: Engine)
    requires Enabled(inc, Start(first)) && Undisturbed(Apply(inc, Start(first)), between)
    requires Enabled(After(Apply(inc, Start(first)), between), Start(second))
    ensures ActionId(inc) != ActionId(After(Apply(inc, Start(first)), between))
  {
    var running := Apply(inc, Start(first));
    if !Progresses(running, between) {
      DispatchedStays(running, between);
    }
    IdentityIffNoProgress(running, between);
  }

  /** A run, without a further return, to a dispatch under the identity the incident has now. */
  predicate Redispatches(inc: Incident, events: seq<Event>, engine: Engine) {
    && Undisturbed(inc, events) && Enabled(After(inc, events), Start(engine))
    && ActionId(After(inc, events)) == ActionId(inc)
  }

  lemma ReturnedRedispatches(inc: Incident, ev: Event, engine: Engine)
    requires Returns(inc, ev) && NextStep(engine, inc).Ready?
    ensures Redispatches(Apply(inc, ev), if ev.Resume? then [] else [RecoverOrphan], engine)
  {
    var after := Apply(inc, ev);
    assert [RecoverOrphan][1..] == [];
    assert After(after, [RecoverOrphan]) == After(Apply(after, RecoverOrphan), []);
    assert Undisturbed(after, [RecoverOrphan]) == Undisturbed(Apply(after, RecoverOrphan), []);
  }

  /**
   Exactly those three: once a step is dispatched, an event that leaves the incident
   where it is lets the step be dispatched again, under the same identity, if and only
   if it is one of them.
   */
  lemma ReturnIff(inc: Incident, ev: Event, engine: Engine)
    requires Dispatched(inc) && NextStep(engine, inc).Ready? && !Progress(inc, ev)
    ensures (exists events, second :: Redispatches(Apply(inc, ev), events, second)) <==> Returns(inc, ev)
  {
    var after := Apply(inc, ev);
    if Returns(inc, ev) {
      ReturnedRedispatches(inc, ev, engine);
    } else {
      forall events, second | Undisturbed(after, events) && ActionId(After(after, events)) == ActionId(after)
        ensures !Enabled(After(after, events), Start(second))
      {
        IdentityIffNoProgress(after, events);
        DispatchedStays(after, events);
      }
    }
  }

  /** A crash in flight: the step is dispatched again under the identity it had. */
  lemma ReplayKeepsIdentity(inc: Incident, engine: Engine)
    requires Enabled(inc, Start(engine))
    ensures var later := After(inc, [Start(engine), Crash, RecoverOrphan]);
            Enabled(later, Start(engine)) && ActionId(later) == ActionId(inc)
  {
    AfterThree(inc, Start(engine), Crash, RecoverOrphan);
  }

  /**
   A step that ran to its end and whose outcome the store did not take: it too is
   dispatched again under the identity it had, with no crash and no human.
   */
  lemma LostOutcomeKeepsIdentity(inc: Incident, engine: Engine)
    requires Enabled(inc, Start(engine))
    ensures var later := After(inc, [Start(engine), LostOutcome, RecoverOrphan]);
            Enabled(later, Start(engine)) && ActionId(later) == ActionId(inc)
  {
    AfterThree(inc, Start(engine), LostOutcome, RecoverOrphan);
  }

  /**
   A failed idle guard, handed back by a human: again the same identity, although the
   first dispatch has ended. The state machine allows this move; no caller makes it.
   */
  lemma HandedBackKeepsIdentity(inc: Incident, engine: Engine)
    requires Enabled(inc, Start(engine)) && NextStep(engine, inc).step.idleGuard
    ensures var later := After(inc, [Start(engine), Fail(engine), Resume]);
            Enabled(later, Start(engine)) && ActionId(later) == ActionId(inc)
  {
    AfterThree(inc, Start(engine), Fail(engine), Resume);
  }

  lemma AfterThree(inc: Incident, a: Event, b: Event, c: Event)
    ensures After(inc, [a, b, c]) == Apply(Apply(Apply(inc, a), b), c)
  {
    assert [a, b, c][1..] == [b, c] && [b, c][1..] == [c] && [c][1..] == [];
    assert After(Apply(Apply(inc, a), b), [c]) == Apply(Apply(Apply(inc, a), b), c);
  }

  /** Actions of two incidents never share an identity, at any instants of their runs. */
  lemma IncidentsNeverShare(a: Incident, ofA: seq<Event>, b: Incident, ofB: seq<Event>)
    requires a.id != b.id
    ensures ActionId(After(a, ofA)) != ActionId(After(b, ofB))
  {
    var x, y := After(a, ofA), After(b, ofB);
    PositionGrows(a, ofA);
    PositionGrows(b, ofB);
    if ActionId(x) == ActionId(y) {
      ActionTextInjective(x.id, x.stepIndex, x.attempt, y.id, y.stepIndex, y.attempt);
    }
  }

  // ----- The ladder ends -----

  predicate BookSizes(engine: Engine, most: nat) {
    forall name :: name in engine ==> |engine[name].steps| <= most
  }

  /** Escalations left, then steps left, in one number. */
  function Left(inc: Incident, most: nat): nat {
    Max(MAX_ATTEMPTS - inc.attempt, 0) * (most + 1) + Max(most - inc.stepIndex, 0)
  }

  ghost predicate Unattended(events: seq<Event>, most: nat) {
    forall i :: 0 <= i < |events| ==>
      !events[i].Rewind? && (Engined(events[i]) ==> BookSizes(events[i].engine, most))
  }

  predicate Engined(ev: Event) {
    ev.Succeed? || ev.Fail? || ev.Refuse? || ev.Recur?
  }

  lemma ClimbCosts(a: nat, b: int, most: nat)
    requires a >= 1 && b >= 0
    ensures (a - 1) * (most + 1) + most < a * (most + 1) + b
  {
  }

  lemma ProgressCosts(inc: Incident, ev: Event, most: nat)
    requires !ev.Rewind? && (Engined(ev) ==> BookSizes(ev.engine, most))
    ensures Left(Apply(inc, ev), most) <= Left(inc, most) - (if Progress(inc, ev) then 1 else 0)
  {
    ApplyMoves(inc, ev);
    if Progress(inc, ev) && !ev.Succeed? {
      ClimbCosts(MAX_ATTEMPTS - inc.attempt, Max(most - inc.stepIndex, 0), most);
    }
  }

  function ProgressCount(inc: Incident, events: seq<Event>): nat
    decreases |events|
  {
    if events == [] then 0
    else (if Progress(inc, events[0]) then 1 else 0) + ProgressCount(Apply(inc, events[0]), events[1..])
  }

  /**
   Whatever the escalation graph, cyclic or reloaded on the way, a run without
   rewinds moves at most as often as its rungs and steps allow.
   */
  lemma {:induction false} LadderIsFinite(inc: Incident, events: seq<Event>, most: nat)
    requires Unattended(events, most)
    ensures ProgressCount(inc, events) + Left(After(inc, events), most) <= Left(inc, most)
    ensures Left(inc, most) <= MAX_ATTEMPTS * (most + 1) + most
    decreases |events|
  {
    LeftBound(inc, most);
    if events != [] {
      ProgressCosts(inc, events[0], most);
      LadderIsFinite(Apply(inc, events[0]), events[1..], most);
    }
  }

  lemma LeftBound(inc: Incident, most: nat)
    ensures Left(inc, most) <= MAX_ATTEMPTS * (most + 1) + most
  {
  }

  /** What happens at one look at the incident: the rung is refused, or its step dispatched and ending well or not. */
  datatype Verdict = Ok | Failed | Refused

  /**
   The automatic walk, without holds, rewinds, humans or crashes, and with every write
   taken by the store. A playbook found finished while evaluating is sent to
   verification, a move the state machine refuses.
   */
  function Auto(engine: Engine, inc: Incident, verdict: Verdict): Incident {
    match inc.state
    case Evaluating =>
      (match NextStep(engine, inc)
       case Missing => Apply(inc, Observe(engine))
       case Done => if CanTransition(Evaluating, Verifying) then inc.(state := Verifying) else inc
       case Ready(_) => if verdict.Refused? then Apply(inc, Refuse(engine)) else Apply(inc, Start(engine)))
    case Executing =>
      if !inc.inFlight then Apply(inc, RecoverOrphan)
      else if verdict.Ok? then Apply(inc, Succeed(engine))
      else Apply(inc, Fail(engine))
    case _ => inc
  }

  function AutoRun(engine: Engine, inc: Incident, verdicts: nat -> Verdict, n: nat): Incident {
    if n == 0 then inc else Auto(engine, AutoRun(engine, inc, verdicts, n - 1), verdicts(n - 1))
  }

  /** Loading refuses a playbook without steps. */
  predicate Loaded(engine: Engine) {
    forall name :: name in engine ==> engine[name].steps != []
  }

  predicate Walks(engine: Engine, inc: Incident) {
    (inc.state.Evaluating? || (inc.state.Executing? && inc.inFlight)) && NextStep(engine, inc).Ready?
  }

  predicate Ends(inc: Incident) { inc.state.Verifying? || inc.state.NeedsHuman? }

  /** Twice what is left, plus one while the step has yet to be dispatched. */
  function Steps(inc: Incident, most: nat): nat {
    2 * Left(inc, most) + (if inc.state.Evaluating? then 1 else 0)
  }

  lemma AutoAdvances(engine: Engine, inc: Incident, verdict: Verdict, most: nat)
    requires Walks(engine, inc) && BookSizes(engine, most) && Loaded(engine)
    ensures var next := Auto(engine, inc, verdict);
            Ends(next) || (Walks(engine, next) && Steps(next, most) < Steps(inc, most))
  {
    if inc.state.Evaluating? {
      ProgressCosts(inc, Refuse(engine), most);
    } else {
      ProgressCosts(inc, Succeed(engine), most);
      ProgressCosts(inc, Fail(engine), most);
    }
  }

  /** The automatic walk reaches verification or a human, in a number of looks known beforehand. */
  lemma {:induction false} AutoEnds(engine: Engine, inc: Incident, verdicts: nat -> Verdict, n: nat, most: nat)
    requires Walks(engine, AutoRun(engine, inc, verdicts, n)) && BookSizes(engine, most) && Loaded(engine)
    ensures exists m ::
              n < m <= n + 1 + Steps(AutoRun(engine, inc, verdicts, n), most) && Ends(AutoRun(engine, inc, verdicts, m))
    decreases Steps(AutoRun(engine, inc, verdicts, n), most)
  {
    var here := AutoRun(engine, inc, verdicts, n);
    var next := AutoRun(engine, inc, verdicts, n + 1);
    AutoAdvances(engine, here, verdicts(n), most);
    if !Ends(next) {
      AutoEnds(engine, inc, verdicts, n + 1, most);
    }
  }

  /** An incident evaluated past the end of its playbook, as after a reload that shortened it, never moves. */
  lemma {:induction false} PastTheEndStalls(engine: Engine, inc: Incident, verdicts: nat -> Verdict, n: nat)
    requires inc.state.Evaluating? && NextStep(engine, inc).Done?
    ensures AutoRun(engine, inc, verdicts, n) == inc
  {
    if n > 0 {
      PastTheEndStalls(engine, inc, verdicts, n - 1);
    }
  }

  const LONGER: Engine := map["ladder" := Playbook([Step("drain", false, false), Step("reset", false, false)], "")]
  const SHORTER: Engine := map["ladder" := Playbook([Step("drain", false, false)], "")]

  /** The first step is done under one configuration, the next one has dropped the second: the incident stays there. */
  lemma ShortenedReloadStalls(verdicts: nat -> Verdict, n: nat)
    ensures var inc := Incident("i", "ladder", 0, 0, Evaluating, false);
            var after := After(inc, [Start(LONGER), Succeed(LONGER)]);
            after.state.Evaluating? && after.stepIndex == 1 && AutoRun(SHORTER, after, verdicts, n) == after
  {
    var inc := Incident("i", "ladder", 0, 0, Evaluating, false);
    assert [Start(LONGER), Succeed(LONGER)][1..] == [Succeed(LONGER)] && [Succeed(LONGER)][1..] == [];
    var running := Apply(inc, Start(LONGER));
    assert After(running, [Succeed(LONGER)]) == Apply(running, Succeed(LONGER));
    PastTheEndStalls(SHORTER, Apply(running, Succeed(LONGER)), verdicts, n);
  }

  ghost function MostSteps(names: set<string>, engine: Engine): (most: nat)
    requires names <= engine.Keys
    ensures forall name :: name in names ==> |engine[name].steps| <= most
    decreases |names|
  {
    if names == {} then 0
    else
      var name :| name in names;
      Max(|engine[name].steps|, MostSteps(names - {name}, engine))
  }

  /**
   Under one loaded configuration, the walk of an evaluated incident ends exactly when its
   step index names a step.
   */
  lemma AutoEndsIff(engine: Engine, inc: Incident, verdicts: nat -> Verdict)
    requires Loaded(engine) && inc.state.Evaluating? && inc.playbook in engine
    ensures (exists m :: Ends(AutoRun(engine, inc, verdicts, m))) <==> inc.stepIndex < |engine[inc.playbook].steps|
  {
    if inc.stepIndex < |engine[inc.playbook].steps| {
      var most := MostSteps(engine.Keys, engine);
      assert AutoRun(engine, inc, verdicts, 0) == inc;
      AutoEnds(engine, inc, verdicts, 0, most);
    } else {
      forall m: nat ensures !Ends(AutoRun(engine, inc, verdicts, m)) {
        PastTheEndStalls(engine, inc, verdicts, m);
      }
    }
  }
}
