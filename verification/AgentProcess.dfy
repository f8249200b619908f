/**
 The agent's journal and action loop as the source writes them: methods that
 update a table in place, append to a file, and return early on a failure.

 Every outcome the process does not control (a write, the executor, the network)
 is an argument. Each journal method is proved equal to its specification in
 ActionJournal, and each loop method is proved to perform a run of events of
 AgentProtocol, so the guarantees of AgentSafety hold at every point inside it.
 */
module AgentProcess {
  import opened Common
  import opened ActionJournal
  import opened AgentProtocol
  import Text

  ghost predicate Keyed(entries: Table) {
    forall id :: id in entries ==> entries[id].action.id == id
  }

  /** Two tables that differ at most in one entry. */
  ghost predicate OnlyAt(before: Table, after: Table, id: string) {
    before - {id} == after - {id}
  }

  /** By action id, each one once. */
  predicate InOrder(list: seq<Entry>) {
    forall i, j :: 0 <= i < j < |list| ==> Text.Before(list[i].action.id, list[j].action.id)
  }

  function Insert(list: seq<Entry>, e: Entry): seq<Entry> {
    if list == [] || Text.Before(e.action.id, list[0].action.id) then [e] + list
    else [list[0]] + Insert(list[1..], e)
  }

  lemma {:induction false} InsertHolds(list: seq<Entry>, e: Entry)
    ensures forall x :: x in Insert(list, e) <==> x in list || x == e
  {
    if list != [] {
      InsertHolds(list[1..], e);
      assert list == [list[0]] + list[1..];
    }
  }

  lemma {:induction false} InsertOrders(list: seq<Entry>, e: Entry)
    requires InOrder(list) && forall x :: x in list ==> x.action.id != e.action.id
    ensures InOrder(Insert(list, e))
  {
    if list != [] {
      var first, id := list[0].action.id, e.action.id;
      Text.BeforeOrders(id, first);
      if Text.Before(id, first) {
        forall j | 0 < j < |list| ensures Text.Before(id, list[j].action.id) {
          Text.BeforeChains(id, first, list[j].action.id);
        }
      } else {
        InsertOrders(list[1..], e);
        InsertHolds(list[1..], e);
        forall x | x in Insert(list[1..], e) ensures Text.Before(first, x.action.id) {
        }
      }
    }
  }

  lemma OrderIsDistinct(list: seq<Entry>)
    requires InOrder(list)
    ensures DistinctIds(list)
  {
    forall i, j | 0 <= i < j < |list| ensures list[i].action.id != list[j].action.id {
      Text.BeforeOrders(list[i].action.id, list[j].action.id);
    }
  }

  class JournalStore {
    var entries: Table
    var file: File

    constructor (f: File, recovered: Table)
      ensures entries == recovered && file == f
    {
      entries := recovered;
      file := f;
    }

    function Contents(): (j: Journal)
      reads this
      ensures j.entries == entries && j.file == file
    {
      Journal(entries, file)
    }

    method AppendEntry(e: Entry, o: WriteOutcome) returns (ok: bool)
      modifies this
      ensures Contents() == Append(old(Contents()), e, o)
      ensures ok == o.Durable?
    {
      file := Write(file, e, o);
      if o != Durable {
        return false;
      }
      entries := entries[e.action.id := e];
      ok := true;
    }

    method Receive(a: Action, o: WriteOutcome) returns (r: Reply)
      modifies this
      ensures (Contents(), r) == RecordReceived(old(Contents()), a, o)
      ensures old(Keyed(entries)) ==> Keyed(entries)
      ensures OnlyAt(old(entries), entries, a.id)
    {
      if a.id in entries {
        if !SameAction(entries[a.id].action, a) {
          return Refused;
        }
        return Ok(entries[a.id]);
      }
      var e := Entry(a, Received, None, Unclaimed);
      var ok := AppendEntry(e, o);
      r := if ok then Ok(e) else Refused;
    }

    method Claim(id: string, lease: Claim, o: WriteOutcome) returns (r: Reply)
      modifies this
      requires Keyed(entries)
      ensures (Contents(), r) == SetClaim(old(Contents()), id, lease, o)
      ensures Keyed(entries) && OnlyAt(old(entries), entries, id)
    {
      if !ValidClaim(lease) || id !in entries || entries[id].state == Reported {
        return Refused;
      }
      if entries[id].claim == lease {
        return Ok(entries[id]);
      }
      var e := entries[id].(claim := lease);
      var ok := AppendEntry(e, o);
      r := if ok then Ok(e) else Refused;
    }

    method Move(id: string, next: State, result: Option<ActionResult>, o: WriteOutcome) returns (r: Reply)
      modifies this
      requires Keyed(entries)
      ensures (Contents(), r) == Transition(old(Contents()), id, next, result, o)
      ensures Keyed(entries) && OnlyAt(old(entries), entries, id)
      ensures r.Ok? ==> r.entry.action.id == id
    {
      if id !in entries {
        return Refused;
      }
      var current := entries[id];
      if current.state == next {
        if next == Received || (next == OutcomeKnown && current.result != result) {
          return Refused;
        }
        return Ok(current);
      }
      if !AllowedTransition(current.state, next) {
        return Refused;
      }
      var e := Advanced(current, next, result);
      if !WellFormed(e) {
        return Refused;
      }
      var ok := AppendEntry(e, o);
      r := if ok then Ok(e) else Refused;
    }

    /** A snapshot of every action the controller has not acknowledged, by action id. */
    method ListRecoverable() returns (list: seq<Entry>)
      requires Keyed(entries)
      ensures InOrder(list)
      ensures forall e :: e in list <==> e.action.id in entries && entries[e.action.id] == e && e.state != Reported
    {
      list := [];
      var ids := entries.Keys;
      while ids != {}
        invariant ids <= entries.Keys
        invariant InOrder(list)
        invariant forall e :: e in list <==>
                    e.action.id in entries.Keys - ids && entries[e.action.id] == e && e.state != Reported
        decreases ids
      {
        var id :| id in ids;
        if entries[id].state != Reported {
          InsertHolds(list, entries[id]);
          InsertOrders(list, entries[id]);
          list := Insert(list, entries[id]);
        }
        ids := ids - {id};
      }
    }
  }

  /**
   What the outside answers during one pass over one action. A recovery pass reads the
   clock twice: the first reading comes so long after the pass before, the second so
   long after the first.
   */
  datatype Answers = Answers(
    before: nat, between: nat, intent: WriteOutcome, lease: WriteOutcome, marker: WriteOutcome,
    result: Option<ActionResult>, outcome: WriteOutcome, unknown: WriteOutcome, arrived: bool, acknowledged: bool,
    settled: WriteOutcome)

  // ----- The events of one pass -----
  //
  // An event that does not fit where the process stands changes nothing, so one
  // fixed list covers every early return of a pass.

  function Sending(env: Answers): seq<Event> { [Send(env.arrived, env.acknowledged), Acknowledge(env.settled)] }

  function Unknowing(env: Answers): seq<Event> { [SettleUnknown(env.unknown)] + Sending(env) }

  function Settling(env: Answers): seq<Event> { [Settle(env.outcome)] + Unknowing(env) }

  function Executing(env: Answers): seq<Event> { [AgentProtocol.Execute(env.result)] + Settling(env) }

  function Processing(env: Answers): seq<Event> { [Proceed(env.marker)] + Executing(env) }

  function Delivering(a: Action, lease: Claim, env: Answers): seq<Event> {
    [Fetch(a, lease, env.intent)] + ([TakeLease(env.lease)] + Processing(env))
  }

  function Recovering(id: string, env: Answers): seq<Event> {
    [Recover(id)] + ([Tick(env.between)] + Processing(env))
  }

  lemma RunCons(w: World, ev: Event, rest: seq<Event>)
    ensures RunFrom(w, [ev] + rest) == RunFrom(Step(w, ev), rest)
  {
    assert ([ev] + rest)[1..] == rest;
  }

  lemma SendingRuns(w: World, env: Answers)
    ensures RunFrom(w, Sending(env)) == Step(Step(w, Sending(env)[0]), Sending(env)[1])
  {
    assert Sending(env) == [Sending(env)[0]] + [Sending(env)[1]];
    RunCons(w, Sending(env)[0], [Sending(env)[1]]);
    RunFromOne(Step(w, Sending(env)[0]), Sending(env)[1]);
  }

  /** Events that continue a pass already begun. */
  predicate Continues(ev: Event) {
    ev.TakeLease? || ev.Proceed? || ev.Execute? || ev.Settle? || ev.SettleUnknown? || ev.Send? || ev.Acknowledge?
  }

  predicate AllContinue(events: seq<Event>) {
    forall i :: 0 <= i < |events| ==> Continues(events[i])
  }

  /** What remains of a pass means nothing to an idle process. */
  lemma {:induction false} IdleIgnores(w: World, events: seq<Event>)
    requires w.proc.Idle? && AllContinue(events)
    ensures RunFrom(w, events) == w
    decreases |events|
  {
    if events != [] {
      assert Step(w, events[0]) == w;
      IdleIgnores(w, events[1..]);
    }
  }

  lemma PassContinues(env: Answers)
    ensures AllContinue(Sending(env)) && AllContinue(Unknowing(env)) && AllContinue(Settling(env))
    ensures AllContinue(Executing(env)) && AllContinue(Processing(env))
    ensures AllContinue([TakeLease(env.lease)] + Processing(env))
  {
  }

  /** A process about to report skips to the report. */
  lemma ReportingSkips(w: World, env: Answers)
    requires w.proc.Reporting?
    ensures RunFrom(w, Unknowing(env)) == RunFrom(w, Sending(env))
    ensures RunFrom(w, Executing(env)) == RunFrom(w, Sending(env))
  {
    RunCons(w, SettleUnknown(env.unknown), Sending(env));
    RunCons(w, Settle(env.outcome), Unknowing(env));
    RunCons(w, AgentProtocol.Execute(env.result), Settling(env));
  }

  class AgentLoop {
    const journal: JournalStore
    /** The last reading of the clock. */
    var now: Time
    /** The protocol state this process is in. */
    ghost var world: World

    ghost predicate Valid()
      reads this, journal
    {
      world.journal == journal.Contents() && world.now == now && Keyed(journal.entries)
    }

    constructor (j: JournalStore, w: World)
      requires w.journal == j.Contents()
      requires Keyed(j.entries)
      ensures Valid() && journal == j && world == w
    {
      journal := j;
      now := w.now;
      world := w;
    }

    /** One protocol event, with the journal already in its new state. */
    ghost method Advance(ev: Event)
      requires Step(world, ev).journal == journal.Contents() && Step(world, ev).now == now
      requires Keyed(journal.entries)
      modifies `world
      ensures Valid() && world == Step(old(world), ev)
    {
      world := Step(world, ev);
    }

    /** Time passes, and the clock is read. */
    method ReadClock(elapsed: nat)
      requires Valid()
      modifies this
      ensures Valid() && now == old(now) + elapsed && world == Step(old(world), Tick(elapsed))
    {
      now := now + elapsed;
      Advance(Tick(elapsed));
    }

    method Report(lease: Claim, entry: Entry, report: ActionResult, env: Answers) returns (done: bool)
      requires Valid() && world.proc == Reporting(lease, entry, report)
      modifies `world, journal
      ensures Valid() && world.proc.Idle? && world == RunFrom(old(world), Sending(env))
      ensures OnlyAt(old(journal.entries), journal.entries, entry.action.id)
      ensures done ==> world.posts == old(world).posts + [Post(entry.action.id, report)]
    {
      SendingRuns(world, env);
      var sent := entry.claim == lease && env.arrived && env.acknowledged;
      Advance(Send(env.arrived, env.acknowledged));
      if !sent {
        return false;
      }
      var r := journal.Move(entry.action.id, Reported, None, env.settled);
      Advance(Acknowledge(env.settled));
      done := r.Ok?;
    }

    /** Persists that an execution's outcome is unknown, then reports exactly that. */
    method ReportUnknown(e: Entry, env: Answers) returns (done: bool)
      requires Valid() && world.proc == Unsettled(e)
      modifies `world, journal
      ensures Valid() && world.proc.Idle? && world == RunFrom(old(world), Unknowing(env))
      ensures OnlyAt(old(journal.entries), journal.entries, e.action.id)
    {
      RunCons(world, SettleUnknown(env.unknown), Sending(env));
      var r := journal.Move(e.action.id, OutcomeUnknown, None, env.unknown);
      Advance(SettleUnknown(env.unknown));
      if r.Refused? {
        PassContinues(env);
        IdleIgnores(world, Sending(env));
        return false;
      }
      done := Report(e.claim, r.entry, UnknownResult(e.action.id), env);
    }

    /** Marks the action running, and only then enters the executor. */
    method Execute(e: Entry, env: Answers) returns (done: bool)
      requires Valid() && world.proc == Holding(e) && e.state == Received && ClaimCurrent(e.claim, now)
      modifies `world, journal
      ensures Valid() && world.proc.Idle? && world == RunFrom(old(world), Processing(env))
      ensures OnlyAt(old(journal.entries), journal.entries, e.action.id)
    {
      RunCons(world, Proceed(env.marker), Executing(env));
      var marked := journal.Move(e.action.id, Running, None, env.marker);
      Advance(Proceed(env.marker));
      if marked.Refused? {
        PassContinues(env);
        IdleIgnores(world, Executing(env));
        return false;
      }
      RunCons(world, AgentProtocol.Execute(env.result), Settling(env));
      Advance(AgentProtocol.Execute(env.result));
      done := SettleAndReport(e, env);
    }

    /** Records what the executor returned; a result that cannot be recorded becomes unknown. */
    method SettleAndReport(e: Entry, env: Answers) returns (done: bool)
      requires Valid() && world.proc == Ran(e, env.result)
      modifies `world, journal
      ensures Valid() && world.proc.Idle? && world == RunFrom(old(world), Settling(env))
      ensures OnlyAt(old(journal.entries), journal.entries, e.action.id)
    {
      RunCons(world, Settle(env.outcome), Unknowing(env));
      var id := e.action.id;
      var next := if env.result.None? then OutcomeUnknown else OutcomeKnown;
      var r := journal.Move(id, next, env.result, env.outcome);
      Advance(Settle(env.outcome));
      if env.result.None? {
        if r.Refused? {
          PassContinues(env);
          IdleIgnores(world, Unknowing(env));
          return false;
        }
        ReportingSkips(world, env);
        done := Report(e.claim, r.entry, UnknownResult(id), env);
      } else if r.Refused? {
        done := ReportUnknown(e, env);
      } else {
        ReportingSkips(world, env);
        done := Report(e.claim, r.entry, env.result.value, env);
      }
    }

    /** Resumes one journaled action while its persisted lease is current. */
    method Process(e: Entry, env: Answers) returns (done: bool)
      requires Valid() && world.proc == Holding(e)
      modifies `world, journal
      ensures Valid() && world.proc.Idle? && world == RunFrom(old(world), Processing(env))
      ensures OnlyAt(old(journal.entries), journal.entries, e.action.id)
    {
      if !ClaimCurrent(e.claim, now) {
        GiveUp(env);
        return false;
      }
      match e.state {
        case Received =>
          done := Execute(e, env);
        case OutcomeKnown =>
          if e.result.None? {
            GiveUp(env);
            return false;
          }
          done := Resume(e, e, e.result.value, env);
        case OutcomeUnknown =>
          done := Resume(e, e, UnknownResult(e.action.id), env);
        case Running =>
          done := ResumeInterrupted(e, env);
        case Reported =>
          GiveUp(env);
          done := true;
      }
    }

    /** An execution this process did not finish: its outcome is unknown. */
    method ResumeInterrupted(e: Entry, env: Answers) returns (done: bool)
      requires Valid() && world.proc == Holding(e) && e.state == Running && ClaimCurrent(e.claim, now)
      modifies `world, journal
      ensures Valid() && world.proc.Idle? && world == RunFrom(old(world), Processing(env))
      ensures OnlyAt(old(journal.entries), journal.entries, e.action.id)
    {
      var r := journal.Move(e.action.id, OutcomeUnknown, None, env.marker);
      if r.Refused? {
        GiveUp(env);
        return false;
      }
      done := Resume(e, r.entry, UnknownResult(e.action.id), env);
    }

    /** The pass ends here: the process is idle after its first event. */
    ghost method GiveUp(env: Answers)
      requires Step(world, Proceed(env.marker)) == world.(journal := journal.Contents(), proc := Idle)
      requires world.now == now && Keyed(journal.entries)
      modifies `world
      ensures Valid() && world.proc.Idle? && world == RunFrom(old(world), Processing(env))
    {
      RunCons(world, Proceed(env.marker), Executing(env));
      Advance(Proceed(env.marker));
      PassContinues(env);
      IdleIgnores(world, Executing(env));
    }

    /** Reports an outcome an earlier pass, or an earlier process, left behind. */
    method Resume(e: Entry, recorded: Entry, report: ActionResult, env: Answers) returns (done: bool)
      requires world.now == now && Keyed(journal.entries) && recorded.action.id == e.action.id
      requires Step(world, Proceed(env.marker)) ==
               world.(journal := journal.Contents(), proc := Reporting(e.claim, recorded, report))
      modifies `world, journal
      ensures Valid() && world.proc.Idle? && world == RunFrom(old(world), Processing(env))
      ensures OnlyAt(old(journal.entries), journal.entries, e.action.id)
    {
      RunCons(world, Proceed(env.marker), Executing(env));
      Advance(Proceed(env.marker));
      ReportingSkips(world, env);
      done := Report(e.claim, recorded, report, env);
    }

    /** One delivery: journal the intent, journal the lease, then process. */
    method RunQueuedAction(a: Action, lease: Claim, env: Answers) returns (done: bool)
      requires Valid() && world.proc.Idle? && ValidClaim(lease)
      modifies `world, journal
      ensures Valid() && world.proc.Idle? && world == RunFrom(old(world), Delivering(a, lease, env))
      ensures OnlyAt(old(journal.entries), journal.entries, a.id)
    {
      RunCons(world, Fetch(a, lease, env.intent), [TakeLease(env.lease)] + Processing(env));
      var intent := journal.Receive(a, env.intent);
      Advance(Fetch(a, lease, env.intent));
      if intent.Refused? {
        PassContinues(env);
        IdleIgnores(world, [TakeLease(env.lease)] + Processing(env));
        return false;
      }
      done := ClaimAndProcess(a, lease, env);
    }

    method ClaimAndProcess(a: Action, lease: Claim, env: Answers) returns (done: bool)
      requires Valid() && world.proc == Fetched(a, lease) && ValidClaim(lease)
      modifies `world, journal
      ensures Valid() && world.proc.Idle? && world == RunFrom(old(world), [TakeLease(env.lease)] + Processing(env))
      ensures OnlyAt(old(journal.entries), journal.entries, a.id)
    {
      RunCons(world, TakeLease(env.lease), Processing(env));
      var claimed := journal.Claim(a.id, lease, env.lease);
      Advance(TakeLease(env.lease));
      if claimed.Refused? {
        PassContinues(env);
        IdleIgnores(world, Processing(env));
        return false;
      }
      done := Process(claimed.entry, env);
    }

    method RecoverOne(e: Entry, env: Answers) returns (done: bool)
      requires Valid() && world.proc.Idle? && ClaimCurrent(e.claim, now) && e.state != Reported
      requires e.action.id in journal.entries && journal.entries[e.action.id] == e
      modifies this, journal
      ensures Valid() && world.proc.Idle? && world == RunFrom(old(world), Recovering(e.action.id, env))
      ensures OnlyAt(old(journal.entries), journal.entries, e.action.id) && now == old(now) + env.between
    {
      RunCons(world, Recover(e.action.id), [Tick(env.between)] + Processing(env));
      Advance(Recover(e.action.id));
      RunCons(world, Tick(env.between), Processing(env));
      ReadClock(env.between);
      done := Process(e, env);
    }

    /**
     Resumes locally durable actions, one persisted lease at a time, and stops at the
     first one that could not be settled. The clock is read anew for each, so a lease may
     expire while an earlier action is resumed.
     */
    method RecoverQueuedActions(env: string -> Answers) returns (list: seq<Entry>, tried: nat, settled: bool)
      requires Valid() && world.proc.Idle?
      modifies this, journal
      ensures Valid() && world.proc.Idle?
      ensures InOrder(list) && tried <= |list| && (settled ==> tried == |list|)
      ensures forall e :: e in list <==>
                e.action.id in old(journal.entries) && old(journal.entries)[e.action.id] == e && e.state != Reported
      ensures world == RunFrom(old(world), RecoveringAll(list[..tried], old(now), env))
    {
      list := journal.ListRecoverable();
      OrderIsDistinct(list);
      assert forall k :: 0 <= k < |list| ==> list[k] in list;
      tried, settled := 0, true;
      while tried < |list|
        invariant tried <= |list| && settled && now == ClockAfter(list[..tried], old(now), env)
        invariant Valid() && world.proc.Idle?
        invariant world == RunFrom(old(world), RecoveringAll(list[..tried], old(now), env))
        invariant UpToDate(journal.entries, list, tried)
      {
        var e := list[tried];
        var answers := env(e.action.id);
        RecoveringNext(old(world), list, tried, old(now), env);
        ReadClock(answers.before);
        if ClaimCurrent(e.claim, now) {
          ghost var before := journal.entries;
          settled := RecoverOne(e, answers);
          UntouchedStays(before, journal.entries, list, tried);
        }
        tried := tried + 1;
        if !settled {
          return;
        }
      }
    }
  }

  /** What the clock shows after a pass over each listed action. */
  function ClockAfter(list: seq<Entry>, now: Time, env: string -> Answers): Time
    decreases |list|, 0
  {
    if list == [] then now
    else
      var e := list[|list| - 1];
      var at := ReadFor(list[..|list| - 1], e, now, env);
      if ClaimCurrent(e.claim, at) then at + env(e.action.id).between else at
  }

  /** The reading an action's lease is held against. */
  function ReadFor(earlier: seq<Entry>, e: Entry, now: Time, env: string -> Answers): Time
    decreases |earlier|, 1
  {
    ClockAfter(earlier, now, env) + env(e.action.id).before
  }

  /** The events of a pass over one entry, its lease held against this reading. */
  function RecoveringOne(e: Entry, at: Time, env: Answers): seq<Event> {
    [Tick(env.before)] + (if ClaimCurrent(e.claim, at) then Recovering(e.action.id, env) else [])
  }

  /** One recovery pass for each listed action whose lease is current when it is reached. */
  function RecoveringAll(list: seq<Entry>, now: Time, env: string -> Answers): seq<Event> {
    if list == [] then []
    else
      var init, e := list[..|list| - 1], list[|list| - 1];
      RecoveringAll(init, now, env) + RecoveringOne(e, ReadFor(init, e, now, env), env(e.action.id))
  }

  lemma RecoveringNext(w: World, list: seq<Entry>, tried: nat, now: Time, env: string -> Answers)
    requires tried < |list|
    ensures var at, e := RunFrom(w, RecoveringAll(list[..tried], now, env)), list[tried];
            var read := Step(at, Tick(env(e.action.id).before));
            var clock := ReadFor(list[..tried], e, now, env);
            && RunFrom(w, RecoveringAll(list[..tried + 1], now, env)) ==
               (if ClaimCurrent(e.claim, clock) then RunFrom(read, Recovering(e.action.id, env(e.action.id))) else read)
            && ClockAfter(list[..tried + 1], now, env) ==
               (if ClaimCurrent(e.claim, clock) then clock + env(e.action.id).between else clock)
  {
    assert list[..tried + 1][..tried] == list[..tried];
    var done, e := RecoveringAll(list[..tried], now, env), list[tried];
    var one := RecoveringOne(e, ReadFor(list[..tried], e, now, env), env(e.action.id));
    RunFromConcat(w, done, one);
    RunCons(RunFrom(w, done), Tick(env(e.action.id).before), one[1..]);
    assert one == [Tick(env(e.action.id).before)] + one[1..];
  }

  /** The rest of a snapshot is still what the table holds. */
  ghost predicate UpToDate(entries: Table, list: seq<Entry>, from: nat) {
    forall k :: from <= k < |list| ==> list[k].action.id in entries && entries[list[k].action.id] == list[k]
  }

  /** Settling one entry of a snapshot leaves the rest of the snapshot up to date. */
  lemma UntouchedStays(before: Table, after: Table, list: seq<Entry>, at: nat)
    requires at < |list| && DistinctIds(list) && OnlyAt(before, after, list[at].action.id)
    requires UpToDate(before, list, at + 1)
    ensures UpToDate(after, list, at + 1)
  {
    forall k | at < k < |list| ensures list[k].action.id in after && after[list[k].action.id] == list[k] {
      assert list[k].action.id in before - {list[at].action.id};
    }
  }
}
