/**
 Why the agent's protocol relies on what it relies on: each event it rules out
 can be followed by a run that executes an action twice, from every state in
 which it can happen.
 */
module AgentExactness {
  import opened Common
  import opened ActionJournal
  import opened AgentProtocol
  import opened AgentSafety

  predicate RanOnce(w: World) {
    forall i, j :: 0 <= i < j < |w.runs| ==> w.runs[i].id != w.runs[j].id
  }

  /** What a run leads to: the events are all owed, and the executor was entered for these ids in turn. */
  ghost predicate Leads(w: World, events: seq<Event>, more: seq<Execution>) {
    OwedRun(w, events) && RunFrom(w, events).runs == w.runs + more && RunFrom(w, events).forgotten == w.forgotten
  }

  lemma LeadsConcat(w: World, first: seq<Event>, a: seq<Execution>, second: seq<Event>, b: seq<Execution>)
    requires Leads(w, first, a) && Leads(RunFrom(w, first), second, b)
    ensures Leads(w, first + second, a + b)
  {
    OwedConcat(w, first, second);
    RunFromConcat(w, first, second);
    SameEnd(w, RunFrom(w, first), RunFrom(RunFrom(w, first), second), a, b);
  }

  lemma SameEnd(w: World, mid: World, end: World, a: seq<Execution>, b: seq<Execution>)
    requires mid.runs == w.runs + a && end.runs == mid.runs + b
    ensures end.runs == w.runs + (a + b)
  {
  }

  lemma OwedStep(w: World, ev: Event, rest: seq<Event>)
    requires Owed(w, ev) && OwedRun(Step(w, ev), rest)
    ensures OwedRun(w, [ev] + rest) && RunFrom(w, [ev] + rest) == RunFrom(Step(w, ev), rest)
  {
    assert ([ev] + rest)[1..] == rest;
  }

  ghost predicate Waits(w: World, id: string) {
    && id in w.journal.entries && w.journal.entries[id].state == Received
    && w.journal.entries[id].action.id == id && WellFormed(w.journal.entries[id])
  }

  // ----- A waiting entry runs -----

  /** A lease no entry can fail to accept. */
  function FreshLease(now: Time): Claim { Claim("fresh", if now < ZERO_TIME then ZERO_TIME + 1 else now + 1) }

  lemma Delivers(w: World, id: string)
    requires w.proc.Idle? && Waits(w, id)
    ensures var a, lease := w.journal.entries[id].action, FreshLease(w.now);
            && Owed(w, Fetch(a, lease, Durable))
            && Step(w, Fetch(a, lease, Durable)) == w.(proc := Fetched(a, lease))
  {
    SameActionReflexive(w.journal.entries[id].action);
    assert w.marked - {} == w.marked && w.forgotten - {} == w.forgotten;
  }

  lemma Arms(w: World, e: Entry)
    requires w.proc == Holding(e) && Waits(w, e.action.id) && w.journal.entries[e.action.id] == e
    requires ClaimCurrent(e.claim, w.now)
    ensures var w' := Step(w, Proceed(Durable));
            && w'.proc == Armed(e) && w'.runs == w.runs && w'.forgotten == w.forgotten
            && w'.journal == Append(w.journal, Advanced(e, Running, None), Durable)
  {
  }

  lemma Runs(w: World, e: Entry) returns (events: seq<Event>)
    requires w.proc == Holding(e) && Waits(w, e.action.id) && w.journal.entries[e.action.id] == e
    requires ClaimCurrent(e.claim, w.now)
    ensures Leads(w, events, [Execution(e.action.id, None)])
    ensures RunFrom(w, events).journal == Append(w.journal, Advanced(e, Running, None), Durable)
    ensures RunFrom(w, events).proc.Ran?
  {
    Arms(w, e);
    var armed := Step(w, Proceed(Durable));
    OwedStep(armed, Execute(None), []);
    OwedStep(w, Proceed(Durable), [Execute(None)] + []);
    events := [Proceed(Durable)] + ([Execute(None)] + []);
  }

  lemma Reruns(w: World, id: string) returns (events: seq<Event>)
    requires w.proc.Idle? && Waits(w, id)
    ensures Leads(w, events, [Execution(id, None)])
  {
    var a, lease := w.journal.entries[id].action, FreshLease(w.now);
    Delivers(w, id);
    var fetched := w.(proc := Fetched(a, lease));
    var held := Step(fetched, TakeLease(Durable));
    var rest := Runs(held, held.proc.entry);
    OwedStep(fetched, TakeLease(Durable), rest);
    OwedStep(w, Fetch(a, lease, Durable), [TakeLease(Durable)] + rest);
    events := [Fetch(a, lease, Durable)] + ([TakeLease(Durable)] + rest);
  }

  // ----- A waiting record comes back at a restart -----

  ghost predicate TableReplayed(w: World) {
    forall id :: id in w.journal.entries ==> w.journal.entries[id].action.id == id && WellFormed(w.journal.entries[id])
  }

  function Interrupted(w: World): set<string> {
    set id | id in w.journal.entries && w.journal.entries[id].state == Running
  }

  lemma {:induction false} Boots(w: World, id: string) returns (events: seq<Event>)
    requires w.proc.Booting? && Waits(w, id) && TableReplayed(w)
    ensures Leads(w, events, []) && RunFrom(w, events).proc.Idle? && Waits(RunFrom(w, events), id)
    decreases |Interrupted(w)|
  {
    if Interrupted(w) == {} {
      forall other | other in w.journal.entries ensures w.journal.entries[other].state != Running {
        assert other !in Interrupted(w);
      }
      OwedStep(w, BootDone, []);
      events := [BootDone] + [];
    } else {
      var other :| other in Interrupted(w);
      var next := Step(w, BootMark(other, Durable));
      assert Interrupted(next) == Interrupted(w) - {other};
      var rest := Boots(next, id);
      OwedStep(w, BootMark(other, Durable), rest);
      events := [BootMark(other, Durable)] + rest;
    }
  }

  /** Whatever the file opens to is what the next process starts from. */
  lemma Reopens(w: World)
    requires OpenLines(w.journal.file.lines).Opened? && w.journal.file.synced <= |w.journal.file.lines|
    ensures var down := Step(w, Crash(|w.journal.file.lines|, false));
            var up := Step(down, Boot(true));
            && up.proc.Booting? && up.journal.entries == OpenLines(w.journal.file.lines).entries && TableReplayed(up)
            && up.runs == w.runs && up.forgotten == w.forgotten
  {
    var lines := w.journal.file.lines;
    assert lines[..|lines|] == lines;
    OpenedReplays(lines);
    ReplayKeys(OpenLines(lines).kept);
  }

  lemma Restarts(w: World, id: string) returns (events: seq<Event>)
    requires w.journal.file.synced <= |w.journal.file.lines|
    requires var opening := OpenLines(w.journal.file.lines);
             opening.Opened? && id in opening.entries && opening.entries[id].state == Received
    ensures Leads(w, events, [Execution(id, None)])
  {
    Reopens(w);
    var crash := Crash(|w.journal.file.lines|, false);
    var down := Step(w, crash);
    var up := Step(down, Boot(true));
    var boot := Boots(up, id);
    var run := Reruns(RunFrom(up, boot), id);
    LeadsConcat(up, boot, [], run, [Execution(id, None)]);
    assert [] + [Execution(id, None)] == [Execution(id, None)];
    OwedStep(down, Boot(true), boot + run);
    OwedStep(w, crash, [Boot(true)] + (boot + run));
    events := [crash] + ([Boot(true)] + (boot + run));
  }

  // ----- Superseding a current lease by a failed write -----

  /** The marker under the first lease does not follow the line that names the second. */
  lemma MarkerDropped(lines: seq<Line>, e: Entry, lease: Claim)
    requires Replay(lines).Some? && e.action.id in Replay(lines).value && Replay(lines).value[e.action.id] == e
    requires e.state == Received && WellFormed(e) && ValidClaim(lease) && lease != e.claim
    ensures var second := Record(e.(claim := lease));
            OpenLines(lines + [second] + [Record(Advanced(e, Running, None))]) ==
            Opened(Replay(lines).value[e.action.id := e.(claim := lease)], lines + [second])
  {
    var second, marker := Record(e.(claim := lease)), Record(Advanced(e, Running, None));
    SameActionReflexive(e.action);
    ReplayAppend(lines, second);
    ReplayAppend(lines + [second], marker);
    assert (lines + [second] + [marker])[..|lines| + 1] == lines + [second];
  }

  lemma SupersededRunsTwice(w: World) returns (events: seq<Event>)
    requires Inv(w) && Supersedes(w, TakeLease(LineLeft))
    ensures var id := w.proc.action.id;
            Leads(Step(w, TakeLease(LineLeft)), events, [Execution(id, None), Execution(id, None)])
  {
    var id, lease := w.proc.action.id, w.proc.lease;
    var e, f := w.journal.entries[id], w.journal.file;
    var left := Step(w, TakeLease(LineLeft));
    assert Replay(f.lines).value[id] == e;
    MarkerDropped(f.lines, e, lease);
    var held := Step(left, Recover(id));
    var first := Runs(held, e);
    var second := Restarts(RunFrom(held, first), id);
    LeadsConcat(held, first, [Execution(id, None)], second, [Execution(id, None)]);
    OwedStep(left, Recover(id), first + second);
    events := [Recover(id)] + (first + second);
    assert [Execution(id, None)] + [Execution(id, None)] == [Execution(id, None), Execution(id, None)];
  }

  // ----- Delivering an executed action anew -----

  lemma ForgottenIsUnknown(w: World, id: string)
    requires Inv(w) && w.proc.Idle? && id !in w.journal.entries && Executed(w.runs, id)
    ensures Replay(w.journal.file.lines).Some? ==> id !in Replay(w.journal.file.lines).value
  {
    var lines := w.journal.file.lines;
    ReplayKeys(lines);
    assert lines[..|lines|] == lines && Forgets(lines[..|lines|], w.forgotten);
  }

  lemma RedeliveredRunsAgain(w: World, a: Action, lease: Claim, o: WriteOutcome) returns (events: seq<Event>)
    requires Inv(w) && Redelivers(w, Fetch(a, lease, o))
    ensures Leads(Step(w, Fetch(a, lease, o)), events, [Execution(a.id, None)])
  {
    var after := Step(w, Fetch(a, lease, o));
    if o.Durable? {
      var idle := Step(after, TakeLease(NothingWritten));
      var rest := Reruns(idle, a.id);
      OwedStep(after, TakeLease(NothingWritten), rest);
      events := [TakeLease(NothingWritten)] + rest;
    } else {
      ForgottenIsUnknown(w, a.id);
      ReplayAppend(w.journal.file.lines, Record(Entry(a, Received, None, Unclaimed)));
      events := Restarts(after, a.id);
    }
  }

  // ----- Exactly what is owed -----

  lemma TwiceIsTwice(runs: seq<Execution>, id: string)
    requires Executed(runs, id)
    ensures var more := runs + [Execution(id, None)];
            exists i, j :: 0 <= i < j < |more| && more[i].id == more[j].id
  {
    var i :| 0 <= i < |runs| && runs[i].id == id;
    var more := runs + [Execution(id, None)];
    assert more[i].id == more[|runs|].id;
  }

  ghost predicate SafeFrom(w: World) {
    forall events :: OwedRun(w, events) ==> RanOnce(RunFrom(w, events))
  }

  /**
   In every state a run can reach, an event leaves every run that then keeps to
   what is owed executing each action at most once, if and only if it was itself
   owed.
   */
  lemma OwedIff(w: World, ev: Event)
    requires Inv(w)
    ensures SafeFrom(Step(w, ev)) <==> Owed(w, ev)
  {
    var after := Step(w, ev);
    if Owed(w, ev) {
      StepKeeps(w, ev);
      forall events | OwedRun(after, events) ensures RanOnce(RunFrom(after, events)) {
        RunKeeps(after, events);
      }
    } else if Redelivers(w, ev) {
      var events := RedeliveredRunsAgain(w, ev.action, ev.lease, ev.w);
      TwiceIsTwice(w.runs, ev.action.id);
    } else {
      var id := w.proc.action.id;
      var events := SupersededRunsTwice(w);
      var once := w.runs + [Execution(id, None)];
      assert once[|w.runs|].id == id;
      TwiceIsTwice(once, id);
      assert once + [Execution(id, None)] == w.runs + [Execution(id, None), Execution(id, None)];
    }
  }

  // ----- Two runs from a fresh node -----

  const RESET := Action("a", "gpu_reset", map[], 60)
  const FIRST_LEASE := Claim("lease-1", 100)
  const SECOND_LEASE := Claim("lease-2", 200)

  function Waited(lease: Claim): Entry { Entry(RESET, Received, None, lease) }

  function Started(lease: Claim): Entry { Entry(RESET, Running, None, lease) }

  predicate Along(w: World, events: seq<Event>, next: World) {
    events != [] && Step(w, events[0]) == next
  }

  lemma FollowEvent(w: World, events: seq<Event>, next: World)
    requires Along(w, events, next)
    ensures RunFrom(w, events) == RunFrom(next, events[1..])
  {
  }

  const WAITING: seq<Line> := [Record(Waited(Unclaimed)), Record(Waited(FIRST_LEASE))]

  lemma WaitingReplays()
    ensures Replay(WAITING) == Some(map["a" := Waited(FIRST_LEASE)])
  {
    SameActionReflexive(RESET);
    ReplayAppend([], WAITING[0]);
    assert WAITING[..1] == [] + [WAITING[0]];
    ReplayAppend(WAITING[..1], WAITING[1]);
    assert WAITING == WAITING[..1] + [WAITING[1]];
    assert Replay(WAITING).value == map["a" := Waited(FIRST_LEASE)];
  }

  const DELIVERED: seq<Event> :=
    [Boot(true), BootDone, Fetch(RESET, FIRST_LEASE, Durable), TakeLease(Durable), Proceed(NothingWritten)]

  const AFTER_DELIVERY: World :=
    World(1, Journal(map["a" := Waited(FIRST_LEASE)], File(WAITING, false, 2)), Idle, [], [], {}, {})

  lemma DeliveredRun()
    ensures RunFrom(Start(1), DELIVERED) == AFTER_DELIVERY
  {
    BootedEmpty();
    FollowEvent(Start(1), DELIVERED, Start(1).(proc := Booting));
    FollowEvent(Start(1).(proc := Booting), DELIVERED[1..], Start(1).(proc := Idle));
    FirstDelivery();
    var fetched := Start(1).(journal := Journal(map["a" := Waited(Unclaimed)], File(WAITING[..1], false, 1)),
                             proc := Fetched(RESET, FIRST_LEASE));
    FollowEvent(Start(1).(proc := Idle), DELIVERED[2..], fetched);
    FollowEvent(fetched, DELIVERED[3..], HELD);
    FollowEvent(HELD, DELIVERED[4..], AFTER_DELIVERY);
  }

  const HELD: World := AFTER_DELIVERY.(proc := Holding(Waited(FIRST_LEASE)))

  lemma BootedEmpty()
    ensures Step(Start(1), Boot(true)) == Start(1).(proc := Booting)
    ensures Step(Start(1).(proc := Booting), BootDone) == Start(1).(proc := Idle)
  {
  }

  lemma FirstDelivery()
    ensures var fetched := Start(1).(journal := Journal(map["a" := Waited(Unclaimed)], File(WAITING[..1], false, 1)),
                                     proc := Fetched(RESET, FIRST_LEASE));
            && Step(Start(1).(proc := Idle), Fetch(RESET, FIRST_LEASE, Durable)) == fetched
            && Step(fetched, TakeLease(Durable)) == HELD
            && Step(HELD, Proceed(NothingWritten)) == AFTER_DELIVERY
  {
  }

  const REFETCHED: World := AFTER_DELIVERY.(proc := Fetched(RESET, SECOND_LEASE))

  lemma SecondDelivery()
    ensures Step(AFTER_DELIVERY, Fetch(RESET, SECOND_LEASE, Durable)) == REFETCHED
    ensures Inv(REFETCHED) && Supersedes(REFETCHED, TakeLease(LineLeft))
  {
    SameActionReflexive(RESET);
    WaitingReplays();
    assert {} - {"a"} == {};
  }

  /**
   A second lease delivered while the first is still current, whose claim record
   reaches the file although its fsync fails, makes the restart drop the running
   marker written under the first lease: the action is executed again.
   */
  lemma OverlappingLeasesRunTwice()
    ensures exists events ::
              CountRuns(RunFrom(Start(1), events).runs, "a") == 2 && RunFrom(Start(1), events).forgotten == {}
  {
    var again := [Fetch(RESET, SECOND_LEASE, Durable)] + [TakeLease(LineLeft)];
    DeliveredRun();
    SecondDelivery();
    RunFromConcat(AFTER_DELIVERY, [Fetch(RESET, SECOND_LEASE, Durable)], [TakeLease(LineLeft)]);
    RunFromOne(AFTER_DELIVERY, Fetch(RESET, SECOND_LEASE, Durable));
    RunFromOne(REFETCHED, TakeLease(LineLeft));
    var rest := SupersededRunsTwice(REFETCHED);
    var events := DELIVERED + (again + rest);
    RunFromConcat(AFTER_DELIVERY, again, rest);
    RunFromConcat(Start(1), DELIVERED, again + rest);
    CountTwice(RunFrom(Start(1), events).runs);
  }

  const FINISHED: seq<Event> :=
    [Proceed(Durable), Execute(None), Settle(Durable), Send(true, true), Acknowledge(Durable), Compact([], true)]

  const REDELIVERED: seq<Event> :=
    [Fetch(RESET, SECOND_LEASE, Durable), TakeLease(Durable), Proceed(Durable), Execute(None)]

  const COMPACTED: World :=
    World(1, Journal(map[], File([], false, 0)), Idle, [Execution("a", None)],
          [Post("a", UnknownResult("a"))], {"a"}, {"a"})

  lemma DeliveredAndHeld()
    ensures RunFrom(Start(1), DELIVERED + [Recover("a")]) == HELD
  {
    DeliveredRun();
    RunFromConcat(Start(1), DELIVERED, [Recover("a")]);
    RunFromOne(AFTER_DELIVERY, Recover("a"));
  }

  const MARKED: World :=
    World(1, Journal(map["a" := Started(FIRST_LEASE)], File(WAITING + [Record(Started(FIRST_LEASE))], false, 3)),
          Armed(Waited(FIRST_LEASE)), [], [], {"a"}, {})

  const UNKNOWN_ENTRY := Entry(RESET, OutcomeUnknown, None, FIRST_LEASE)

  const SETTLED: World :=
    MARKED.(journal := Journal(map["a" := UNKNOWN_ENTRY],
                               File(MARKED.journal.file.lines + [Record(UNKNOWN_ENTRY)], false, 4)),
            proc := Reporting(FIRST_LEASE, UNKNOWN_ENTRY, UnknownResult("a")), runs := [Execution("a", None)])

  const REPORTED_ENTRY := Entry(RESET, Reported, None, Unclaimed)

  const SETTLED_IDLE: World :=
    SETTLED.(journal := Journal(map["a" := REPORTED_ENTRY], File(SETTLED.journal.file.lines + [Record(REPORTED_ENTRY)],
             false, 5)),
             proc := Idle, posts := [Post("a", UnknownResult("a"))])

  lemma MarkAndRun()
    ensures Step(HELD, Proceed(Durable)) == MARKED
    ensures Step(MARKED, Execute(None)) ==
            MARKED.(proc := Ran(Waited(FIRST_LEASE), None), runs := [Execution("a", None)])
  {
  }

  lemma SettleAndSend()
    ensures Step(MARKED.(proc := Ran(Waited(FIRST_LEASE), None), runs := [Execution("a", None)]), Settle(Durable)) ==
            SETTLED
    ensures Step(SETTLED, Send(true, true)) == SETTLED.(proc := Acked("a"), posts := [Post("a", UnknownResult("a"))])
  {
  }

  lemma AcknowledgeAndCompact()
    ensures Step(SETTLED.(proc := Acked("a"), posts := [Post("a", UnknownResult("a"))]), Acknowledge(Durable)) ==
            SETTLED_IDLE
    ensures Step(SETTLED_IDLE, Compact([], true)) == COMPACTED
  {
    var entries := SETTLED_IDLE.journal.entries;
    assert Histories(Picked(entries, [])) == [];
    assert (set id | id in entries && id !in []) == {"a"};
    assert entries - {"a"} == map[];
  }

  lemma FinishedRun()
    ensures RunFrom(HELD, FINISHED) == COMPACTED
  {
    MarkAndRun();
    FollowEvent(HELD, FINISHED, MARKED);
    var ran := MARKED.(proc := Ran(Waited(FIRST_LEASE), None), runs := [Execution("a", None)]);
    FollowEvent(MARKED, FINISHED[1..], ran);
    SettleAndSend();
    FollowEvent(ran, FINISHED[2..], SETTLED);
    var acked := SETTLED.(proc := Acked("a"), posts := [Post("a", UnknownResult("a"))]);
    FollowEvent(SETTLED, FINISHED[3..], acked);
    AcknowledgeAndCompact();
    FollowEvent(acked, FINISHED[4..], SETTLED_IDLE);
    FollowEvent(SETTLED_IDLE, FINISHED[5..], COMPACTED);
  }

  lemma RedeliveredRun()
    ensures RunFrom(COMPACTED, REDELIVERED).runs == [Execution("a", None), Execution("a", None)]
  {
    var w1 := Step(COMPACTED, REDELIVERED[0]);
    FollowEvent(COMPACTED, REDELIVERED, w1);
    var w2 := Step(w1, REDELIVERED[1]);
    FollowEvent(w1, REDELIVERED[1..], w2);
    var w3 := Step(w2, REDELIVERED[2]);
    assert w3.proc == Armed(Waited(SECOND_LEASE));
    FollowEvent(w2, REDELIVERED[2..], w3);
    FollowEvent(w3, REDELIVERED[3..], Step(w3, REDELIVERED[3]));
  }

  /** The write behind the event, if any, either succeeded or left nothing. */
  predicate CleanWrite(ev: Event) {
    (ev.BootMark? || ev.Fetch? || ev.TakeLease? || ev.Proceed? || ev.Settle? || ev.SettleUnknown? ||
     ev.Acknowledge?) ==>
      ev.w.Durable? || ev.w.NothingWritten?
  }

  predicate CleanWrites(events: seq<Event>) {
    forall i :: 0 <= i < |events| ==> CleanWrite(events[i])
  }

  /** An acknowledged action delivered again after compaction dropped it looks fresh, and runs again. */
  lemma LateRedeliveryRunsTwice()
    ensures exists events ::
              CountRuns(RunFrom(Start(1), events).runs, "a") == 2 && CleanWrites(events)
  {
    var first := DELIVERED + [Recover("a")];
    var events := first + (FINISHED + REDELIVERED);
    RunFromConcat(Start(1), first, FINISHED + REDELIVERED);
    DeliveredAndHeld();
    RunFromConcat(HELD, FINISHED, REDELIVERED);
    FinishedRun();
    RedeliveredRun();
    CountTwice(RunFrom(Start(1), events).runs);
    CleanParts();
    CleanConcat(DELIVERED, [Recover("a")]);
    CleanConcat(FINISHED, REDELIVERED);
    CleanConcat(first, FINISHED + REDELIVERED);
  }

  lemma CleanParts()
    ensures CleanWrites(DELIVERED) && CleanWrites([Recover("a")]) && CleanWrites(FINISHED) && CleanWrites(REDELIVERED)
  {
  }

  lemma CleanConcat(a: seq<Event>, b: seq<Event>)
    requires CleanWrites(a) && CleanWrites(b)
    ensures CleanWrites(a + b)
  {
  }

  lemma CountTwice(runs: seq<Execution>)
    requires runs == [Execution("a", None), Execution("a", None)]
    ensures CountRuns(runs, "a") == 2
  {
    assert runs[..1] == [Execution("a", None)];
    assert runs[..1][..0] == [];
    assert CountRuns(runs[..1], "a") == 1;
  }
}
