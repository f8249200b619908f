/**
 The agent's action loop over its journal, as a transition system.

 Every step between two durable writes, every write outcome, every lost POST,
 every clock advance and every crash is an event, so a run of events covers a
 process that dies at any point. AgentProcess.dfy shows that the agent's methods
 perform only these events.
 */
module AgentProtocol {
  import opened Common
  import opened ActionJournal

  datatype Execution = Execution(id: string, result: Option<ActionResult>)

  datatype Post = Post(id: string, result: ActionResult)

  /** Where the single action goroutine stands. */
  datatype Proc =
    | Down
    | Booting
    | Idle
    | Fetched(action: Action, lease: Claim)
    | Holding(entry: Entry)
    | Armed(entry: Entry)
    | Ran(entry: Entry, result: Option<ActionResult>)
    | Unsettled(entry: Entry)
    | Reporting(lease: Claim, entry: Entry, report: ActionResult)
    | Acked(id: string)

  /**
   runs, posts, marked and forgotten are history: what the executor was entered
   for, what was sent, which running markers were made durable, and which
   reported entries compaction dropped. The last two speak of an action's latest
   stay in the journal.
   */
  datatype World = World(
    now: Time, journal: Journal, proc: Proc,
    runs: seq<Execution>, posts: seq<Post>, marked: set<string>, forgotten: set<string>)

  datatype Event =
    | Tick(elapsed: nat)
    | Crash(keep: nat, torn: bool)
    | Boot(rewritten: bool)
    | BootMark(id: string, w: WriteOutcome)
    | BootDone
    | Compact(order: seq<string>, committed: bool)
    | Fetch(action: Action, lease: Claim, w: WriteOutcome)
    | TakeLease(w: WriteOutcome)
    | Recover(id: string)
    | Proceed(w: WriteOutcome)
    | Execute(result: Option<ActionResult>)
    | Settle(w: WriteOutcome)
    | SettleUnknown(w: WriteOutcome)
    | Send(arrived: bool, acknowledged: bool)
    | Acknowledge(w: WriteOutcome)

  predicate ClaimCurrent(c: Claim, now: Time) {
    ValidClaim(c) && c.expiresAt > now
  }

  function UnknownResult(id: string): ActionResult {
    ActionResult(id, false, "action outcome is unknown after an interrupted agent; automatic retry refused")
  }

  function Entries(w: World): Table { w.journal.entries }

  // ----- The steps -----

  function Reopen(w: World, rewritten: bool): World {
    var f := w.journal.file;
    match OpenLines(f.lines)
    case Corrupt => w
    case Opened(m, kept) =>
      if kept == f.lines && !f.torn then w.(journal := Journal(m, f), proc := Booting)
      else if rewritten then w.(journal := Journal(m, File(kept, false, |kept|)), proc := Booting)
      else w
  }

  /**
   The survivors, in the order they are rewritten. An entry already old enough to
   be dropped once is old enough to be dropped again.
   */
  predicate CompactionOrder(entries: Table, order: seq<string>, forgotten: set<string>) {
    && (forall i, j :: 0 <= i < j < |order| ==> order[i] != order[j])
    && (forall i :: 0 <= i < |order| ==> order[i] in entries && order[i] !in forgotten)
    && (forall id :: id in entries && id !in order ==> entries[id].state == Reported)
  }

  function Picked(entries: Table, order: seq<string>): seq<Entry>
    requires forall i :: 0 <= i < |order| ==> order[i] in entries
  {
    seq(|order|, i requires 0 <= i < |order| => entries[order[i]])
  }

  function CompactStep(w: World, order: seq<string>, committed: bool): World {
    var entries := Entries(w);
    if !CompactionOrder(entries, order, w.forgotten) then w
    else
      var lines := Histories(Picked(entries, order));
      var dropped := set id | id in entries && id !in order;
      w.(journal := Journal(if committed then entries - dropped else entries, File(lines, false, |lines|)),
         forgotten := w.forgotten + dropped)
  }

  /** A record appended to this file replays. */
  predicate Alive(f: File) { !f.torn && Replay(f.lines).Some? }

  /** The record reaches the table, or the file for the next open to find. */
  predicate Joins(f: File, o: WriteOutcome) { o.Durable? || (o.LineLeft? && Alive(f)) }

  /** The action starts a new stay in the journal. */
  predicate Arrives(w: World, id: string, o: WriteOutcome) {
    id !in Entries(w) && Joins(w.journal.file, o)
  }

  function FetchStep(w: World, a: Action, lease: Claim, o: WriteOutcome): World {
    if !ValidClaim(lease) then w
    else
      var (j, r) := RecordReceived(w.journal, a, o);
      var anew := if Arrives(w, a.id, o) then {a.id} else {};
      w.(journal := j, proc := if r.Ok? then Fetched(a, lease) else Idle,
         marked := w.marked - anew, forgotten := w.forgotten - anew)
  }

  function TakeLeaseStep(w: World, o: WriteOutcome): World
    requires w.proc.Fetched?
  {
    var (j, r) := SetClaim(w.journal, w.proc.action.id, w.proc.lease, o);
    w.(journal := j, proc := if r.Ok? then Holding(r.entry) else Idle)
  }

  function ReportFor(e: Entry, r: ActionResult): Proc {
    Reporting(e.claim, e, r)
  }

  function ProceedStep(w: World, o: WriteOutcome): World
    requires w.proc.Holding?
  {
    var e := w.proc.entry;
    var id := e.action.id;
    if !ClaimCurrent(e.claim, w.now) then w.(proc := Idle)
    else match e.state
      case Received =>
        var (j, r) := Transition(w.journal, id, Running, None, o);
        if r.Ok? then w.(journal := j, proc := Armed(e), marked := w.marked + {id})
        else w.(journal := j, proc := Idle)
      case OutcomeKnown =>
        if e.result.Some? then w.(proc := ReportFor(e, e.result.value)) else w.(proc := Idle)
      case OutcomeUnknown => w.(proc := ReportFor(e, UnknownResult(id)))
      case Running =>
        var (j, r) := Transition(w.journal, id, OutcomeUnknown, None, o);
        w.(journal := j, proc := if r.Ok? then Reporting(e.claim, r.entry, UnknownResult(id)) else Idle)
      case Reported => w.(proc := Idle)
  }

  function UnknownStep(w: World, e: Entry, o: WriteOutcome): World {
    var (j, r) := Transition(w.journal, e.action.id, OutcomeUnknown, None, o);
    w.(journal := j, proc := if r.Ok? then Reporting(e.claim, r.entry, UnknownResult(e.action.id)) else Idle)
  }

  function SettleStep(w: World, o: WriteOutcome): World
    requires w.proc.Ran?
  {
    var e := w.proc.entry;
    if w.proc.result.None? then UnknownStep(w, e, o)
    else
      var (j, r) := Transition(w.journal, e.action.id, OutcomeKnown, w.proc.result, o);
      w.(journal := j, proc := if r.Ok? then Reporting(e.claim, r.entry, w.proc.result.value) else Unsettled(e))
  }

  function SendStep(w: World, arrived: bool, acknowledged: bool): World
    requires w.proc.Reporting?
  {
    var id := w.proc.entry.action.id;
    if w.proc.entry.claim != w.proc.lease then w.(proc := Idle)
    else
      w.(posts := if arrived then w.posts + [Post(id, w.proc.report)] else w.posts,
         proc := if arrived && acknowledged then Acked(id) else Idle)
  }

  /** An event that does not fit where the process stands changes nothing. */
  function Step(w: World, ev: Event): World {
    match ev
    case Tick(d) => w.(now := w.now + d)
    case Crash(keep, torn) =>
      var f := w.journal.file;
      if f.synced <= keep <= |f.lines| then
        w.(journal := Journal(map[], File(f.lines[..keep], torn, keep)), proc := Down)
      else w
    case Boot(rewritten) => if w.proc.Down? then Reopen(w, rewritten) else w
    case BootMark(id, o) =>
      if w.proc.Booting? && id in Entries(w) && Entries(w)[id].state == Running then
        var j := Append(w.journal, Advanced(Entries(w)[id], OutcomeUnknown, None), o);
        if o.Durable? then w.(journal := j) else w.(journal := Journal(map[], j.file), proc := Down)
      else w
    case BootDone =>
      if w.proc.Booting? && forall id :: id in Entries(w) ==> Entries(w)[id].state != Running
      then w.(proc := Idle) else w
    case Compact(order, committed) =>
      if w.proc.Down? || w.proc.Booting? then w else CompactStep(w, order, committed)
    case Fetch(a, lease, o) => if w.proc.Idle? then FetchStep(w, a, lease, o) else w
    case TakeLease(o) => if w.proc.Fetched? then TakeLeaseStep(w, o) else w
    case Recover(id) =>
      if w.proc.Idle? && id in Entries(w) && Entries(w)[id].state != Reported &&
         ClaimCurrent(Entries(w)[id].claim, w.now)
      then w.(proc := Holding(Entries(w)[id])) else w
    case Proceed(o) => if w.proc.Holding? then ProceedStep(w, o) else w
    case Execute(result) =>
      if w.proc.Armed? then
        w.(runs := w.runs + [Execution(w.proc.entry.action.id, result)], proc := Ran(w.proc.entry, result))
      else w
    case Settle(o) => if w.proc.Ran? then SettleStep(w, o) else w
    case SettleUnknown(o) => if w.proc.Unsettled? then UnknownStep(w, w.proc.entry, o) else w
    case Send(arrived, acknowledged) => if w.proc.Reporting? then SendStep(w, arrived, acknowledged) else w
    case Acknowledge(o) =>
      if w.proc.Acked? then w.(journal := Transition(w.journal, w.proc.id, Reported, None, o).0, proc := Idle) else w
  }

  function RunFrom(w: World, events: seq<Event>): World
    decreases |events|
  {
    if events == [] then w else RunFrom(Step(w, events[0]), events[1..])
  }

  lemma {:induction false} RunFromConcat(w: World, first: seq<Event>, second: seq<Event>)
    ensures RunFrom(w, first + second) == RunFrom(RunFrom(w, first), second)
    decreases |first|
  {
    if first == [] {
      assert first + second == second;
    } else {
      assert (first + second)[1..] == first[1..] + second;
      RunFromConcat(Step(w, first[0]), first[1..], second);
    }
  }

  lemma RunFromOne(w: World, ev: Event)
    ensures RunFrom(w, [ev]) == Step(w, ev)
  {
    assert [ev][1..] == [];
  }

  /** A fresh node: an empty journal file and no process. */
  function Start(now: Time): World {
    World(now, Journal(map[], File([], false, 0)), Down, [], [], {}, {})
  }

  predicate Executed(runs: seq<Execution>, id: string) {
    exists i :: 0 <= i < |runs| && runs[i].id == id
  }

  /** The delivery makes a new entry for an action the executor was already entered for. */
  predicate Redelivers(w: World, ev: Event) {
    && ev.Fetch? && w.proc.Idle? && ValidClaim(ev.lease)
    && Arrives(w, ev.action.id, ev.w) && Executed(w.runs, ev.action.id)
  }

  /** The lease differs from the current one of an entry that waits, in the table and on file. */
  predicate Replaces(w: World, lease: Claim, id: string) {
    && id in Entries(w) && Entries(w)[id].state == Received
    && ClaimCurrent(Entries(w)[id].claim, w.now) && Entries(w)[id].claim != lease
    && Alive(w.journal.file)
    && var replayed := Replay(w.journal.file.lines).value;
       id in replayed && replayed[id].state == Received
  }

  predicate Supersedes(w: World, ev: Event) {
    ev.TakeLease? && w.proc.Fetched? && ev.w.LineLeft? && Replaces(w, w.proc.lease, w.proc.action.id)
  }

  /**
   What the protocol relies on: an executed action is not delivered again once its
   acknowledged entry aged out of the journal, and a lease replacing the current one
   of a waiting entry is not written to the file by a write reported as failed. A
   controller that waits for a lease to expire before issuing the next owes nothing
   under the second clause.
   */
  predicate Owed(w: World, ev: Event) {
    !Redelivers(w, ev) && !Supersedes(w, ev)
  }

  predicate OwedRun(w: World, events: seq<Event>)
    decreases |events|
  {
    events != [] ==> Owed(w, events[0]) && OwedRun(Step(w, events[0]), events[1..])
  }

  lemma {:induction false} OwedConcat(w: World, first: seq<Event>, second: seq<Event>)
    requires OwedRun(w, first) && OwedRun(RunFrom(w, first), second)
    ensures OwedRun(w, first + second)
    decreases |first|
  {
    if first == [] {
      assert first + second == second;
    } else {
      assert (first + second)[1..] == first[1..] + second;
      OwedConcat(Step(w, first[0]), first[1..], second);
    }
  }
}
