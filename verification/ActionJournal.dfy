/**
 The agent's write-ahead action journal: an in-memory table of entries and the
 append-only file behind it.

 A file is a sequence of terminated lines, optionally followed by an
 unterminated fragment. A write can be durable, leave nothing, leave a
 fragment, or leave the whole line while still reporting an error (a failed
 fsync). Reopening replays the lines.
 */
module ActionJournal {
  import opened Common

  datatype State = Received | Running | OutcomeKnown | OutcomeUnknown | Reported

  datatype Action = Action(id: string, kind: string, params: map<string, string>, timeout: int)

  datatype ActionResult = ActionResult(actionId: string, ok: bool, detail: string)

  datatype Claim = Unclaimed | Claim(token: string, expiresAt: Time)

  datatype Entry = Entry(action: Action, state: State, result: Option<ActionResult>, claim: Claim)

  type Table = map<string, Entry>

  datatype Line = Record(entry: Entry) | Garbage

  datatype File = File(lines: seq<Line>, torn: bool, synced: nat)

  datatype WriteOutcome = Durable | NothingWritten | FragmentLeft | LineLeft

  datatype Journal = Journal(entries: Table, file: File)

  function Lookup(params: map<string, string>, key: string): string {
    if key in params then params[key] else ""
  }

  /** Two deliveries carry the same intent. A missing parameter reads as empty. */
  predicate SameAction(a: Action, b: Action) {
    && a.id == b.id && a.kind == b.kind && a.timeout == b.timeout
    && |a.params| == |b.params|
    && forall key :: key in a.params ==> Lookup(b.params, key) == a.params[key]
  }

  predicate ValidClaim(c: Claim) {
    c.Claim? && c.token != "" && c.expiresAt != ZERO_TIME
  }

  predicate WellFormed(e: Entry) {
    && (e.claim.Claim? ==> ValidClaim(e.claim))
    && (e.result.Some? ==> e.result.value.actionId == e.action.id)
    && match e.state
       case Received | Running | OutcomeUnknown => e.result.None?
       case OutcomeKnown => e.result.Some?
       case Reported => e.claim.Unclaimed?
  }

  predicate AllowedTransition(current: State, next: State) {
    match current
    case Received => next == Running || next == OutcomeUnknown
    case Running => next == OutcomeKnown || next == OutcomeUnknown
    case OutcomeKnown | OutcomeUnknown => next == Reported
    case Reported => false
  }

  // ----- Replaying a file -----

  /** Whether one more record may follow what has been replayed so far. */
  predicate Admits(m: Table, e: Entry) {
    && WellFormed(e)
    && var id := e.action.id;
       if id !in m then e.state == Received
       else
         var current := m[id];
         && SameAction(current.action, e.action)
         && if current.state == e.state then
              && current.result == e.result
              && (current.claim == e.claim || (current.state != Reported && e.claim.Claim?))
            else
              && AllowedTransition(current.state, e.state)
              && (e.state == Reported ==> current.result == e.result)
              && (e.state != Reported ==> current.claim == e.claim)
  }

  /** Replays every line strictly: None as soon as one of them is not admitted. */
  function Replay(lines: seq<Line>): Option<Table> {
    if lines == [] then Some(map[])
    else
      var last := lines[|lines| - 1];
      match Replay(lines[..|lines| - 1])
      case None => None
      case Some(m) =>
        if last.Record? && Admits(m, last.entry) then Some(m[last.entry.action.id := last.entry])
        else None
  }

  datatype OpenResult = Opened(entries: Table, kept: seq<Line>) | Corrupt

  /**
   Opening a file. A last record that is syntactically complete but not admitted
   counts as a torn append and is dropped; anything else that does not replay is
   corruption, and the agent gets no journal.
   */
  function OpenLines(lines: seq<Line>): OpenResult {
    match Replay(lines)
    case Some(m) => Opened(m, lines)
    case None =>
      if lines[|lines| - 1].Record? && Replay(lines[..|lines| - 1]).Some? then
        Opened(Replay(lines[..|lines| - 1]).value, lines[..|lines| - 1])
      else Corrupt
  }

  lemma ReplayAppend(lines: seq<Line>, last: Line)
    ensures Replay(lines).None? || last.Garbage? ==> Replay(lines + [last]).None?
    ensures Replay(lines).Some? && last.Record? && Admits(Replay(lines).value, last.entry) ==>
              Replay(lines + [last]) == Some(Replay(lines).value[last.entry.action.id := last.entry])
    ensures Replay(lines).Some? && last.Record? && !Admits(Replay(lines).value, last.entry) ==>
              Replay(lines + [last]).None?
  {
    assert (lines + [last])[..|lines|] == lines;
  }

  lemma {:induction false} ReplayKeys(lines: seq<Line>)
    ensures Replay(lines).Some? ==>
              forall id :: id in Replay(lines).value ==>
                Replay(lines).value[id].action.id == id && WellFormed(Replay(lines).value[id])
    ensures Replay(lines).Some? ==>
              forall id :: id in Replay(lines).value ==> Record(Replay(lines).value[id]) in lines
  {
    if lines != [] {
      ReplayKeys(lines[..|lines| - 1]);
    }
  }

  // ----- What a restart can no longer undo -----

  predicate Begun(r: OpenResult, id: string) {
    r.Corrupt? || (id in r.entries && r.entries[id].state != Received)
  }

  /**
   Whatever is appended after these lines, an open of the file either refuses or
   reports the action as already begun.
   */
  ghost predicate Sealed(lines: seq<Line>, id: string) {
    forall tail: seq<Line> :: Begun(OpenLines(lines + tail), id)
  }

  lemma SealedExtends(lines: seq<Line>, more: seq<Line>, id: string)
    requires Sealed(lines, id)
    ensures Sealed(lines + more, id)
  {
    forall tail: seq<Line> ensures Begun(OpenLines(lines + more + tail), id) {
      assert lines + more + tail == lines + (more + tail);
    }
  }

  lemma SealedPrefix(lines: seq<Line>, n: nat, id: string)
    requires n <= |lines| && Sealed(lines[..n], id)
    ensures Sealed(lines, id)
  {
    SealedExtends(lines[..n], lines[n..], id);
    assert lines[..n] + lines[n..] == lines;
  }

  lemma {:induction false} BegunStays(lines: seq<Line>, tail: seq<Line>, id: string)
    requires Replay(lines).Some? && id in Replay(lines).value && Replay(lines).value[id].state != Received
    ensures Replay(lines + tail).Some? ==>
              id in Replay(lines + tail).value && Replay(lines + tail).value[id].state != Received
  {
    if tail == [] {
      assert lines + tail == lines;
    } else {
      var shorter := tail[..|tail| - 1];
      BegunStays(lines, shorter, id);
      assert lines + tail == (lines + shorter) + [tail[|tail| - 1]];
      ReplayAppend(lines + shorter, tail[|tail| - 1]);
    }
  }

  lemma {:induction false} DeadStays(lines: seq<Line>, tail: seq<Line>)
    requires Replay(lines).None?
    ensures Replay(lines + tail).None?
  {
    if tail == [] {
      assert lines + tail == lines;
    } else {
      var shorter := tail[..|tail| - 1];
      DeadStays(lines, shorter);
      assert lines + tail == (lines + shorter) + [tail[|tail| - 1]];
      ReplayAppend(lines + shorter, tail[|tail| - 1]);
    }
  }

  lemma SealedByReplay(lines: seq<Line>, id: string)
    requires Replay(lines).Some? && id in Replay(lines).value && Replay(lines).value[id].state != Received
    ensures Sealed(lines, id)
  {
    forall tail: seq<Line> ensures Begun(OpenLines(lines + tail), id) {
      BegunStays(lines, tail, id);
      if tail == [] {
        assert lines + tail == lines;
      } else {
        assert (lines + tail)[..|lines + tail| - 1] == lines + tail[..|tail| - 1];
        BegunStays(lines, tail[..|tail| - 1], id);
      }
    }
  }

  /** A terminated line that is not a record refuses every later open. */
  lemma SealedByGarbage(lines: seq<Line>, id: string)
    ensures Sealed(lines + [Garbage], id)
  {
    var dead := lines + [Garbage];
    ReplayAppend(lines, Garbage);
    forall tail: seq<Line> ensures Begun(OpenLines(dead + tail), id) {
      DeadStays(dead, tail);
      if tail == [] {
        assert dead + tail == dead;
      } else {
        assert (dead + tail)[..|dead + tail| - 1] == dead + tail[..|tail| - 1];
        DeadStays(dead, tail[..|tail| - 1]);
      }
    }
  }

  /** Two lines past the last admitted prefix, no open succeeds any more. */
  lemma SealedByCorruption(lines: seq<Line>, last: Line, id: string)
    requires Replay(lines).None?
    ensures Sealed(lines + [last], id)
  {
    var dead := lines + [last];
    forall tail: seq<Line> ensures Begun(OpenLines(dead + tail), id) {
      assert dead + tail == lines + ([last] + tail);
      DeadStays(lines, [last] + tail);
      assert (dead + tail)[..|dead + tail| - 1] == lines + ([last] + tail)[..|tail|];
      DeadStays(lines, ([last] + tail)[..|tail|]);
    }
  }

  /**
   A durable running marker survives every later restart exactly when the claim
   it carries is the claim the file last recorded for the action: a mismatch
   makes the marker look like a torn append, and the reopen drops it.
   */
  lemma MarkerSurvives(lines: seq<Line>, e: Entry)
    requires WellFormed(e) && e.state == Received
    requires Replay(lines).Some? && e.action.id in Replay(lines).value
    requires Replay(lines).value[e.action.id].state == Received
    requires SameAction(Replay(lines).value[e.action.id].action, e.action)
    ensures Sealed(lines + [Record(e.(state := Running))], e.action.id) <==>
            Replay(lines).value[e.action.id].claim == e.claim
  {
    var marker := Record(e.(state := Running));
    var id := e.action.id;
    ReplayAppend(lines, marker);
    if Replay(lines).value[id].claim == e.claim {
      SealedByReplay(lines + [marker], id);
    } else {
      var marked := lines + [marker];
      assert marked[..|marked| - 1] == lines;
      assert !Begun(OpenLines(marked), id);
      assert marked == marked + [];
      assert !Begun(OpenLines(marked + []), id);
    }
  }

  // ----- Journal operations -----

  function LineFor(f: File, e: Entry): Line {
    // A line appended to an unterminated fragment merges with it.
    if f.torn then Garbage else Record(e)
  }

  function Write(f: File, e: Entry, w: WriteOutcome): File {
    match w
    case Durable => File(f.lines + [LineFor(f, e)], false, |f.lines| + 1)
    case LineLeft => File(f.lines + [LineFor(f, e)], false, f.synced)
    case FragmentLeft => f.(torn := true)
    case NothingWritten => f
  }

  /** The table is updated only when the write and its fsync both succeeded. */
  function Append(j: Journal, e: Entry, w: WriteOutcome): Journal {
    Journal(if w.Durable? then j.entries[e.action.id := e] else j.entries, Write(j.file, e, w))
  }

  datatype Reply = Refused | Ok(entry: Entry)

  function RecordReceived(j: Journal, a: Action, w: WriteOutcome): (Journal, Reply) {
    if a.id in j.entries then
      if SameAction(j.entries[a.id].action, a) then (j, Ok(j.entries[a.id])) else (j, Refused)
    else
      var e := Entry(a, Received, None, Unclaimed);
      (Append(j, e, w), if w.Durable? then Ok(e) else Refused)
  }

  function SetClaim(j: Journal, id: string, claim: Claim, w: WriteOutcome): (Journal, Reply) {
    if id !in j.entries || !ValidClaim(claim) || j.entries[id].state == Reported then (j, Refused)
    else if j.entries[id].claim == claim then (j, Ok(j.entries[id]))
    else
      var e := j.entries[id].(claim := claim);
      (Append(j, e, w), if w.Durable? then Ok(e) else Refused)
  }

  function Advanced(e: Entry, next: State, result: Option<ActionResult>): Entry {
    match next
    case OutcomeKnown => e.(state := next, result := result)
    case OutcomeUnknown => e.(state := next, result := None)
    case Reported => e.(state := next, claim := Unclaimed)
    case Received | Running => e.(state := next)
  }

  function Transition(j: Journal, id: string, next: State, result: Option<ActionResult>, w: WriteOutcome)
    : (Journal, Reply)
  {
    if id !in j.entries then (j, Refused)
    else
      var current := j.entries[id];
      if current.state == next then
        // Repeating a marker changes nothing; repeating an outcome must repeat the result.
        if next == Received || (next == OutcomeKnown && current.result != result) then (j, Refused)
        else (j, Ok(current))
      else if !AllowedTransition(current.state, next) then (j, Refused)
      else
        var e := Advanced(current, next, result);
        if !WellFormed(e) then (j, Refused)
        else (Append(j, e, w), if w.Durable? then Ok(e) else Refused)
  }

  // ----- Compaction -----

  /** The minimal record chain that reproduces one entry. */
  function EntryHistory(e: Entry): seq<Line> {
    var received := Record(e.(state := Received, result := None));
    var running := Record(e.(state := Running, result := None));
    var known := Record(e.(state := OutcomeKnown));
    var unknown := Record(e.(state := OutcomeUnknown, result := None));
    match e.state
    case Received => [received]
    case Running => [received, running]
    case OutcomeKnown => [received, running, known]
    case OutcomeUnknown => [received, unknown]
    case Reported =>
      if e.result.Some? then [received, running, known, Record(e)] else [received, unknown, Record(e)]
  }

  function Histories(survivors: seq<Entry>): seq<Line> {
    if survivors == [] then []
    else Histories(survivors[..|survivors| - 1]) + EntryHistory(survivors[|survivors| - 1])
  }

  function TableOf(survivors: seq<Entry>): Table {
    if survivors == [] then map[]
    else
      var last := survivors[|survivors| - 1];
      TableOf(survivors[..|survivors| - 1])[last.action.id := last]
  }

  predicate DistinctIds(es: seq<Entry>) {
    forall i, j :: 0 <= i < j < |es| ==> es[i].action.id != es[j].action.id
  }

  lemma SameActionReflexive(a: Action)
    ensures SameAction(a, a)
  {
  }

  lemma ReplayNext(lines: seq<Line>, m: Table, current: Entry, next: Entry)
    requires Replay(lines) == Some(m[current.action.id := current])
    requires next.action == current.action && WellFormed(next)
    requires AllowedTransition(current.state, next.state)
    requires next.state == Reported ==> current.result == next.result
    requires next.state != Reported ==> current.claim == next.claim
    ensures Replay(lines + [Record(next)]) == Some(m[next.action.id := next])
  {
    SameActionReflexive(current.action);
    ReplayAppend(lines, Record(next));
    assert m[current.action.id := current][next.action.id := next] == m[next.action.id := next];
  }

  lemma ReplayEntryHistory(lines: seq<Line>, e: Entry)
    requires WellFormed(e) && Replay(lines).Some? && e.action.id !in Replay(lines).value
    ensures Replay(lines + EntryHistory(e)) == Some(Replay(lines).value[e.action.id := e])
  {
    var m := Replay(lines).value;
    var received := e.(state := Received, result := None);
    ReplayAppend(lines, Record(received));
    var l1 := lines + [Record(received)];
    if e.state == OutcomeUnknown || (e.state == Reported && e.result.None?) {
      var unknown := e.(state := OutcomeUnknown, result := None);
      ReplayNext(l1, m, received, unknown);
      var l2 := l1 + [Record(unknown)];
      if e.state == OutcomeUnknown {
        assert lines + EntryHistory(e) == l2;
      } else {
        ReplayNext(l2, m, unknown, e);
        assert lines + EntryHistory(e) == l2 + [Record(e)];
      }
    } else if e.state == Received {
      assert lines + EntryHistory(e) == l1;
    } else {
      var running := e.(state := Running, result := None);
      ReplayNext(l1, m, received, running);
      var l2 := l1 + [Record(running)];
      if e.state == Running {
        assert lines + EntryHistory(e) == l2;
      } else {
        var known := e.(state := OutcomeKnown);
        ReplayNext(l2, m, running, known);
        var l3 := l2 + [Record(known)];
        if e.state == OutcomeKnown {
          assert lines + EntryHistory(e) == l3;
        } else {
          ReplayNext(l3, m, known, e);
          assert lines + EntryHistory(e) == l3 + [Record(e)];
        }
      }
    }
  }

  lemma {:induction false} TableOfIds(survivors: seq<Entry>)
    ensures forall id :: id in TableOf(survivors) ==>
              TableOf(survivors)[id] in survivors && TableOf(survivors)[id].action.id == id
    ensures forall e :: e in survivors ==> e.action.id in TableOf(survivors)
  {
    if survivors != [] {
      TableOfIds(survivors[..|survivors| - 1]);
    }
  }

  /** A compacted journal replays to exactly the surviving entries. */
  lemma {:induction false} CompactionReplays(survivors: seq<Entry>)
    requires DistinctIds(survivors)
    requires forall e :: e in survivors ==> WellFormed(e)
    ensures Replay(Histories(survivors)) == Some(TableOf(survivors))
  {
    if survivors != [] {
      var init := survivors[..|survivors| - 1];
      CompactionReplays(init);
      TableOfIds(init);
      ReplayEntryHistory(Histories(init), survivors[|survivors| - 1]);
    }
  }
}
