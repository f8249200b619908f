/**
 At-most-once execution and honest reporting, over every run of the agent
 protocol: any interleaving of deliveries, write failures, lost posts, clock
 advances, compactions and crash-restarts.
 */
module AgentSafety {
  import opened Common
  import opened ActionJournal
  import opened AgentProtocol

  // ----- The invariant -----

  /** An entry still waiting in memory, against the record the file would replay. */
  predicate Tracks(onFile: Entry, inMemory: Entry, now: Time) {
    && onFile.action == inMemory.action
    && onFile.result.None?
    && (onFile.state == Running
        || (onFile.state == Received && (onFile.claim == inMemory.claim || !ClaimCurrent(inMemory.claim, now))))
  }

  ghost predicate Agrees(entries: Table, replayed: Table, now: Time) {
    && (forall id :: id in entries && entries[id].state == Received ==>
          id in replayed && Tracks(replayed[id], entries[id], now))
    && (forall id :: id !in entries && id in replayed ==>
          replayed[id].state == Received && replayed[id].claim.Unclaimed?)
  }

  ghost predicate FileAgrees(j: Journal, now: Time) {
    var replayed := Replay(j.file.lines);
    replayed.Some? ==> Agrees(j.entries, replayed.value, now)
  }

  ghost predicate TableOk(w: World) {
    && (forall id :: id in w.journal.entries ==>
          w.journal.entries[id].action.id == id && WellFormed(w.journal.entries[id]))
    && (forall id :: id in w.journal.entries && id in w.forgotten ==> w.journal.entries[id].state == Reported)
    && (!w.proc.Down? ==> forall id :: id in w.marked && id !in w.forgotten ==>
          id in w.journal.entries && w.journal.entries[id].state != Received)
    && (!w.proc.Down? ==> FileAgrees(w.journal, w.now))
  }

  /** Lines that replay mention nothing that compaction dropped. */
  ghost predicate Forgets(lines: seq<Line>, forgotten: set<string>) {
    Replay(lines).Some? ==>
      forall i :: 0 <= i < |lines| && lines[i].Record? ==> lines[i].entry.action.id !in forgotten
  }

  ghost predicate FileOk(w: World) {
    var f := w.journal.file;
    && f.synced <= |f.lines|
    && (forall k :: 0 <= k <= |f.lines| ==> Forgets(f.lines[..k], w.forgotten))
    && (forall id :: id in w.marked && id !in w.forgotten ==> Sealed(f.lines[..f.synced], id))
  }

  /** A recorded result is one the executor returned. */
  ghost predicate Backed(runs: seq<Execution>, id: string, result: Option<ActionResult>) {
    result.Some? ==> Execution(id, result) in runs
  }

  ghost predicate ResultsOk(w: World) {
    && (forall i :: 0 <= i < |w.journal.file.lines| && w.journal.file.lines[i].Record? ==>
          Backed(w.runs, w.journal.file.lines[i].entry.action.id, w.journal.file.lines[i].entry.result))
    && (forall id :: id in w.journal.entries ==> Backed(w.runs, id, w.journal.entries[id].result))
    && (forall i :: 0 <= i < |w.posts| && w.posts[i].result.ok ==>
          Execution(w.posts[i].id, Some(w.posts[i].result)) in w.runs)
  }

  ghost predicate RunsOk(w: World) {
    && (forall i, j :: 0 <= i < j < |w.runs| ==> w.runs[i].id != w.runs[j].id)
    && (forall i :: 0 <= i < |w.runs| ==> w.runs[i].id in w.marked)
  }

  ghost predicate InState(w: World, id: string, s: State) {
    id in w.journal.entries && w.journal.entries[id].state == s
  }

  ghost predicate ProcOk(w: World) {
    match w.proc
    case Down => w.journal.entries == map[]
    case Booting => Replay(w.journal.file.lines) == Some(w.journal.entries) && !w.journal.file.torn
    case Idle | Acked(_) => true
    case Fetched(a, lease) => ValidClaim(lease)
    case Holding(e) =>
      e.action.id in w.journal.entries && w.journal.entries[e.action.id] == e && e.state != Reported
    case Armed(e) =>
      && InState(w, e.action.id, Running) && e.action.id in w.marked
      && forall i :: 0 <= i < |w.runs| ==> w.runs[i].id != e.action.id
    case Ran(e, r) => InState(w, e.action.id, Running) && Execution(e.action.id, r) in w.runs
    case Unsettled(e) => InState(w, e.action.id, Running)
    case Reporting(_, e, r) => r.ok ==> Execution(e.action.id, Some(r)) in w.runs
  }

  ghost predicate Inv(w: World) {
    TableOk(w) && FileOk(w) && ResultsOk(w) && RunsOk(w) && ProcOk(w)
  }

  // ----- One write -----

  lemma WriteKeepsLines(f: File, e: Entry, o: WriteOutcome)
    requires f.synced <= |f.lines|
    ensures var g := Write(f, e, o);
            && g.synced <= |g.lines|
            && f.synced <= g.synced
            && f.lines <= g.lines
            && (forall i :: |f.lines| <= i < |g.lines| ==> g.lines[i] == Garbage || g.lines[i] == Record(e))
            && (o.Durable? ==> g.synced == |g.lines| && g.lines == f.lines + [LineFor(f, e)])
  {
  }

  lemma SealedAfterWrite(f: File, e: Entry, o: WriteOutcome, id: string)
    requires f.synced <= |f.lines| && Sealed(f.lines[..f.synced], id)
    ensures var g := Write(f, e, o); Sealed(g.lines[..g.synced], id)
  {
    var g := Write(f, e, o);
    assert g.lines[..g.synced][..f.synced] == f.lines[..f.synced];
    SealedPrefix(g.lines[..g.synced], f.synced, id);
  }

  lemma ForgetsAppend(lines: seq<Line>, last: Line, forgotten: set<string>)
    requires Forgets(lines, forgotten)
    requires Replay(lines).Some? && last.Record? ==> last.entry.action.id !in forgotten
    ensures Forgets(lines + [last], forgotten)
  {
    ReplayAppend(lines, last);
  }

  lemma ForgetsAfterWrite(f: File, e: Entry, o: WriteOutcome, forgotten: set<string>, k: nat)
    requires forall n :: 0 <= n <= |f.lines| ==> Forgets(f.lines[..n], forgotten)
    requires e.action.id !in forgotten || !Joins(f, o)
    requires k <= |Write(f, e, o).lines|
    ensures Forgets(Write(f, e, o).lines[..k], forgotten)
  {
    var lines, n := Write(f, e, o).lines, |f.lines|;
    if k <= n {
      assert lines[..k] == f.lines[..k];
    } else {
      assert f.lines[..n] == f.lines && lines[..k] == f.lines + [LineFor(f, e)];
      ForgetsAppend(f.lines, LineFor(f, e), forgotten);
    }
  }

  /** An append preserves every clause that does not mention the new entry's own state. */
  lemma FileOkAfterWrite(w: World, w': World, e: Entry, o: WriteOutcome)
    requires FileOk(w) && w'.journal.file == Write(w.journal.file, e, o)
    requires w'.marked == w.marked && w'.forgotten == w.forgotten
    requires e.action.id !in w.forgotten || !Joins(w.journal.file, o)
    ensures FileOk(w')
  {
    WriteKeepsLines(w.journal.file, e, o);
    forall k | 0 <= k <= |w'.journal.file.lines| ensures Forgets(w'.journal.file.lines[..k], w.forgotten) {
      ForgetsAfterWrite(w.journal.file, e, o, w.forgotten, k);
    }
    forall id | id in w'.marked && id !in w'.forgotten
      ensures Sealed(w'.journal.file.lines[..w'.journal.file.synced], id)
    {
      SealedAfterWrite(w.journal.file, e, o, id);
    }
  }

  /** Replay after one write: unchanged, extended by the entry, or dead. */
  lemma ReplayAfterWrite(f: File, e: Entry, o: WriteOutcome)
    ensures var g := Write(f, e, o);
            || Replay(g.lines) == Replay(f.lines)
            || Replay(g.lines).None?
            || (Replay(f.lines).Some? && Admits(Replay(f.lines).value, e) &&
                Replay(g.lines) == Some(Replay(f.lines).value[e.action.id := e]))
    ensures var g := Write(f, e, o);
            o.Durable? && Replay(g.lines).Some? ==>
              Replay(f.lines).Some? && Admits(Replay(f.lines).value, e) &&
              Replay(g.lines) == Some(Replay(f.lines).value[e.action.id := e])
  {
    if o.Durable? || o.LineLeft? {
      ReplayAppend(f.lines, LineFor(f, e));
    }
  }

  lemma AgreesWhenBoth(entries: Table, replayed: Table, e: Entry, now: Time)
    requires Agrees(entries, replayed, now) && WellFormed(e)
    ensures Agrees(entries[e.action.id := e], replayed[e.action.id := e], now)
  {
  }

  lemma AgreesWhenFileOnly(entries: Table, replayed: Table, e: Entry, now: Time)
    requires Agrees(entries, replayed, now)
    requires e.action.id in entries && entries[e.action.id].state == Received ==> Tracks(e, entries[e.action.id], now)
    requires e.action.id !in entries ==> e.state == Received && e.claim.Unclaimed?
    ensures Agrees(entries, replayed[e.action.id := e], now)
  {
  }

  /** The entry waits in the table, and the file would replay the new record after it. */
  predicate Follows(j: Journal, e: Entry) {
    && e.action.id in j.entries && j.entries[e.action.id].state == Received
    && Alive(j.file) && Admits(Replay(j.file.lines).value, e)
  }

  lemma AgreesAfterAppend(j: Journal, e: Entry, o: WriteOutcome, now: Time)
    requires FileAgrees(j, now) && WellFormed(e)
    requires o.LineLeft? && Follows(j, e) ==> Tracks(e, j.entries[e.action.id], now)
    requires e.action.id !in j.entries ==> e.state == Received && e.claim.Unclaimed?
    ensures FileAgrees(Append(j, e, o), now)
  {
    ReplayAfterWrite(j.file, e, o);
    var g := Write(j.file, e, o);
    if Replay(g.lines).Some? && Replay(j.file.lines).Some? {
      var m := Replay(j.file.lines).value;
      if o.Durable? {
        AgreesWhenBoth(j.entries, m, e, now);
      } else if o.LineLeft? {
        ReplayAppend(j.file.lines, LineFor(j.file, e));
        AgreesWhenFileOnly(j.entries, m, e, now);
      }
    }
  }

  lemma WaitingIsUnmarked(w: World, id: string)
    requires TableOk(w) && !w.proc.Down? && InState(w, id, Received)
    ensures id !in w.marked && id !in w.forgotten
  {
  }

  lemma AppendPreserves(w: World, w': World, e: Entry, o: WriteOutcome)
    requires TableOk(w) && FileOk(w) && ResultsOk(w) && !w.proc.Down? && !w'.proc.Down?
    requires w'.journal == Append(w.journal, e, o)
    requires w' == w.(journal := w'.journal, proc := w'.proc)
    requires WellFormed(e) && Backed(w.runs, e.action.id, e.result)
    requires e.action.id !in w.forgotten || !Joins(w.journal.file, o)
    requires e.state == Received ==> e.action.id !in w.marked
    requires o.LineLeft? && Follows(w.journal, e) ==> Tracks(e, w.journal.entries[e.action.id], w.now)
    requires e.action.id !in w.journal.entries ==> e.state == Received && e.claim.Unclaimed?
    ensures TableOk(w') && FileOk(w') && ResultsOk(w')
  {
    AgreesAfterAppend(w.journal, e, o, w.now);
    FileOkAfterWrite(w, w', e, o);
    WriteKeepsLines(w.journal.file, e, o);
    forall i | 0 <= i < |w'.journal.file.lines| && w'.journal.file.lines[i].Record?
      ensures Backed(w'.runs, w'.journal.file.lines[i].entry.action.id, w'.journal.file.lines[i].entry.result)
    {
      if i < |w.journal.file.lines| {
        assert w'.journal.file.lines[i] == w.journal.file.lines[i];
      }
    }
  }

  // ----- Each event keeps the invariant -----

  lemma TickKeeps(w: World, d: nat)
    requires Inv(w)
    ensures Inv(Step(w, Tick(d)))
  {
  }

  lemma CrashKeeps(w: World, keep: nat, torn: bool)
    requires Inv(w)
    ensures Inv(Step(w, Crash(keep, torn)))
  {
    var f := w.journal.file;
    var w' := Step(w, Crash(keep, torn));
    if f.synced <= keep <= |f.lines| {
      forall id | id in w'.marked && id !in w'.forgotten
        ensures Sealed(w'.journal.file.lines[..w'.journal.file.synced], id)
      {
        assert f.lines[..keep][..f.synced] == f.lines[..f.synced];
        SealedPrefix(f.lines[..keep], f.synced, id);
        assert w'.journal.file.lines[..keep] == f.lines[..keep];
      }
      forall k | 0 <= k <= keep ensures Forgets(w'.journal.file.lines[..k], w'.forgotten) {
        assert f.lines[..keep][..k] == f.lines[..k];
      }
      assert FileOk(w');
      assert ResultsOk(w');
    }
  }

  lemma OpenedReplays(lines: seq<Line>)
    requires OpenLines(lines).Opened?
    ensures Replay(OpenLines(lines).kept) == Some(OpenLines(lines).entries)
    ensures OpenLines(lines).kept <= lines
  {
  }

  lemma BootKeeps(w: World, rewritten: bool)
    requires Inv(w)
    ensures Inv(Step(w, Boot(rewritten)))
  {
    var f := w.journal.file;
    if w.proc.Down? && OpenLines(f.lines).Opened? {
      var w' := Step(w, Boot(rewritten));
      if w' != w {
        var kept := OpenLines(f.lines).kept;
        OpenedReplays(f.lines);
        BootedTable(w, w', kept);
        BootedResults(w, w', kept);
        BootedFile(w, w', kept);
      }
    }
  }

  ghost predicate BootedFrom(w: World, w': World, kept: seq<Line>) {
    && w.proc.Down? && w' == w.(journal := w'.journal, proc := Booting)
    && OpenLines(w.journal.file.lines) == Opened(w'.journal.entries, kept)
    && kept <= w.journal.file.lines && Replay(kept) == Some(w'.journal.entries)
    && w'.journal.file.lines == kept
    && (w'.journal.file == w.journal.file || w'.journal.file.synced == |kept|)
    && !w'.journal.file.torn
  }

  lemma BootedEntry(w: World, w': World, kept: seq<Line>, id: string)
    requires Inv(w) && BootedFrom(w, w', kept) && id in w'.journal.entries
    requires Record(w'.journal.entries[id]) in kept && w'.journal.entries[id].action.id == id
    ensures id !in w'.forgotten && Backed(w'.runs, id, w'.journal.entries[id].result)
  {
    var i :| 0 <= i < |kept| && kept[i] == Record(w'.journal.entries[id]);
    assert w.journal.file.lines[i] == kept[i];
    assert w.journal.file.lines[..|kept|] == kept && Forgets(kept, w.forgotten);
  }

  lemma BootedMark(w: World, w': World, kept: seq<Line>, id: string)
    requires Inv(w) && BootedFrom(w, w', kept) && id in w.marked && id !in w.forgotten
    ensures id in w'.journal.entries && w'.journal.entries[id].state != Received
  {
    var f := w.journal.file;
    assert f.lines[..f.synced] + f.lines[f.synced..] == f.lines;
    assert Begun(OpenLines(f.lines[..f.synced] + f.lines[f.synced..]), id);
  }

  lemma BootedTable(w: World, w': World, kept: seq<Line>)
    requires Inv(w) && BootedFrom(w, w', kept)
    ensures TableOk(w')
  {
    ReplayKeys(kept);
    forall id | id in w'.journal.entries ensures id !in w'.forgotten {
      BootedEntry(w, w', kept, id);
    }
    forall id | id in w'.marked && id !in w'.forgotten
      ensures id in w'.journal.entries && w'.journal.entries[id].state != Received
    {
      BootedMark(w, w', kept, id);
    }
  }

  lemma BootedResults(w: World, w': World, kept: seq<Line>)
    requires Inv(w) && BootedFrom(w, w', kept)
    ensures ResultsOk(w')
  {
    ReplayKeys(kept);
    forall id | id in w'.journal.entries ensures Backed(w'.runs, id, w'.journal.entries[id].result) {
      BootedEntry(w, w', kept, id);
    }
    forall i | 0 <= i < |kept| && kept[i].Record?
      ensures Backed(w'.runs, kept[i].entry.action.id, kept[i].entry.result)
    {
      assert kept[i] == w.journal.file.lines[i];
    }
  }

  lemma BootedFile(w: World, w': World, kept: seq<Line>)
    requires Inv(w) && BootedFrom(w, w', kept) && TableOk(w')
    ensures FileOk(w')
  {
    forall k | 0 <= k <= |kept| ensures Forgets(kept[..k], w'.forgotten) {
      assert kept[..k] == w.journal.file.lines[..k];
    }
    if w'.journal.file != w.journal.file {
      forall id | id in w'.marked && id !in w'.forgotten
        ensures Sealed(kept[..w'.journal.file.synced], id)
      {
        assert kept[..|kept|] == kept;
        SealedByReplay(kept, id);
      }
    }
  }

  lemma BootMarkKeeps(w: World, id: string, o: WriteOutcome)
    requires Inv(w)
    ensures Inv(Step(w, BootMark(id, o)))
  {
    var w' := Step(w, BootMark(id, o));
    if w.proc.Booting? && id in w.journal.entries && w.journal.entries[id].state == Running {
      var e := Advanced(w.journal.entries[id], OutcomeUnknown, None);
      var up := w.(journal := Append(w.journal, e, o));
      AppendPreserves(w, up, e, o);
      SameActionReflexive(e.action);
      ReplayAppend(w.journal.file.lines, Record(e));
      if !o.Durable? {
        assert w' == up.(journal := Journal(map[], up.journal.file), proc := Down);
        assert FileOk(w') && ResultsOk(w');
      }
    }
  }

  lemma CompactKeeps(w: World, order: seq<string>, committed: bool)
    requires Inv(w)
    ensures Inv(Step(w, Compact(order, committed)))
  {
    if !w.proc.Down? && !w.proc.Booting? && CompactionOrder(w.journal.entries, order, w.forgotten) {
      CompactedFile(w, order, committed);
      CompactedTable(w, order, committed);
    }
  }

  lemma PickedTable(entries: Table, order: seq<string>)
    requires CompactionOrder(entries, order, {})
    requires forall id :: id in entries ==> entries[id].action.id == id && WellFormed(entries[id])
    ensures Replay(Histories(Picked(entries, order))) ==
            Some(entries - (set id | id in entries && id !in order))
  {
    var es := Picked(entries, order);
    forall i | 0 <= i < |es| ensures es[i] == entries[order[i]] && es[i].action.id == order[i] {
    }
    CompactionReplays(es);
    TableOfPicked(entries, order);
    assert TableOf(es) == entries - (set id | id in entries && id !in order);
  }

  lemma {:induction false} TableOfPicked(entries: Table, order: seq<string>)
    requires forall i :: 0 <= i < |order| ==> order[i] in entries
    requires forall id :: id in entries ==> entries[id].action.id == id
    ensures forall id :: id in TableOf(Picked(entries, order)) <==> id in order
    ensures forall id :: id in order ==> TableOf(Picked(entries, order))[id] == entries[id]
  {
    if order != [] {
      var init := order[..|order| - 1];
      TableOfPicked(entries, init);
      assert Picked(entries, order)[..|order| - 1] == Picked(entries, init);
    }
  }

  lemma {:induction false} HistoriesMention(es: seq<Entry>)
    ensures forall i :: 0 <= i < |Histories(es)| ==>
              Histories(es)[i].Record? &&
              exists k :: 0 <= k < |es| && es[k].action == Histories(es)[i].entry.action &&
                          (Histories(es)[i].entry.result.Some? ==> Histories(es)[i].entry.result == es[k].result)
  {
    if es != [] {
      var init := es[..|es| - 1];
      var last := es[|es| - 1];
      HistoriesMention(init);
      forall i | 0 <= i < |Histories(es)|
        ensures Histories(es)[i].Record? &&
                exists k :: 0 <= k < |es| && es[k].action == Histories(es)[i].entry.action &&
                            (Histories(es)[i].entry.result.Some? ==> Histories(es)[i].entry.result == es[k].result)
      {
        if i < |Histories(init)| {
          var k :| 0 <= k < |init| && init[k].action == Histories(init)[i].entry.action &&
                   (Histories(init)[i].entry.result.Some? ==> Histories(init)[i].entry.result == init[k].result);
          assert es[k] == init[k];
        } else {
          assert Histories(es)[i] == EntryHistory(last)[i - |Histories(init)|];
          assert es[|es| - 1] == last;
        }
      }
    }
  }

  lemma CompactedFile(w: World, order: seq<string>, committed: bool)
    requires Inv(w) && !w.proc.Down? && CompactionOrder(w.journal.entries, order, w.forgotten)
    ensures FileOk(CompactStep(w, order, committed))
    ensures ResultsOk(CompactStep(w, order, committed))
  {
    var w' := CompactStep(w, order, committed);
    var es := Picked(w.journal.entries, order);
    var lines := Histories(es);
    PickedTable(w.journal.entries, order);
    HistoriesMention(es);
    forall i | 0 <= i < |lines|
      ensures lines[i].entry.action.id !in w'.forgotten
      ensures Backed(w'.runs, lines[i].entry.action.id, lines[i].entry.result)
    {
      var k :| 0 <= k < |es| && es[k].action == lines[i].entry.action &&
               (lines[i].entry.result.Some? ==> lines[i].entry.result == es[k].result);
      assert es[k] == w.journal.entries[order[k]];
      assert order[k] in order;
    }
    forall id | id in w'.marked && id !in w'.forgotten ensures Sealed(lines[..|lines|], id) {
      assert lines[..|lines|] == lines;
      SealedByReplay(lines, id);
    }
  }

  lemma CompactedTable(w: World, order: seq<string>, committed: bool)
    requires Inv(w) && !w.proc.Down? && CompactionOrder(w.journal.entries, order, w.forgotten)
    ensures TableOk(CompactStep(w, order, committed))
  {
    PickedTable(w.journal.entries, order);
  }

  /** An action that never ran may start a new stay: its history starts over. */
  lemma AnewKeeps(w: World, id: string)
    requires Inv(w) && w.proc.Idle? && !Executed(w.runs, id)
    ensures Inv(w.(marked := w.marked - {id}, forgotten := w.forgotten - {id}))
  {
    var w' := w.(marked := w.marked - {id}, forgotten := w.forgotten - {id});
    forall k | 0 <= k <= |w.journal.file.lines| ensures Forgets(w.journal.file.lines[..k], w'.forgotten) {
      assert Forgets(w.journal.file.lines[..k], w.forgotten);
    }
  }

  lemma FetchKeeps(w: World, a: Action, lease: Claim, o: WriteOutcome)
    requires Inv(w) && w.proc.Idle? && Owed(w, Fetch(a, lease, o))
    ensures Inv(FetchStep(w, a, lease, o))
  {
    if ValidClaim(lease) && a.id !in w.journal.entries {
      var e := Entry(a, Received, None, Unclaimed);
      if Arrives(w, a.id, o) {
        AnewKeeps(w, a.id);
        AppendPreserves(w.(marked := w.marked - {a.id}, forgotten := w.forgotten - {a.id}),
                        FetchStep(w, a, lease, o), e, o);
      } else {
        assert w.marked - {} == w.marked && w.forgotten - {} == w.forgotten;
        UnreceivedKeeps(w, FetchStep(w, a, lease, o), e, o);
      }
    }
  }

  /** A write that neither reaches the table nor extends the replay. */
  lemma UnreceivedKeeps(w: World, w': World, e: Entry, o: WriteOutcome)
    requires Inv(w) && w.proc.Idle? && !Joins(w.journal.file, o) && e.result.None?
    requires w' == w.(journal := Append(w.journal, e, o))
    ensures Inv(w')
  {
    ReplayAppend(w.journal.file.lines, LineFor(w.journal.file, e));
    FileOkAfterWrite(w, w', e, o);
    WriteKeepsLines(w.journal.file, e, o);
    forall i | 0 <= i < |w'.journal.file.lines| && w'.journal.file.lines[i].Record?
      ensures Backed(w'.runs, w'.journal.file.lines[i].entry.action.id, w'.journal.file.lines[i].entry.result)
    {
      if i < |w.journal.file.lines| {
        assert w'.journal.file.lines[i] == w.journal.file.lines[i];
      }
    }
  }

  lemma TakeLeaseKeeps(w: World, o: WriteOutcome)
    requires Inv(w) && w.proc.Fetched? && Owed(w, TakeLease(o))
    ensures Inv(TakeLeaseStep(w, o))
  {
    var id := w.proc.action.id;
    if id in w.journal.entries && w.journal.entries[id].state != Reported &&
       w.journal.entries[id].claim != w.proc.lease {
      var e := w.journal.entries[id].(claim := w.proc.lease);
      if e.state == Received {
        WaitingIsUnmarked(w, id);
      }
      AppendPreserves(w, TakeLeaseStep(w, o), e, o);
    }
  }

  lemma ArmKeeps(w: World, o: WriteOutcome)
    requires Inv(w) && w.proc.Holding? && w.proc.entry.state == Received
    requires ClaimCurrent(w.proc.entry.claim, w.now)
    ensures Inv(ProceedStep(w, o))
  {
    var e := w.proc.entry;
    var id := e.action.id;
    var marker := Advanced(e, Running, None);
    WaitingIsUnmarked(w, id);
    var before := w.(journal := Append(w.journal, marker, o));
    AppendPreserves(w, before, marker, o);
    if o.Durable? {
      MarkerSeals(w, e);
      var f := before.journal.file;
      assert f.lines[..f.synced] == f.lines;
    }
  }

  /** The first durable running marker of an entry cannot be lost by a restart. */
  lemma MarkerSeals(w: World, e: Entry)
    requires Inv(w) && w.proc == Holding(e) && e.state == Received && ClaimCurrent(e.claim, w.now)
    ensures Sealed(w.journal.file.lines + [LineFor(w.journal.file, Advanced(e, Running, None))], e.action.id)
  {
    var f := w.journal.file;
    var id := e.action.id;
    var marker := Advanced(e, Running, None);
    if f.torn {
      SealedByGarbage(f.lines, id);
    } else if Replay(f.lines).None? {
      SealedByCorruption(f.lines, Record(marker), id);
    } else {
      SameActionReflexive(e.action);
      assert Tracks(Replay(f.lines).value[id], e, w.now);
      if Replay(f.lines).value[id].state == Received {
        MarkerSurvives(f.lines, e);
      } else {
        ReplayAppend(f.lines, Record(marker));
        SealedByReplay(f.lines + [Record(marker)], id);
      }
    }
  }

  lemma OutcomeKeeps(w: World, w': World, id: string, next: State, result: Option<ActionResult>, o: WriteOutcome)
    requires TableOk(w) && FileOk(w) && ResultsOk(w) && !w.proc.Down? && !w'.proc.Down?
    requires next == OutcomeKnown || next == OutcomeUnknown || next == Reported
    requires next == OutcomeUnknown ==> id in w.journal.entries ==> w.journal.entries[id].state != Received
    requires Backed(w.runs, id, result)
    requires w' == w.(journal := Transition(w.journal, id, next, result, o).0, proc := w'.proc)
    ensures TableOk(w') && FileOk(w') && ResultsOk(w')
  {
    if id in w.journal.entries {
      var current := w.journal.entries[id];
      var e := Advanced(current, next, result);
      if current.state != next && AllowedTransition(current.state, next) && WellFormed(e) {
        AppendPreserves(w, w', e, o);
      } else {
        assert w'.journal == w.journal;
      }
    }
  }

  /** Control moves on without a write. */
  lemma MoveKeeps(w: World, next: Proc)
    requires Inv(w) && !w.proc.Down?
    requires next.Idle? || next.Acked? || (next.Holding? && ProcOk(w.(proc := next)))
             || (next.Reporting? && (next.report.ok ==> Execution(next.entry.action.id, Some(next.report)) in w.runs))
    ensures Inv(w.(proc := next))
  {
  }

  lemma ProceedKeeps(w: World, o: WriteOutcome)
    requires Inv(w) && w.proc.Holding?
    ensures Inv(ProceedStep(w, o))
  {
    var e := w.proc.entry;
    if !ClaimCurrent(e.claim, w.now) {
      MoveKeeps(w, Idle);
    } else {
      match e.state
      case Received => ArmKeeps(w, o);
      case Running => InterruptedKeeps(w, o);
      case OutcomeKnown =>
        assert e.result.Some?;
        MoveKeeps(w, ReportFor(e, e.result.value));
      case OutcomeUnknown => MoveKeeps(w, ReportFor(e, UnknownResult(e.action.id)));
    }
  }

  lemma InterruptedKeeps(w: World, o: WriteOutcome)
    requires Inv(w) && w.proc.Holding? && w.proc.entry.state == Running
    requires ClaimCurrent(w.proc.entry.claim, w.now)
    ensures Inv(ProceedStep(w, o))
  {
    OutcomeKeeps(w, ProceedStep(w, o), w.proc.entry.action.id, OutcomeUnknown, None, o);
  }

  lemma OutcomeRecorded(j: Journal, id: string, result: Option<ActionResult>, o: WriteOutcome)
    requires id in j.entries && j.entries[id].state == Running && j.entries[id].action.id == id
    ensures var (j', r) := Transition(j, id, OutcomeKnown, result, o);
            if r.Ok? then r.entry.action.id == id && j'.entries == j.entries[id := r.entry]
            else j'.entries == j.entries
  {
  }

  lemma SettleKeeps(w: World, o: WriteOutcome)
    requires Inv(w) && w.proc.Ran?
    ensures Inv(SettleStep(w, o))
  {
    if w.proc.result.None? {
      UnknownKeeps(w, w.proc.entry, o);
    } else {
      KnownKeeps(w, o);
    }
  }

  lemma KnownKeeps(w: World, o: WriteOutcome)
    requires Inv(w) && w.proc.Ran? && w.proc.result.Some?
    ensures Inv(SettleStep(w, o))
  {
    var e := w.proc.entry;
    var w' := SettleStep(w, o);
    OutcomeKeeps(w, w', e.action.id, OutcomeKnown, w.proc.result, o);
    OutcomeRecorded(w.journal, e.action.id, w.proc.result, o);
    assert w'.runs == w.runs && w'.marked == w.marked;
    assert ProcOk(w');
  }

  lemma UnknownKeeps(w: World, e: Entry, o: WriteOutcome)
    requires Inv(w) && !w.proc.Down? && InState(w, e.action.id, Running)
    ensures Inv(UnknownStep(w, e, o))
  {
    OutcomeKeeps(w, UnknownStep(w, e, o), e.action.id, OutcomeUnknown, None, o);
  }

  lemma SettleUnknownKeeps(w: World, o: WriteOutcome)
    requires Inv(w) && w.proc.Unsettled?
    ensures Inv(UnknownStep(w, w.proc.entry, o))
  {
    UnknownKeeps(w, w.proc.entry, o);
  }

  lemma ExecuteKeeps(w: World, result: Option<ActionResult>)
    requires Inv(w) && w.proc.Armed?
    ensures Inv(Step(w, Execute(result)))
  {
  }

  lemma AcknowledgeKeeps(w: World, o: WriteOutcome)
    requires Inv(w) && w.proc.Acked?
    ensures Inv(Step(w, Acknowledge(o)))
  {
    OutcomeKeeps(w, Step(w, Acknowledge(o)), w.proc.id, Reported, None, o);
  }

  lemma BootDoneKeeps(w: World)
    requires Inv(w)
    ensures Inv(Step(w, BootDone))
  {
    if w.proc.Booting? {
      MoveKeeps(w, Idle);
    }
  }

  lemma RecoverKeeps(w: World, id: string)
    requires Inv(w)
    ensures Inv(Step(w, Recover(id)))
  {
    if w.proc.Idle? && id in w.journal.entries && w.journal.entries[id].state != Reported {
      MoveKeeps(w, Holding(w.journal.entries[id]));
    }
  }

  lemma SendKeeps(w: World, arrived: bool, acknowledged: bool)
    requires Inv(w) && w.proc.Reporting?
    ensures Inv(SendStep(w, arrived, acknowledged))
  {
  }

  lemma StepKeeps(w: World, ev: Event)
    requires Inv(w) && Owed(w, ev)
    ensures Inv(Step(w, ev))
  {
    match ev
    case Proceed(_) | Execute(_) | Settle(_) | SettleUnknown(_) | Send(_, _) | Acknowledge(_) => PassKeeps(w, ev);
    case Tick(d) => TickKeeps(w, d);
    case Crash(keep, torn) => CrashKeeps(w, keep, torn);
    case Boot(rewritten) => BootKeeps(w, rewritten);
    case BootMark(id, o) => BootMarkKeeps(w, id, o);
    case BootDone => BootDoneKeeps(w);
    case Compact(order, committed) => CompactKeeps(w, order, committed);
    case Fetch(a, lease, o) => if w.proc.Idle? { FetchKeeps(w, a, lease, o); }
    case TakeLease(o) => if w.proc.Fetched? { TakeLeaseKeeps(w, o); }
    case Recover(id) => RecoverKeeps(w, id);
  }

  /** The events from a held entry to its acknowledgement. */
  lemma PassKeeps(w: World, ev: Event)
    requires Inv(w)
    requires ev.Proceed? || ev.Execute? || ev.Settle? || ev.SettleUnknown? || ev.Send? || ev.Acknowledge?
    ensures Inv(Step(w, ev))
  {
    match ev
    case Proceed(o) => if w.proc.Holding? { ProceedKeeps(w, o); }
    case Execute(result) => if w.proc.Armed? { ExecuteKeeps(w, result); }
    case Settle(o) => if w.proc.Ran? { SettleKeeps(w, o); }
    case SettleUnknown(o) => if w.proc.Unsettled? { SettleUnknownKeeps(w, o); }
    case Send(arrived, acknowledged) => if w.proc.Reporting? { SendKeeps(w, arrived, acknowledged); }
    case Acknowledge(o) => if w.proc.Acked? { AcknowledgeKeeps(w, o); }
  }

  lemma {:induction false} RunKeeps(w: World, events: seq<Event>)
    requires Inv(w) && OwedRun(w, events)
    ensures Inv(RunFrom(w, events))
    decreases |events|
  {
    if events != [] {
      StepKeeps(w, events[0]);
      RunKeeps(Step(w, events[0]), events[1..]);
    }
  }

  // ----- The theorems -----

  function CountRuns(runs: seq<Execution>, id: string): nat {
    if runs == [] then 0
    else CountRuns(runs[..|runs| - 1], id) + (if runs[|runs| - 1].id == id then 1 else 0)
  }

  lemma {:induction false} CountAbsent(runs: seq<Execution>, id: string)
    requires forall i :: 0 <= i < |runs| ==> runs[i].id != id
    ensures CountRuns(runs, id) == 0
  {
    if runs != [] {
      CountAbsent(runs[..|runs| - 1], id);
    }
  }

  lemma {:induction false} CountDistinct(runs: seq<Execution>, id: string)
    requires forall i, j :: 0 <= i < j < |runs| ==> runs[i].id != runs[j].id
    ensures CountRuns(runs, id) <= 1
  {
    if runs != [] {
      if runs[|runs| - 1].id == id {
        CountAbsent(runs[..|runs| - 1], id);
      } else {
        CountDistinct(runs[..|runs| - 1], id);
      }
    }
  }

  /**
   In every run the executor is entered at most once per action, and an OK result
   reaches the controller only if that execution returned it.
   */
  lemma AtMostOnce(now: Time, events: seq<Event>, id: string)
    requires OwedRun(Start(now), events)
    ensures CountRuns(RunFrom(Start(now), events).runs, id) <= 1
    ensures forall p :: p in RunFrom(Start(now), events).posts && p.result.ok ==>
              Execution(p.id, Some(p.result)) in RunFrom(Start(now), events).runs
  {
    RunKeeps(Start(now), events);
    CountDistinct(RunFrom(Start(now), events).runs, id);
  }
}
