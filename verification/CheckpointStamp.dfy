/**
 The durable stamp a checkpoint request leaves on a workload object, across
 controller restarts, re-requests, other incidents and rewrites by the tenant.
 */
module CheckpointStamp {
  import opened Common
  import opened Text
  import opened CheckpointPolicy

  /** What became of the guarded write. */
  datatype Patch = Confirmed | Unconfirmed | Rejected

  datatype Answer = InForce(request: Request) | Foreign(request: Request) | Failed

  /** The adapter refuses to stamp a request it could not read back. */
  predicate Stampable(r: Request, maxWait: int) {
    && r.incident != "" && TrimSpace(r.incident) == r.incident
    && TrimSpace(r.reason) != "" && TrimSpace(r.nextAction) != ""
    && r.requestedAt != ZERO_TIME && r.deadlineAt != ZERO_TIME
    && r.requestedAt < r.deadlineAt <= r.requestedAt + maxWait
  }

  predicate LiveForeign(existing: Option<Request>, r: Request) {
    existing.Some? && existing.value.incident != r.incident && existing.value.deadlineAt > r.requestedAt
  }

  /** The request that will be in force: a stamp of the same incident keeps its start and its earlier deadline. */
  function Resume(existing: Option<Request>, r: Request): Request {
    if existing.Some? && existing.value.incident == r.incident then
      r.(deadlineAt := ResolveDeadline(r.deadlineAt, r.incident, existing),
         requestedAt := if existing.value.requestedAt != ZERO_TIME then existing.value.requestedAt else r.requestedAt)
    else r
  }

  predicate AlreadyStamped(onObject: Annotations, desired: Annotations) {
    forall key :: key in desired ==> key in onObject && onObject[key] == desired[key]
  }

  function RequestCheckpoint(onObject: Annotations, r: Request, patch: Patch, codec: Codec): (Annotations, Answer) {
    var existing := ParseRequest(onObject, codec);
    if LiveForeign(existing, r) then (onObject, Foreign(existing.value))
    else
      var inForce := Resume(existing, r);
      var desired := Stamp(inForce, codec);
      if AlreadyStamped(onObject, desired) then (onObject, InForce(inForce))
      else match patch
        case Confirmed => (onObject + desired, InForce(inForce))
        case Unconfirmed => (onObject + desired, Failed)
        case Rejected => (onObject, Failed)
  }

  /** The controller's own bound on whatever came back. */
  function CapDeadline(deadline: Time, proposed: Time): Time {
    if deadline == ZERO_TIME || deadline > proposed then proposed else deadline
  }

  /** The deadline the step will wait to, if it waits for this workload at all. */
  function Honoured(answer: Answer, r: Request): Option<Time> {
    match answer
    case InForce(q) => Some(CapDeadline(q.deadlineAt, r.deadlineAt))
    case Foreign(q) =>
      if q.incident != "" && q.incident != r.incident && q.deadlineAt > r.requestedAt
      then Some(CapDeadline(q.deadlineAt, r.deadlineAt)) else None
    case Failed => None
  }

  // ----- Runs with arbitrary rewrites -----

  datatype Event = Ask(request: Request, patch: Patch) | Rewrite(annotations: Annotations)

  function Step(onObject: Annotations, ev: Event, codec: Codec): Annotations {
    match ev
    case Ask(r, patch) => RequestCheckpoint(onObject, r, patch, codec).0
    case Rewrite(a) => a
  }

  function Run(onObject: Annotations, events: seq<Event>, codec: Codec): Annotations {
    if events == [] then onObject
    else Step(Run(onObject, events[..|events| - 1], codec), events[|events| - 1], codec)
  }

  /**
   Whatever happened to the object before, a step never waits past its own
   proposal, and a stamp of the same incident still on the object bounds it too.
   */
  lemma NeverPastOwnProposal(start: Annotations, history: seq<Event>, r: Request, patch: Patch, codec: Codec)
    ensures var before := Run(start, history, codec);
            var honoured := Honoured(RequestCheckpoint(before, r, patch, codec).1, r);
            honoured.Some? ==>
              && honoured.value <= r.deadlineAt
              && (ParseRequest(before, codec).Some? && ParseRequest(before, codec).value.incident == r.incident
                  && ParseRequest(before, codec).value.deadlineAt != ZERO_TIME ==>
                    honoured.value == Min(ParseRequest(before, codec).value.deadlineAt, r.deadlineAt))
  {
    if Honoured(RequestCheckpoint(Run(start, history, codec), r, patch, codec).1, r).Some? {
      var existing := ParseRequest(Run(start, history, codec), codec);
      if existing.Some? {
        assert existing.value.incident != "";
      }
    }
  }

  // ----- Runs without rewrites -----

  predicate Genuine(events: seq<Event>, maxWait: int) {
    forall i :: 0 <= i < |events| ==> events[i].Ask? && Stampable(events[i].request, maxWait)
  }

  /** The incident whose stamp the object carries, and every proposal it made since it took the object. */
  datatype Tenure = Vacant | Tenure(incident: string, deadline: Time, proposals: seq<Time>)

  function Least(ts: seq<Time>): Time
    requires ts != []
  {
    if |ts| == 1 then ts[0] else Min(Least(ts[..|ts| - 1]), ts[|ts| - 1])
  }

  /** A request takes effect unless a foreign window is live or the write did not happen. */
  function Admit(t: Tenure, r: Request, patch: Patch): Tenure {
    if t.Tenure? && t.incident == r.incident then
      if patch.Rejected? && r.deadlineAt < t.deadline then t
      else Tenure(t.incident, Min(t.deadline, r.deadlineAt), t.proposals + [r.deadlineAt])
    else if (t.Tenure? && t.deadline > r.requestedAt) || patch.Rejected? then t
    else Tenure(r.incident, r.deadlineAt, [r.deadlineAt])
  }

  function Tenancy(events: seq<Event>): Tenure
    requires forall i :: 0 <= i < |events| ==> events[i].Ask?
  {
    if events == [] then Vacant
    else
      var last := events[|events| - 1];
      Admit(Tenancy(events[..|events| - 1]), last.request, last.patch)
  }

  ghost predicate Shows(onObject: Annotations, t: Tenure, codec: Codec) {
    match t
    case Vacant => ParseRequest(onObject, codec).None?
    case Tenure(incident, deadline, proposals) =>
      && proposals != [] && deadline == Least(proposals)
      && ParseRequest(onObject, codec).Some?
      && ParseRequest(onObject, codec).value.incident == incident
      && ParseRequest(onObject, codec).value.deadlineAt == deadline
  }

  lemma StampParses(onObject: Annotations, r: Request, codec: Codec)
    requires RoundTrips(codec) && r.incident != "" && TrimSpace(r.incident) == r.incident
    ensures ParseRequest(onObject + Stamp(r, codec), codec) == Some(r)
    ensures AlreadyStamped(onObject, Stamp(r, codec)) ==> ParseRequest(onObject, codec) == Some(r)
  {
    StampRoundTrip(onObject, r, codec);
    if AlreadyStamped(onObject, Stamp(r, codec)) {
      assert onObject + Stamp(r, codec) == onObject;
    }
  }

  lemma LeastAppend(ts: seq<Time>, t: Time)
    requires ts != []
    ensures Least(ts + [t]) == Min(Least(ts), t)
  {
    assert (ts + [t])[..|ts|] == ts;
  }

  lemma AskKeeps(onObject: Annotations, t: Tenure, r: Request, patch: Patch, maxWait: int, codec: Codec)
    requires RoundTrips(codec) && Shows(onObject, t, codec) && Stampable(r, maxWait)
    ensures Shows(RequestCheckpoint(onObject, r, patch, codec).0, Admit(t, r, patch), codec)
  {
    var existing := ParseRequest(onObject, codec);
    if !LiveForeign(existing, r) {
      var inForce := Resume(existing, r);
      StampParses(onObject, inForce, codec);
      if t.Tenure? && t.incident == r.incident {
        LeastAppend(t.proposals, r.deadlineAt);
        assert inForce.deadlineAt == Min(t.deadline, r.deadlineAt);
      }
    }
  }

  /**
   Without rewrites the stamp is the least of every proposal its incident made
   since it took the object.
   */
  lemma {:induction false} StampIsLeastProposal(start: Annotations, events: seq<Event>, maxWait: int, codec: Codec)
    requires RoundTrips(codec) && ParseRequest(start, codec).None? && Genuine(events, maxWait)
    ensures Shows(Run(start, events, codec), Tenancy(events), codec)
  {
    if events != [] {
      var last := events[|events| - 1];
      StampIsLeastProposal(start, events[..|events| - 1], maxWait, codec);
      AskKeeps(Run(start, events[..|events| - 1], codec), Tenancy(events[..|events| - 1]),
               last.request, last.patch, maxWait, codec);
    }
  }

  /** The proposals of the requests that did not fail to be written. */
  function Proposals(events: seq<Event>): seq<Time>
    requires forall i :: 0 <= i < |events| ==> events[i].Ask?
  {
    if events == [] then []
    else
      var last := events[|events| - 1];
      Proposals(events[..|events| - 1]) + (if last.patch.Rejected? then [] else [last.request.deadlineAt])
  }

  lemma {:induction false} SoleTenure(events: seq<Event>, incident: string)
    requires forall i :: 0 <= i < |events| ==> events[i].Ask? && events[i].request.incident == incident
    ensures var t := Tenancy(events);
            if Proposals(events) == [] then t == Vacant
            else t.Tenure? && t.incident == incident && t.deadline == Least(Proposals(events))
  {
    if events != [] {
      var init, last := events[..|events| - 1], events[|events| - 1];
      SoleTenure(init, incident);
      if last.patch.Rejected? {
        assert Proposals(events) == Proposals(init);
      } else if Proposals(init) != [] {
        LeastAppend(Proposals(init), last.request.deadlineAt);
      }
    }
  }

  /**
   For one incident alone, over any number of restarts and changing budgets, the
   stamp equals the least proposal written so far, so it never moves later.
   */
  lemma SoleIncidentStamp(start: Annotations, events: seq<Event>, incident: string, maxWait: int, codec: Codec)
    requires RoundTrips(codec) && ParseRequest(start, codec).None? && Genuine(events, maxWait)
    requires forall i :: 0 <= i < |events| ==> events[i].request.incident == incident
    ensures var stamp := ParseRequest(Run(start, events, codec), codec);
            if Proposals(events) == [] then stamp.None?
            else stamp.Some? && stamp.value.incident == incident && stamp.value.deadlineAt == Least(Proposals(events))
  {
    StampIsLeastProposal(start, events, maxWait, codec);
    SoleTenure(events, incident);
  }

  /** One more request of the incident on the object never moves its deadline later. */
  lemma StampNeverLater(start: Annotations, events: seq<Event>, ev: Event, maxWait: int, codec: Codec)
    requires RoundTrips(codec) && ParseRequest(start, codec).None? && Genuine(events + [ev], maxWait)
    ensures var before := ParseRequest(Run(start, events, codec), codec);
            var after := ParseRequest(Run(start, events + [ev], codec), codec);
            before.Some? && after.Some? && after.value.incident == before.value.incident ==>
              after.value.deadlineAt <= before.value.deadlineAt
  {
    assert (events + [ev])[..|events|] == events;
    assert forall i :: 0 <= i < |events| ==> (events + [ev])[i] == events[i];
    assert (events + [ev])[|events|] == ev;
    StampIsLeastProposal(start, events, maxWait, codec);
    AskNeverLater(Run(start, events, codec), Tenancy(events), ev.request, ev.patch, maxWait, codec);
  }

  lemma AskNeverLater(onObject: Annotations, t: Tenure, r: Request, patch: Patch, maxWait: int, codec: Codec)
    requires RoundTrips(codec) && Shows(onObject, t, codec) && Stampable(r, maxWait)
    ensures var before := ParseRequest(onObject, codec);
            var after := ParseRequest(RequestCheckpoint(onObject, r, patch, codec).0, codec);
            before.Some? && after.Some? && after.value.incident == before.value.incident ==>
              after.value.deadlineAt <= before.value.deadlineAt
  {
    AskKeeps(onObject, t, r, patch, maxWait, codec);
  }

  /**
   Across incidents it can move later: once another incident has overwritten an
   expired stamp, the first one is granted a new window.
   */
  lemma OverwrittenStampIsRegranted(codec: Codec)
    requires RoundTrips(codec)
    ensures exists events :: Regranted(events, codec)
  {
    var events := [FIRST, OTHER, AGAIN];
    GenuineThree();
    RegrantedTenure();
    LateTenure(events, 12, codec);
  }

  const FIRST := Ask(Request("a", 1, 5, "ecc", "platform.drain"), Confirmed)
  const OTHER := Ask(Request("b", 6, 8, "ecc", "platform.drain"), Confirmed)
  const AGAIN := Ask(Request("a", 9, 12, "ecc", "platform.drain"), Confirmed)

  lemma LateTenure(events: seq<Event>, deadline: Time, codec: Codec)
    requires RoundTrips(codec) && Genuine(events, 10) && events != []
    requires Tenancy(events) == Tenure(events[0].request.incident, deadline, [deadline])
    requires deadline > events[0].request.deadlineAt
    ensures Regranted(events, codec)
  {
    BlankObject(codec);
    StampIsLeastProposal(map[], events, 10, codec);
  }

  /** A run of genuine requests after which the first incident's stamp lies past its first deadline. */
  ghost predicate Regranted(events: seq<Event>, codec: Codec) {
    && Genuine(events, 10) && events != []
    && var stamp := ParseRequest(Run(map[], events, codec), codec);
       stamp.Some? && stamp.value.incident == events[0].request.incident &&
       stamp.value.deadlineAt > events[0].request.deadlineAt
  }

  lemma BlankObject(codec: Codec)
    ensures ParseRequest(map[], codec).None?
  {
    assert TrimSpace("") == "";
  }

  lemma GenuineThree()
    ensures Genuine([FIRST, OTHER, AGAIN], 10)
  {
    TrimmedWords();
    assert Stampable(FIRST.request, 10) && Stampable(OTHER.request, 10) && Stampable(AGAIN.request, 10);
  }

  lemma RegrantedTenure()
    ensures Tenancy([FIRST, OTHER, AGAIN]) == Tenure("a", 12, [12])
  {
    assert [FIRST][..0] == [];
    assert Tenancy([FIRST]) == Tenure("a", 5, [5]);
    assert [FIRST, OTHER][..1] == [FIRST];
    assert Tenancy([FIRST, OTHER]) == Tenure("b", 8, [8]);
    assert [FIRST, OTHER, AGAIN][..2] == [FIRST, OTHER];
  }

  lemma TrimmedWords()
    ensures TrimSpace("a") == "a" && TrimSpace("b") == "b"
    ensures TrimSpace("ecc") != "" && TrimSpace("platform.drain") != ""
  {
    TrimPadded("", "a", "");
    TrimPadded("", "b", "");
    TrimPadded("", "ecc", "");
    TrimPadded("", "platform.drain", "");
    assert "" + "a" + "" == "a" && "" + "b" + "" == "b" && "" + "ecc" + "" == "ecc";
    assert "" + "platform.drain" + "" == "platform.drain";
  }
}
