/**
 The coordination pre-phase of a disruption step: ask every eligible workload,
 observe the answers between bounded sleeps, and settle every one of them before
 the disruption, within a budget that leaves the step its reserve.

 Time passes only inside calls to the outside and inside sleeps. Every behaviour
 of the outside is a script: what each call answers, how long it takes, and
 whether the step is cancelled meanwhile. A call never outlives the context it
 was given.
 */
module CheckpointCoordinator {
  import opened Common
  import opened CheckpointPolicy
  import opened CheckpointStamp

  const RESERVE: int := 90 * SECOND
  const RESULT_GRACE: int := 15 * SECOND
  const DEFAULT_STEP_TIMEOUT: int := 30 * MINUTE

  datatype Reply = Granted(request: Request) | Gone | OutOfScope | ForeignRequest(request: Request) | Conflict
    | OtherError

  /** One listed workload: whether it holds a GPU, and whether the drain under the step's force setting moves it. */
  datatype Listed = Listed(workload: Workload, usesGpu: bool, drains: bool)

  /** What the outside answers to a call made at this turn; an observation is about the workload it names. */
  datatype Turn = Turn(elapsed: nat, cancelled: bool, listing: Option<seq<Listed>>, reply: Reply,
                       observation: Workload -> Observation)

  /** How far the script has been used, the time, and whether the step's own context was cancelled. */
  datatype Moment = Moment(turn: nat, clock: Time, cancelled: bool)

  predicate Over(m: Moment, end: Time) { m.cancelled || m.clock >= end }

  /** After one call under a context that ends at the given instant. */
  function AfterCall(script: nat -> Turn, m: Moment, end: Time): (after: Moment)
    ensures after.turn == m.turn + 1 && m.clock <= after.clock <= Max(m.clock, end) && (m.cancelled ==> after.cancelled)
  {
    var t := script(m.turn);
    Moment(m.turn + 1, m.clock + Min(t.elapsed, Max(end - m.clock, 0)), m.cancelled || t.cancelled)
  }

  /** After a sleep of d, cut short when the context ends first. */
  function AfterSleep(script: nat -> Turn, m: Moment, d: int, end: Time): (after: Moment)
    requires d > 0
    ensures after.turn == m.turn + 1 && m.clock <= after.clock <= Min(m.clock + d, Max(m.clock, end))
    ensures m.cancelled ==> after.cancelled
    ensures !Over(after, end) ==> after.clock == m.clock + d
  {
    var t := script(m.turn);
    var left := Min(d, Max(end - m.clock, 0));
    if t.cancelled || m.cancelled then Moment(m.turn + 1, m.clock + Min(t.elapsed, left), true)
    else Moment(m.turn + 1, m.clock + left, false)
  }

  class Outside {
    const script: nat -> Turn
    var turn: nat
    var clock: Time
    var cancelled: bool

    constructor (s: nat -> Turn, start: Time)
      ensures script == s && Now() == Moment(0, start, false)
    {
      script := s;
      turn := 0;
      clock := start;
      cancelled := false;
    }

    function Now(): Moment
      reads this
    {
      Moment(turn, clock, cancelled)
    }

    method Call(end: Time) returns (t: Turn)
      modifies this
      ensures t == script(old(turn)) && Now() == AfterCall(script, old(Now()), end)
    {
      t := script(turn);
      turn := turn + 1;
      clock := clock + Min(t.elapsed, Max(end - clock, 0));
      cancelled := cancelled || t.cancelled;
    }

    /** Reports whether the context is still open. */
    method Sleep(d: int, end: Time) returns (open: bool)
      requires d > 0
      modifies this
      ensures Now() == AfterSleep(script, old(Now()), d, end) && open == !Over(Now(), end)
    {
      var t := script(turn);
      turn := turn + 1;
      var left := Min(d, Max(end - clock, 0));
      if t.cancelled || cancelled {
        cancelled := true;
        clock := clock + Min(t.elapsed, left);
        return false;
      }
      clock := clock + left;
      open := clock < end;
    }
  }

  // ----- Outcome counts -----

  /** How many workloads had each outcome. */
  datatype Counts = Counts(acknowledged: nat, exited: nat, pending: nat, expired: nat, unreachable: nat, skipped: nat)

  const NONE_COUNTED := Counts(0, 0, 0, 0, 0, 0)

  function Count(c: Counts, o: Outcome): nat {
    match o
    case Acknowledged => c.acknowledged
    case Exited => c.exited
    case Pending => c.pending
    case Expired => c.expired
    case Unreachable => c.unreachable
    case Skipped => c.skipped
  }

  function Bump(c: Counts, o: Outcome): Counts {
    match o
    case Acknowledged => c.(acknowledged := c.acknowledged + 1)
    case Exited => c.(exited := c.exited + 1)
    case Pending => c.(pending := c.pending + 1)
    case Expired => c.(expired := c.expired + 1)
    case Unreachable => c.(unreachable := c.unreachable + 1)
    case Skipped => c.(skipped := c.skipped + 1)
  }

  function Total(c: Counts): nat {
    c.acknowledged + c.exited + c.pending + c.expired + c.unreachable + c.skipped
  }

  /** Nothing but workloads no request is in force for. */
  predicate OnlyUnasked(c: Counts) { c == NONE_COUNTED.(exited := c.exited, unreachable := c.unreachable) }

  // ----- Pure decisions -----

  function EffectiveTimeout(timeout: int): int {
    if timeout > 0 then timeout else DEFAULT_STEP_TIMEOUT
  }

  function Budget(timeout: int, now: Time, stepEnd: Time): int {
    Min(EffectiveTimeout(timeout), stepEnd - now - RESULT_GRACE) - RESERVE
  }

  function SleepFor(at: Time, latest: Time, budgetEnd: Time, poll: int): int {
    Min(poll, Min(latest - at, budgetEnd - at))
  }

  /** A request in force; seen is the turn of the look that settled it, if one did. */
  datatype Tracked = Tracked(
    workload: Workload, incident: string, foreign: bool, requestedAt: Time, deadline: Time,
    outcome: Outcome, settled: Time, seen: Option<nat>, done: bool)

  /** One sleep of the observation loop: decided at `at`, begun at `from`, ended at `until`. */
  datatype Nap = Nap(at: Time, from: Time, length: int, until: Time)

  /** What every sleep keeps: it is never longer than asked, and never outlives the budget. */
  predicate NapOk(n: Nap, latest: Time, budgetEnd: Time, poll: int) {
    && n.length == SleepFor(n.at, latest, budgetEnd, poll) && n.length > 0
    && n.at <= n.from <= n.until <= n.from + n.length
    && n.until <= Max(n.from, budgetEnd)
  }

  /**
   A sleep that runs its full length ends by the latest deadline exactly when the
   reads between the clock reading and the sleep took no longer than the slack the
   length leaves; it can only overshoot by what those reads took.
   */
  lemma NapAgainstDeadline(n: Nap, latest: Time, budgetEnd: Time, poll: int)
    requires NapOk(n, latest, budgetEnd, poll)
    ensures n.until - latest <= n.from - n.at
    ensures n.until == n.from + n.length ==> (n.until <= latest <==> n.from - n.at <= latest - n.at - n.length)
    ensures n.from == n.at ==> n.until <= latest && n.until <= budgetEnd
  {
  }

  // ----- The pre-phase -----

  datatype Operation = Drain | EvictGpuWorkload | Other

  predicate Coordinates(op: Operation) { !op.Other? }

  predicate Touches(op: Operation, l: Listed) {
    match op
    case Drain => l.drains
    case EvictGpuWorkload => l.usesGpu
    case Other => true
  }

  datatype Setup = Setup(policy: Policy, codec: Codec, incident: string, problem: string, nextAction: string, poll: int)

  function Proposal(s: Setup, w: Workload, requestedAt: Time, budget: int): Request {
    Request(s.incident, requestedAt, requestedAt + BoundedWait(s.policy, w, s.codec, budget), s.problem, s.nextAction)
  }

  /** The workloads the disruption will touch. */
  function Touched(op: Operation, listing: seq<Listed>): seq<Workload> {
    if listing == [] then []
    else
      var init := Touched(op, listing[..|listing| - 1]);
      var last := listing[|listing| - 1];
      if Touches(op, last) then init + [last.workload] else init
  }

  lemma EligibleAppend(p: Policy, workloads: seq<Workload>, w: Workload, problem: string)
    ensures EligibleOf(p, workloads + [w], problem) ==
            EligibleOf(p, workloads, problem) + (if Eligible(p, w, problem) then [w] else [])
  {
    assert (workloads + [w])[..|workloads|] == workloads;
  }

  /** One loop does both: the workloads touched, then the ones the policy accepts. */
  method Candidates(s: Setup, op: Operation, listing: seq<Listed>) returns (out: seq<Workload>)
    ensures out == EligibleOf(s.policy, Touched(op, listing), s.problem)
  {
    out := [];
    for i := 0 to |listing|
      invariant out == EligibleOf(s.policy, Touched(op, listing[..i]), s.problem)
    {
      assert listing[..i + 1][..i] == listing[..i];
      EligibleAppend(s.policy, Touched(op, listing[..i]), listing[i].workload, s.problem);
      if Touches(op, listing[i]) && Eligible(s.policy, listing[i].workload, s.problem) {
        out := out + [listing[i].workload];
      }
    }
    assert listing[..|listing|] == listing;
  }

  /** The workloads a request goes to, once there is a budget; none when the phase is skipped or the node unseen. */
  function Asked(s: Setup, op: Operation, supported: bool, listing: Option<seq<Listed>>): Option<seq<Workload>> {
    if SkipsClass(s.policy, s.problem) || !supported || listing.None? then None
    else
      var chosen := EligibleOf(s.policy, Touched(op, listing.value), s.problem);
      if chosen == [] then None else Some(chosen)
  }

  function SkippedAs(s: Setup, supported: bool, listing: Option<seq<Listed>>): Outcome {
    if !SkipsClass(s.policy, s.problem) && supported && listing.None? then Unreachable else Skipped
  }

  /** What a look at the workload at this turn shows, against a clock reading. */
  function Sighting(tr: Tracked, at: Time, t: Turn, codec: Codec): Outcome {
    Classify(at, tr.incident, tr.deadline, tr.workload.uid, t.observation(tr.workload), codec)
  }

  /** A tracked request, open or settled, as this step's own arithmetic bounds it. */
  ghost predicate TrackedOk(tr: Tracked, s: Setup, requestedAt: Time, budget: int, script: nat -> Turn, turn: nat) {
    && tr.deadline <= requestedAt + BoundedWait(s.policy, tr.workload, s.codec, budget)
    && requestedAt - MAX_WAIT_CEILING <= tr.requestedAt <= requestedAt
    && (tr.foreign <==> tr.incident != s.incident)
    && (!tr.done ==> tr.seen.None?)
    && (tr.done ==> !tr.outcome.Pending? && !tr.outcome.Skipped? && SettledOk(tr, s, script, turn))
  }

  /**
   What a look settled is what that look at this very workload showed. Only a look finds
   a workload gone, or sees it answer the request in force; an expired one had its whole
   window.
   */
  ghost predicate SettledOk(tr: Tracked, s: Setup, script: nat -> Turn, turn: nat) {
    && (tr.seen.Some? ==>
          tr.seen.value < turn && tr.outcome == Sighting(tr, tr.settled, script(tr.seen.value), s.codec))
    && (tr.outcome.Exited? ==> tr.seen.Some?)
    && (tr.outcome.Acknowledged? ==>
          && tr.seen.Some?
          && var observation := script(tr.seen.value).observation(tr.workload);
             AcknowledgesInForce(tr.incident, observation.annotations, s.codec))
    && (tr.outcome.Expired? ==> tr.settled >= tr.deadline)
  }

  ghost predicate AllTracked(tracked: seq<Tracked>, s: Setup, requestedAt: Time, budget: int, script: nat -> Turn,
                             turn: nat) {
    forall i :: 0 <= i < |tracked| ==> TrackedOk(tracked[i], s, requestedAt, budget, script, turn)
  }

  lemma AllTrackedLater(tracked: seq<Tracked>, s: Setup, requestedAt: Time, budget: int, script: nat -> Turn,
                        turn: nat, later: nat)
    requires AllTracked(tracked, s, requestedAt, budget, script, turn) && turn <= later
    ensures AllTracked(tracked, s, requestedAt, budget, script, later)
  {
    forall i | 0 <= i < |tracked| ensures TrackedOk(tracked[i], s, requestedAt, budget, script, later) {
      assert TrackedOk(tracked[i], s, requestedAt, budget, script, turn);
    }
  }

  predicate AllDone(tracked: seq<Tracked>) {
    forall i :: 0 <= i < |tracked| ==> tracked[i].done
  }

  /** The same requests, possibly more of them settled. */
  predicate SameRequest(before: Tracked, after: Tracked) {
    if before.done then after == before
    else
      before == after.(outcome := before.outcome, settled := before.settled, seen := before.seen, done := before.done)
  }

  predicate SameRequests(before: seq<Tracked>, after: seq<Tracked>) {
    |before| == |after| && forall i :: 0 <= i < |before| ==> SameRequest(before[i], after[i])
  }

  lemma SameRequestsTransitive(a: seq<Tracked>, b: seq<Tracked>, c: seq<Tracked>)
    requires SameRequests(a, b) && SameRequests(b, c)
    ensures SameRequests(a, c)
  {
    forall i | 0 <= i < |a| ensures SameRequest(a[i], c[i]) {
      assert SameRequest(a[i], b[i]) && SameRequest(b[i], c[i]);
    }
  }

  // ----- Asking -----

  /** What a live request of another incident must look like to be waited for. */
  predicate Binds(q: Request, s: Setup, requestedAt: Time) {
    q.incident != "" && q.incident != s.incident && q.deadlineAt > requestedAt
  }

  /** The reply that counts: a conflict is asked about once more while the window is open. */
  function Asking(script: nat -> Turn, m: Moment, end: Time): (Reply, Moment) {
    var first, after := script(m.turn).reply, AfterCall(script, m, end);
    if first.Conflict? && !Over(after, end) then (script(after.turn).reply, AfterCall(script, after, end))
    else (first, after)
  }

  /** The workload as tracked, when the reply leaves a request in force. */
  function Granting(s: Setup, w: Workload, r: Request, reply: Reply): Option<Tracked> {
    if reply.Granted? || (reply.ForeignRequest? && Binds(reply.request, s, r.requestedAt)) then
      Some(Tracked(w, if reply.Granted? then s.incident else reply.request.incident, reply.ForeignRequest?,
                   RequestStart(reply.request.requestedAt, r.requestedAt),
                   CapDeadline(reply.request.deadlineAt, r.deadlineAt), Pending, ZERO_TIME, None, false))
    else None
  }

  /** The outcome of a workload no request is in force for. */
  function Unasked(reply: Reply): Outcome {
    if reply.Gone? || reply.OutOfScope? then Exited else Unreachable
  }

  datatype Requested = Requested(tracked: seq<Tracked>, counts: Counts, moment: Moment)

  /** One more candidate; none is asked once the window is over. */
  function RequestNext(script: nat -> Turn, before: Requested, s: Setup, w: Workload, requestedAt: Time,
                       budget: int): Requested {
    if Over(before.moment, requestedAt + budget) then before.(counts := Bump(before.counts, Unreachable))
    else
      var (reply, after) := Asking(script, before.moment, requestedAt + budget);
      var tr := Granting(s, w, Proposal(s, w, requestedAt, budget), reply);
      if tr.Some? then Requested(before.tracked + [tr.value], before.counts, after)
      else Requested(before.tracked, Bump(before.counts, Unasked(reply)), after)
  }

  /** The requests of a step, one candidate after the other. */
  function Requests(script: nat -> Turn, m: Moment, s: Setup, candidates: seq<Workload>, requestedAt: Time,
                    budget: int): Requested {
    if candidates == [] then Requested([], NONE_COUNTED, m)
    else
      RequestNext(script, Requests(script, m, s, candidates[..|candidates| - 1], requestedAt, budget), s,
                  candidates[|candidates| - 1], requestedAt, budget)
  }

  lemma RequestsAppend(script: nat -> Turn, m: Moment, s: Setup, candidates: seq<Workload>, i: nat, requestedAt: Time,
                       budget: int)
    requires i < |candidates|
    ensures Requests(script, m, s, candidates[..i + 1], requestedAt, budget) ==
            RequestNext(script, Requests(script, m, s, candidates[..i], requestedAt, budget), s, candidates[i],
                        requestedAt, budget)
  {
    assert candidates[..i + 1][..i] == candidates[..i];
  }

  lemma GrantingOk(s: Setup, w: Workload, requestedAt: Time, budget: int, reply: Reply, script: nat -> Turn, turn: nat)
    ensures var tr := Granting(s, w, Proposal(s, w, requestedAt, budget), reply);
            tr.Some? ==> TrackedOk(tr.value, s, requestedAt, budget, script, turn) && !tr.value.done
  {
  }

  ghost predicate RequestedOk(r: Requested, candidates: nat, s: Setup, requestedAt: Time, budget: int,
                              script: nat -> Turn) {
    && Total(r.counts) + |r.tracked| == candidates
    && OnlyUnasked(r.counts)
    && AllTracked(r.tracked, s, requestedAt, budget, script, r.moment.turn)
  }

  lemma RequestNextOk(script: nat -> Turn, before: Requested, candidates: nat, s: Setup, w: Workload,
                      requestedAt: Time, budget: int)
    requires RequestedOk(before, candidates, s, requestedAt, budget, script)
    ensures var after := RequestNext(script, before, s, w, requestedAt, budget);
            && RequestedOk(after, candidates + 1, s, requestedAt, budget, script)
            && before.moment.clock <= after.moment.clock <= Max(before.moment.clock, requestedAt + budget)
  {
    if !Over(before.moment, requestedAt + budget) {
      var (reply, after) := Asking(script, before.moment, requestedAt + budget);
      AllTrackedLater(before.tracked, s, requestedAt, budget, script, before.moment.turn, after.turn);
      GrantingOk(s, w, requestedAt, budget, reply, script, after.turn);
    }
  }

  /** Every candidate is tracked or counted exactly once, and every tracked deadline is within its bound. */
  lemma {:induction false} RequestsOk(script: nat -> Turn, m: Moment, s: Setup, candidates: seq<Workload>,
                                      requestedAt: Time, budget: int)
    ensures var r := Requests(script, m, s, candidates, requestedAt, budget);
            && RequestedOk(r, |candidates|, s, requestedAt, budget, script)
            && m.clock <= r.moment.clock <= Max(m.clock, requestedAt + budget)
  {
    if candidates != [] {
      var init, w := candidates[..|candidates| - 1], candidates[|candidates| - 1];
      RequestsOk(script, m, s, init, requestedAt, budget);
      RequestNextOk(script, Requests(script, m, s, init, requestedAt, budget), |init|, s, w, requestedAt, budget);
    }
  }

  // ----- Observing -----

  /** What one look settles, against the clock reading of its pass. */
  function Look(script: nat -> Turn, turn: nat, tr: Tracked, at: Time, codec: Codec): Tracked {
    var outcome := Sighting(tr, at, script(turn), codec);
    if Settled(outcome) || (outcome.Unreachable? && at >= tr.deadline)
    then tr.(outcome := outcome, settled := at, seen := Some(turn), done := true)
    else tr
  }

  datatype Looked = Looked(tracked: seq<Tracked>, pending: nat, moment: Moment)

  /** One pass over the open requests; a settled one, or one after the window, is not looked at. */
  function Looks(script: nat -> Turn, m: Moment, codec: Codec, tracked: seq<Tracked>, at: Time, end: Time): Looked {
    if tracked == [] then Looked([], 0, m)
    else
      var before, tr := Looks(script, m, codec, tracked[..|tracked| - 1], at, end), tracked[|tracked| - 1];
      if tr.done || Over(before.moment, end) then before.(tracked := before.tracked + [tr])
      else
        var after := Look(script, before.moment.turn, tr, at, codec);
        Looked(before.tracked + [after], before.pending + (if after.done then 0 else 1),
               AfterCall(script, before.moment, end))
  }

  lemma LookOk(tr: Tracked, at: Time, s: Setup, requestedAt: Time, budget: int, script: nat -> Turn, turn: nat)
    requires TrackedOk(tr, s, requestedAt, budget, script, turn) && !tr.done
    ensures var after := Look(script, turn, tr, at, s.codec);
            && TrackedOk(after, s, requestedAt, budget, script, turn + 1) && SameRequest(tr, after)
            && (!after.done ==> at < after.deadline)
  {
  }

  /** While the window stays open, whatever a pass leaves open has not reached its own deadline. */
  predicate OpenInTime(tracked: seq<Tracked>, at: Time, pending: nat) {
    forall i :: 0 <= i < |tracked| && !tracked[i].done ==> at < tracked[i].deadline && pending > 0
  }

  ghost predicate LookedOk(l: Looked, m: Moment, tracked: seq<Tracked>, s: Setup, at: Time, requestedAt: Time,
                           budget: int, script: nat -> Turn) {
    && SameRequests(tracked, l.tracked) && m.turn <= l.moment.turn
    && AllTracked(l.tracked, s, requestedAt, budget, script, l.moment.turn)
    && m.clock <= l.moment.clock <= Max(m.clock, requestedAt + budget) && (m.cancelled ==> l.moment.cancelled)
    && (!Over(l.moment, requestedAt + budget) ==> OpenInTime(l.tracked, at, l.pending))
  }

  lemma LookedMore(l: Looked, m: Moment, init: seq<Tracked>, tr: Tracked, after: Tracked, pending: nat, moment: Moment,
                   s: Setup, at: Time, requestedAt: Time, budget: int, script: nat -> Turn)
    requires LookedOk(l, m, init, s, at, requestedAt, budget, script)
    requires l.pending <= pending && l.moment.turn <= moment.turn && (l.moment.cancelled ==> moment.cancelled)
    requires l.moment.clock <= moment.clock <= Max(l.moment.clock, requestedAt + budget)
    requires SameRequest(tr, after) && TrackedOk(after, s, requestedAt, budget, script, moment.turn)
    requires !Over(moment, requestedAt + budget) && !after.done ==> at < after.deadline && pending > 0
    ensures LookedOk(Looked(l.tracked + [after], pending, moment), m, init + [tr], s, at, requestedAt, budget, script)
  {
    AllTrackedLater(l.tracked, s, requestedAt, budget, script, l.moment.turn, moment.turn);
  }

  lemma {:induction false} LooksOk(script: nat -> Turn, m: Moment, s: Setup, tracked: seq<Tracked>, at: Time,
                                   requestedAt: Time, budget: int)
    requires AllTracked(tracked, s, requestedAt, budget, script, m.turn)
    ensures LookedOk(Looks(script, m, s.codec, tracked, at, requestedAt + budget), m, tracked, s, at, requestedAt,
                     budget, script)
  {
    if tracked != [] {
      var init, tr := tracked[..|tracked| - 1], tracked[|tracked| - 1];
      var end := requestedAt + budget;
      LooksOk(script, m, s, init, at, requestedAt, budget);
      var before := Looks(script, m, s.codec, init, at, end);
      OneTrackedLater(tr, s, requestedAt, budget, script, m.turn, before.moment.turn);
      assert tracked == init + [tr];
      if tr.done || Over(before.moment, end) {
        LookedMore(before, m, init, tr, tr, before.pending, before.moment, s, at, requestedAt, budget, script);
      } else {
        LookOk(tr, at, s, requestedAt, budget, script, before.moment.turn);
        var after := Look(script, before.moment.turn, tr, at, s.codec);
        LookedMore(before, m, init, tr, after, before.pending + (if after.done then 0 else 1),
                   AfterCall(script, before.moment, end), s, at, requestedAt, budget, script);
      }
    }
  }

  datatype Observed = Observed(tracked: seq<Tracked>, moment: Moment, naps: seq<Nap>)

  lemma {:induction false} LooksClock(script: nat -> Turn, m: Moment, codec: Codec, tracked: seq<Tracked>, at: Time,
                                      end: Time)
    ensures Looks(script, m, codec, tracked, at, end).moment.clock >= m.clock
  {
    if tracked != [] {
      LooksClock(script, m, codec, tracked[..|tracked| - 1], at, end);
    }
  }

  /** One round: a pass, then nothing more, or a sleep after which the window may be over. */
  datatype Round = Round(tracked: seq<Tracked>, moment: Moment, nap: Option<Nap>)

  function OneRound(script: nat -> Turn, m: Moment, s: Setup, tracked: seq<Tracked>, end: Time, latest: Time): Round {
    var l := Looks(script, m, s.codec, tracked, m.clock, end);
    var d := SleepFor(m.clock, latest, end, s.poll);
    if l.pending == 0 || m.clock >= latest || Over(l.moment, end) || d <= 0 then Round(l.tracked, l.moment, None)
    else
      var after := AfterSleep(script, l.moment, d, end);
      Round(l.tracked, after, Some(Nap(m.clock, l.moment.clock, d, after.clock)))
  }

  lemma RoundTakesTime(script: nat -> Turn, m: Moment, s: Setup, tracked: seq<Tracked>, end: Time, latest: Time)
    ensures var r := OneRound(script, m, s, tracked, end, latest);
            r.moment.clock >= m.clock && (r.nap.Some? && !Over(r.moment, end) ==> r.moment.clock > m.clock)
  {
    LooksClock(script, m, s.codec, tracked, m.clock, end);
  }

  /** Round after round until everything settled or the window is over. */
  function Observes(script: nat -> Turn, m: Moment, s: Setup, tracked: seq<Tracked>, end: Time, latest: Time): Observed
    decreases end - m.clock
  {
    if Over(m, end) then Observed(tracked, m, [])
    else
      var r := OneRound(script, m, s, tracked, end, latest);
      RoundTakesTime(script, m, s, tracked, end, latest);
      if r.nap.None? then Observed(r.tracked, r.moment, [])
      else if Over(r.moment, end) then Observed(r.tracked, r.moment, [r.nap.value])
      else
        var rest := Observes(script, r.moment, s, r.tracked, end, latest);
        Prepend([r.nap.value], rest)
  }

  function Prepend(naps: seq<Nap>, o: Observed): Observed { o.(naps := naps + o.naps) }

  lemma PrependOne(naps: seq<Nap>, nap: Nap, o: Observed)
    ensures Prepend(naps, Prepend([nap], o)) == Prepend(naps + [nap], o)
  {
    assert naps + ([nap] + o.naps) == (naps + [nap]) + o.naps;
  }

  lemma ObservesNext(script: nat -> Turn, m: Moment, s: Setup, tracked: seq<Tracked>, end: Time, latest: Time, r: Round)
    requires !Over(m, end) && r == OneRound(script, m, s, tracked, end, latest)
    ensures var rest := Observes(script, r.moment, s, r.tracked, end, latest);
            Observes(script, m, s, tracked, end, latest) ==
            if r.nap.None? then Observed(r.tracked, r.moment, []) else Prepend([r.nap.value], rest)
    ensures r.nap.Some? && !Over(r.moment, end) ==> r.moment.clock > m.clock
  {
    RoundTakesTime(script, m, s, tracked, end, latest);
  }

  /** Where the loop stands when its i-th round begins. */
  function RoundStart(script: nat -> Turn, m: Moment, s: Setup, tracked: seq<Tracked>, end: Time, latest: Time, i: nat)
    : (Moment, seq<Tracked>)
    decreases i
  {
    if i == 0 then (m, tracked)
    else
      var r := OneRound(script, m, s, tracked, end, latest);
      RoundStart(script, r.moment, s, r.tracked, end, latest, i - 1)
  }

  lemma {:induction false} NapOfRound(script: nat -> Turn, m: Moment, s: Setup, tracked: seq<Tracked>, end: Time,
                                      latest: Time, i: nat)
    requires i < |Observes(script, m, s, tracked, end, latest).naps|
    ensures var (at, open) := RoundStart(script, m, s, tracked, end, latest, i);
            OneRound(script, at, s, open, end, latest).nap == Some(Observes(script, m, s, tracked, end, latest).naps[i])
    decreases i
  {
    var r := OneRound(script, m, s, tracked, end, latest);
    ObservesNext(script, m, s, tracked, end, latest, r);
    if i > 0 {
      NapOfRound(script, r.moment, s, r.tracked, end, latest, i - 1);
    }
  }

  /**
   Exactly when a sleep of the loop, not cancelled, ends by the latest deadline: the
   budget ends no later, or the observations of its round took no longer than the
   slack, which is what a poll interval leaves of the time to that deadline.
   */
  lemma NapInTimeIff(script: nat -> Turn, m: Moment, s: Setup, tracked: seq<Tracked>, end: Time, latest: Time, i: nat)
    requires i < |Observes(script, m, s, tracked, end, latest).naps|
    ensures var (at, open) := RoundStart(script, m, s, tracked, end, latest, i);
            var read := Looks(script, at, s.codec, open, at.clock, end).moment;
            !script(read.turn).cancelled ==>
              (Observes(script, m, s, tracked, end, latest).naps[i].until <= latest <==>
               (end <= latest || read.clock - at.clock <= Max(latest - at.clock - s.poll, 0)))
  {
    NapOfRound(script, m, s, tracked, end, latest, i);
  }

  ghost predicate NapsOk(naps: seq<Nap>, latest: Time, budgetEnd: Time, poll: int) {
    forall i :: 0 <= i < |naps| ==> NapOk(naps[i], latest, budgetEnd, poll)
  }

  /** The observation ends only when everything settled or the window is over, and every sleep kept its bounds. */
  ghost predicate ObservedOk(o: Observed, before: seq<Tracked>, s: Setup, requestedAt: Time, budget: int,
                             script: nat -> Turn, latest: Time) {
    && SameRequests(before, o.tracked)
    && AllTracked(o.tracked, s, requestedAt, budget, script, o.moment.turn)
    && (AllDone(o.tracked) || Over(o.moment, requestedAt + budget))
    && NapsOk(o.naps, latest, requestedAt + budget, s.poll)
  }

  lemma NothingOpen(tracked: seq<Tracked>, at: Time, pending: nat, latest: Time)
    requires OpenInTime(tracked, at, pending) && forall i :: 0 <= i < |tracked| ==> tracked[i].deadline <= latest
    requires pending == 0 || at >= latest
    ensures AllDone(tracked)
  {
  }

  /** A round without a sleep leaves nothing open while the window lasts; a sleep keeps its bounds. */
  lemma RoundOk(script: nat -> Turn, m: Moment, s: Setup, tracked: seq<Tracked>, requestedAt: Time, budget: int,
                latest: Time)
    requires s.poll > 0 && AllTracked(tracked, s, requestedAt, budget, script, m.turn)
    requires forall i :: 0 <= i < |tracked| ==> tracked[i].deadline <= latest
    ensures var r := OneRound(script, m, s, tracked, requestedAt + budget, latest);
            && SameRequests(tracked, r.tracked) && AllTracked(r.tracked, s, requestedAt, budget, script, r.moment.turn)
            && (r.nap.None? ==> AllDone(r.tracked) || Over(r.moment, requestedAt + budget))
            && (r.nap.Some? ==> NapOk(r.nap.value, latest, requestedAt + budget, s.poll))
            && m.clock <= r.moment.clock <= Max(m.clock, requestedAt + budget)
  {
    var end := requestedAt + budget;
    LooksOk(script, m, s, tracked, m.clock, requestedAt, budget);
    var l := Looks(script, m, s.codec, tracked, m.clock, end);
    var d := SleepFor(m.clock, latest, end, s.poll);
    SameDeadlines(tracked, l.tracked);
    if Over(l.moment, end) {
    } else if l.pending == 0 || m.clock >= latest {
      NothingOpen(l.tracked, m.clock, l.pending, latest);
    } else {
      assert d > 0;
      AllTrackedLater(l.tracked, s, requestedAt, budget, script, l.moment.turn, l.moment.turn + 1);
    }
  }

  lemma {:induction false} ObservesOk(script: nat -> Turn, m: Moment, s: Setup, tracked: seq<Tracked>,
                                      requestedAt: Time, budget: int, latest: Time)
    requires s.poll > 0 && AllTracked(tracked, s, requestedAt, budget, script, m.turn)
    requires forall i :: 0 <= i < |tracked| ==> tracked[i].deadline <= latest
    ensures var o := Observes(script, m, s, tracked, requestedAt + budget, latest);
            && ObservedOk(o, tracked, s, requestedAt, budget, script, latest)
            && m.clock <= o.moment.clock <= Max(m.clock, requestedAt + budget)
    decreases requestedAt + budget - m.clock
  {
    var end := requestedAt + budget;
    if !Over(m, end) {
      RoundOk(script, m, s, tracked, requestedAt, budget, latest);
      RoundTakesTime(script, m, s, tracked, end, latest);
      var r := OneRound(script, m, s, tracked, end, latest);
      if r.nap.Some? && !Over(r.moment, end) {
        SameDeadlines(tracked, r.tracked);
        ObservesOk(script, r.moment, s, r.tracked, requestedAt, budget, latest);
        SameRequestsTransitive(tracked, r.tracked, Observes(script, r.moment, s, r.tracked, end, latest).tracked);
      }
    }
  }

  lemma SameDeadlines(before: seq<Tracked>, after: seq<Tracked>)
    requires SameRequests(before, after)
    ensures forall i :: 0 <= i < |before| ==> after[i].deadline == before[i].deadline
  {
    forall i | 0 <= i < |before| ensures after[i].deadline == before[i].deadline {
      assert SameRequest(before[i], after[i]);
    }
  }

  /** The latest deadline in force. */
  function Latest(tracked: seq<Tracked>): Time
    requires tracked != []
  {
    if |tracked| == 1 then tracked[0].deadline
    else
      var init, last := Latest(tracked[..|tracked| - 1]), tracked[|tracked| - 1].deadline;
      if last > init then last else init
  }

  lemma {:induction false} LatestIsMaximum(tracked: seq<Tracked>)
    requires tracked != []
    ensures forall i :: 0 <= i < |tracked| ==> tracked[i].deadline <= Latest(tracked)
    ensures exists i :: 0 <= i < |tracked| && tracked[i].deadline == Latest(tracked)
  {
    if |tracked| == 1 {
      assert tracked[0].deadline == Latest(tracked);
    } else {
      var init := tracked[..|tracked| - 1];
      LatestIsMaximum(init);
      assert forall i :: 0 <= i < |init| ==> init[i] == tracked[i];
      var i :| 0 <= i < |init| && init[i].deadline == Latest(init);
      assert tracked[i].deadline == Latest(init);
      assert tracked[|tracked| - 1].deadline == Latest(tracked) || tracked[i].deadline == Latest(tracked);
    }
  }

  method LatestDeadline(tracked: seq<Tracked>) returns (latest: Time)
    requires tracked != []
    ensures latest == Latest(tracked)
  {
    latest := tracked[0].deadline;
    for i := 1 to |tracked|
      invariant latest == Latest(tracked[..i])
    {
      assert tracked[..i + 1][..i] == tracked[..i];
      if tracked[i].deadline > latest {
        latest := tracked[i].deadline;
      }
    }
    assert tracked[..|tracked|] == tracked;
  }

  // ----- From the first request to the last count -----

  datatype Phase = Phase(final: seq<Tracked>, counts: Counts, moment: Moment, naps: seq<Nap>)

  /** The requests in force are waited for, settled and counted. */
  function WaitsFor(script: nat -> Turn, r: Requested, s: Setup, end: Time): Phase {
    if r.tracked == [] then Phase([], r.counts, r.moment, [])
    else
      var o := Observes(script, r.moment, s, r.tracked, end, Latest(r.tracked));
      var final := SettledAt(o.tracked, o.moment.clock, o.moment.cancelled);
      Phase(final, CountAll(r.counts, final), o.moment, o.naps)
  }

  /** Conservation, bounds and honesty of the outcomes of one phase. */
  ghost predicate PhaseOk(f: Phase, candidates: nat, s: Setup, requestedAt: Time, budget: int, script: nat -> Turn) {
    && Total(f.counts) == candidates && Count(f.counts, Pending) == 0 && Count(f.counts, Skipped) == 0
    && Count(f.counts, Acknowledged) == Tally(f.final, Acknowledged)
    && Count(f.counts, Expired) == Tally(f.final, Expired)
    && AllDone(f.final) && AllTracked(f.final, s, requestedAt, budget, script, f.moment.turn)
    && (f.naps != [] ==> f.final != [] && NapsOk(f.naps, Latest(f.final), requestedAt + budget, s.poll))
    && f.moment.clock <= requestedAt + budget
  }

  /**
   Once requests begin: the counts sum to the candidates and none is pending, every
   deadline is within its grant and the budget, an expired workload had its whole
   window, an acknowledged one answered the request in force, every sleep kept its
   bounds, and the phase ends within the budget.
   */
  lemma WaitsOk(script: nat -> Turn, m: Moment, s: Setup, candidates: seq<Workload>, requestedAt: Time, budget: int)
    requires s.poll > 0 && m.clock <= requestedAt + budget
    ensures PhaseOk(WaitsFor(script, Requests(script, m, s, candidates, requestedAt, budget), s, requestedAt + budget),
                    |candidates|, s, requestedAt, budget, script)
  {
    RequestsOk(script, m, s, candidates, requestedAt, budget);
    WaitsForOk(script, Requests(script, m, s, candidates, requestedAt, budget), |candidates|, s, requestedAt, budget);
  }

  /** The phase never outlives its budget. */
  lemma WaitsEnd(script: nat -> Turn, m: Moment, s: Setup, candidates: seq<Workload>, requestedAt: Time, budget: int)
    requires s.poll > 0 && m.clock <= requestedAt + budget
    ensures var asked := Requests(script, m, s, candidates, requestedAt, budget);
            WaitsFor(script, asked, s, requestedAt + budget).moment.clock <= requestedAt + budget
  {
    WaitsOk(script, m, s, candidates, requestedAt, budget);
  }

  lemma WaitsForOk(script: nat -> Turn, r: Requested, candidates: nat, s: Setup, requestedAt: Time, budget: int)
    requires s.poll > 0 && r.moment.clock <= requestedAt + budget &&
             RequestedOk(r, candidates, s, requestedAt, budget, script)
    ensures PhaseOk(WaitsFor(script, r, s, requestedAt + budget), candidates, s, requestedAt, budget, script)
  {
    if r.tracked != [] {
      var latest := Latest(r.tracked);
      LatestIsMaximum(r.tracked);
      ObservesOk(script, r.moment, s, r.tracked, requestedAt, budget, latest);
      var o := Observes(script, r.moment, s, r.tracked, requestedAt + budget, latest);
      var final := SettledAt(o.tracked, o.moment.clock, o.moment.cancelled);
      SettledKeeps(o.tracked, o.moment.clock, o.moment.cancelled, s, requestedAt, budget, script, o.moment.turn);
      SameRequestsTransitive(r.tracked, o.tracked, final);
      LatestKept(r.tracked, final);
      CountedOutcomes(r.counts, final, s, requestedAt, budget, script, o.moment.turn);
    }
  }

  lemma LatestKept(before: seq<Tracked>, after: seq<Tracked>)
    requires SameRequests(before, after) && before != []
    ensures Latest(after) == Latest(before)
  {
    SameDeadlines(before, after);
    LatestIsMaximum(before);
    LatestIsMaximum(after);
    var i :| 0 <= i < |before| && before[i].deadline == Latest(before);
    var j :| 0 <= j < |after| && after[j].deadline == Latest(after);
    assert after[i].deadline == before[i].deadline && after[j].deadline == before[j].deadline;
  }

  // ----- A slow observation -----

  function Slow(codec: Codec): Setup {
    Setup(Policy(true, 4 * SECOND, 4 * SECOND, [], ["jobs"]), codec, "i", "xid", "drain", 2 * SECOND)
  }

  const TRAINING := Workload("jobs", "training", "u", map[])

  /** Grants the first request, then takes three seconds over every look at an unfinished workload. */
  function SlowOutside(turn: nat): Turn {
    var answer := Granted(Request("i", 100 * SECOND, 104 * SECOND, "xid", "drain"));
    var running := (w: Workload) => Observation(false, true, w.uid, false, map[]);
    Turn(if turn == 0 then 0 else 3 * SECOND, false, None, answer, running)
  }

  const OPEN_REQUEST := Tracked(TRAINING, "i", false, 100 * SECOND, 104 * SECOND, Pending, ZERO_TIME, None, false)

  lemma SlowRequest(codec: Codec)
    ensures Requests(SlowOutside, Moment(0, 100 * SECOND, false), Slow(codec), [TRAINING], 100 * SECOND, 10 * SECOND) ==
            Requested([OPEN_REQUEST], NONE_COUNTED, Moment(1, 100 * SECOND, false))
  {
    assert [TRAINING][..0] == [];
    assert BoundedWait(Slow(codec).policy, TRAINING, codec, 10 * SECOND) == 4 * SECOND;
  }

  lemma SlowRound(codec: Codec)
    ensures var m := Moment(1, 100 * SECOND, false);
            OneRound(SlowOutside, m, Slow(codec), [OPEN_REQUEST], 110 * SECOND, 104 * SECOND).nap ==
            Some(Nap(100 * SECOND, 103 * SECOND, 2 * SECOND, 105 * SECOND))
  {
    BlankObject(codec);
    assert [OPEN_REQUEST][..0] == [];
    var look := Look(SlowOutside, 1, OPEN_REQUEST, 100 * SECOND, codec);
    assert look == OPEN_REQUEST;
    var m := Moment(1, 100 * SECOND, false);
    assert Looks(SlowOutside, m, codec, [], 100 * SECOND, 110 * SECOND) == Looked([], 0, m);
    assert Looks(SlowOutside, m, codec, [OPEN_REQUEST], 100 * SECOND, 110 * SECOND) ==
           Looked([OPEN_REQUEST], 1, Moment(2, 103 * SECOND, false));
  }

  /**
   A whole phase whose first sleep ends a second after the only deadline in force,
   inside the budget: the look before it took three seconds, and the slack was two.
   */
  lemma SlowReadsOvershoot(codec: Codec)
    ensures var start := Moment(0, 100 * SECOND, false);
            var asked := Requests(SlowOutside, start, Slow(codec), [TRAINING], start.clock, 10 * SECOND);
            var phase := WaitsFor(SlowOutside, asked, Slow(codec), 110 * SECOND);
            && asked.tracked != [] && phase.naps != []
            && Latest(asked.tracked) + SECOND == phase.naps[0].until < 110 * SECOND
  {
    SlowRequest(codec);
    SlowRound(codec);
    var m := Moment(1, 100 * SECOND, false);
    var r := OneRound(SlowOutside, m, Slow(codec), [OPEN_REQUEST], 110 * SECOND, 104 * SECOND);
    ObservesNext(SlowOutside, m, Slow(codec), [OPEN_REQUEST], 110 * SECOND, 104 * SECOND, r);
  }

  class Coordinator {
    const outside: Outside

    constructor (o: Outside)
      ensures outside == o
    {
      outside := o;
    }

    /** One request, or the outcome that settles the workload without one. */
    method RequestOne(s: Setup, w: Workload, r: Request, end: Time) returns (tr: Option<Tracked>, outcome: Outcome)
      requires r.incident == s.incident
      modifies outside
      ensures var (reply, after) := Asking(outside.script, old(outside.Now()), end);
              outside.Now() == after && tr == Granting(s, w, r, reply) && (tr.None? ==> outcome == Unasked(reply))
    {
      var t := outside.Call(end);
      if t.reply.Conflict? && !Over(outside.Now(), end) {
        t := outside.Call(end);
      }
      match t.reply
      case Granted(q) =>
        tr := Some(Tracked(w, s.incident, false, RequestStart(q.requestedAt, r.requestedAt),
                           CapDeadline(q.deadlineAt, r.deadlineAt), Pending, ZERO_TIME, None, false));
        outcome := Pending;
      case Gone => return None, Exited;
      case OutOfScope => return None, Exited;
      case ForeignRequest(q) =>
        if q.incident != "" && q.incident != s.incident && q.deadlineAt > r.requestedAt {
          tr := Some(Tracked(w, q.incident, true, RequestStart(q.requestedAt, r.requestedAt),
                             CapDeadline(q.deadlineAt, r.deadlineAt), Pending, ZERO_TIME, None, false));
          outcome := Pending;
        } else {
          return None, Unreachable;
        }
      case Conflict => return None, Unreachable;
      case OtherError => return None, Unreachable;
    }

    method RequestNextCandidate(s: Setup, w: Workload, before: seq<Tracked>, counted: Counts, requestedAt: Time,
                                budget: int)
      returns (tracked: seq<Tracked>, counts: Counts)
      modifies outside
      ensures Requested(tracked, counts, outside.Now())
           == RequestNext(outside.script, Requested(before, counted, old(outside.Now())), s, w, requestedAt, budget)
    {
      tracked, counts := before, counted;
      if Over(outside.Now(), requestedAt + budget) {
        counts := Bump(counts, Unreachable);
        return;
      }
      var tr, outcome := RequestOne(s, w, Proposal(s, w, requestedAt, budget), requestedAt + budget);
      if tr.Some? {
        tracked := tracked + [tr.value];
      } else {
        counts := Bump(counts, outcome);
      }
    }

    method RequestAll(s: Setup, candidates: seq<Workload>, requestedAt: Time, budget: int)
      returns (tracked: seq<Tracked>, counts: Counts)
      modifies outside
      ensures Requested(tracked, counts, outside.Now()) ==
              Requests(outside.script, old(outside.Now()), s, candidates, requestedAt, budget)
    {
      tracked, counts := [], NONE_COUNTED;
      for i := 0 to |candidates|
        invariant Requested(tracked, counts, outside.Now())
               == Requests(outside.script, old(outside.Now()), s, candidates[..i], requestedAt, budget)
      {
        RequestsAppend(outside.script, old(outside.Now()), s, candidates, i, requestedAt, budget);
        tracked, counts := RequestNextCandidate(s, candidates[i], tracked, counts, requestedAt, budget);
      }
      assert candidates[..|candidates|] == candidates;
    }

    /** One look at every open workload, against one clock reading. */
    method ObservePass(s: Setup, before: seq<Tracked>, end: Time)
      returns (tracked: seq<Tracked>, pending: nat, at: Time)
      modifies outside
      ensures at == old(outside.clock)
      ensures Looked(tracked, pending, outside.Now()) ==
              Looks(outside.script, old(outside.Now()), s.codec, before, at, end)
    {
      tracked, pending, at := [], 0, outside.clock;
      for i := 0 to |before|
        invariant Looked(tracked, pending, outside.Now()) ==
                  Looks(outside.script, old(outside.Now()), s.codec, before[..i], at, end)
      {
        assert before[..i + 1][..i] == before[..i];
        var tr := before[i];
        if !tr.done && !Over(outside.Now(), end) {
          var turn := outside.turn;
          var t := outside.Call(end);
          var outcome := Sighting(tr, at, t, s.codec);
          if Settled(outcome) || (outcome.Unreachable? && at >= tr.deadline) {
            tr := tr.(outcome := outcome, settled := at, seen := Some(turn), done := true);
          } else {
            pending := pending + 1;
          }
        }
        tracked := tracked + [tr];
      }
      assert before[..|before|] == before;
    }

    /** One pass, and the sleep after it unless the loop ends here. */
    method ObserveRound(s: Setup, before: seq<Tracked>, end: Time, latest: Time)
      returns (tracked: seq<Tracked>, slept: bool, ghost nap: Option<Nap>)
      modifies outside
      ensures Round(tracked, outside.Now(), nap) == OneRound(outside.script, old(outside.Now()), s, before, end, latest)
      ensures slept <==> nap.Some?
    {
      var pending, at;
      tracked, pending, at := ObservePass(s, before, end);
      slept, nap := false, None;
      if pending == 0 || at >= latest || Over(outside.Now(), end) {
        return;
      }
      var d := SleepFor(at, latest, end, s.poll);
      if d <= 0 {
        return;
      }
      slept := true;
      ghost var from := outside.clock;
      var open := outside.Sleep(d, end);
      nap := Some(Nap(at, from, d, outside.clock));
    }

    method ObserveUntilSettled(s: Setup, before: seq<Tracked>, end: Time, latest: Time)
      returns (tracked: seq<Tracked>, waited: bool, ghost naps: seq<Nap>)
      modifies outside
      ensures Observed(tracked, outside.Now(), naps) ==
              Observes(outside.script, old(outside.Now()), s, before, end, latest)
      ensures waited <==> naps != []
    {
      tracked, waited, naps := before, false, [];
      ghost var whole := Observes(outside.script, outside.Now(), s, before, end, latest);
      while !Over(outside.Now(), end)
        invariant waited <==> naps != []
        invariant whole == Prepend(naps, Observes(outside.script, outside.Now(), s, tracked, end, latest))
        decreases end - outside.clock
      {
        ghost var r := OneRound(outside.script, outside.Now(), s, tracked, end, latest);
        ObservesNext(outside.script, outside.Now(), s, tracked, end, latest, r);
        var slept;
        ghost var nap;
        tracked, slept, nap := ObserveRound(s, tracked, end, latest);
        if !slept {
          return;
        }
        PrependOne(naps, nap.value, Observes(outside.script, outside.Now(), s, tracked, end, latest));
        waited, naps := true, naps + [nap.value];
        if Over(outside.Now(), end) {
          break;
        }
      }
    }

    /** Settles and counts every request. */
    method SettleRest(before: seq<Tracked>, counted: Counts) returns (tracked: seq<Tracked>, counts: Counts)
      ensures tracked == SettledAt(before, outside.clock, outside.cancelled)
      ensures counts == CountAll(counted, tracked)
    {
      tracked, counts := [], counted;
      var settledAt := outside.clock;
      for i := 0 to |before|
        invariant |tracked| == i
        invariant forall k :: 0 <= k < i ==> tracked[k] == SettleOne(before[k], settledAt, outside.cancelled)
        invariant counts == CountAll(counted, tracked)
      {
        var tr := before[i];
        if !tr.done {
          tr := tr.(outcome := Unreachable, settled := settledAt, done := true);
          if settledAt >= tr.deadline && !outside.cancelled {
            tr := tr.(outcome := Expired);
          }
        }
        counts := Bump(counts, tr.outcome);
        assert (tracked + [tr])[..i] == tracked;
        tracked := tracked + [tr];
      }
    }

    method WaitFor(s: Setup, asked: seq<Tracked>, counted: Counts, end: Time)
      returns (counts: Counts, waited: bool, ghost phase: Phase)
      modifies outside
      ensures phase == WaitsFor(outside.script, Requested(asked, counted, old(outside.Now())), s, end)
      ensures counts == phase.counts && outside.Now() == phase.moment && (waited <==> phase.naps != [])
    {
      counts, waited, phase := counted, false, Phase([], counted, outside.Now(), []);
      if |asked| == 0 {
        return;
      }
      var latest := LatestDeadline(asked);
      var tracked;
      ghost var naps;
      tracked, waited, naps := ObserveUntilSettled(s, asked, end, latest);
      tracked, counts := SettleRest(tracked, counted);
      phase := Phase(tracked, counts, outside.Now(), naps);
    }

    method AskAndWait(ghost m: Moment, s: Setup, candidates: seq<Workload>, requestedAt: Time, budget: int)
      returns (counts: Counts, waited: bool, ghost phase: Phase)
      requires s.poll > 0 && m == outside.Now() && m.clock <= requestedAt + budget
      modifies outside
      ensures phase == WaitsFor(outside.script, Requests(outside.script, m, s, candidates, requestedAt, budget), s,
                                requestedAt + budget)
      ensures counts == phase.counts && outside.Now() == phase.moment && (waited <==> phase.naps != [])
      ensures outside.clock <= requestedAt + budget
    {
      WaitsEnd(outside.script, m, s, candidates, requestedAt, budget);
      var tracked;
      tracked, counts := RequestAll(s, candidates, requestedAt, budget);
      counts, waited, phase := WaitFor(s, tracked, counts, requestedAt + budget);
    }

    /** The workloads to ask, or what to count when there are none. */
    method ListCandidates(s: Setup, op: Operation, supported: bool, end: Time)
      returns (candidates: Option<seq<Workload>>, skipped: Outcome)
      modifies outside
      ensures candidates == Asked(s, op, supported, outside.script(old(outside.turn)).listing)
      ensures candidates.None? ==> skipped == SkippedAs(s, supported, outside.script(old(outside.turn)).listing)
      ensures outside.Now() == old(outside.Now()) || outside.Now() == AfterCall(outside.script, old(outside.Now()), end)
      ensures candidates.Some? ==> outside.Now() == AfterCall(outside.script, old(outside.Now()), end)
    {
      if SkipsClass(s.policy, s.problem) || !supported {
        return None, Skipped;
      }
      var t := outside.Call(end);
      if t.listing.None? {
        return None, Unreachable;
      }
      var chosen := Candidates(s, op, t.listing.value);
      if |chosen| == 0 {
        return None, Skipped;
      }
      return Some(chosen), Pending;
    }

    /** With a budget: the listing, the candidates and the phase they get. */
    method CoordinateWithin(ghost m: Moment, s: Setup, op: Operation, supported: bool, requestedAt: Time, budget: int)
      returns (counts: Counts, waited: bool, ghost candidates: Option<seq<Workload>>, ghost phase: Phase)
      requires s.poll > 0 && budget > 0 && m == outside.Now() && requestedAt == m.clock
      modifies outside
      ensures Coordinated(outside.script, m, s, op, supported, requestedAt, budget, counts, waited, candidates, phase,
                          outside.Now())
    {
      var chosen, skipped := ListCandidates(s, op, supported, requestedAt + budget);
      counts, waited, candidates, phase := NONE_COUNTED, false, chosen, Phase([], NONE_COUNTED, m, []);
      if chosen.None? {
        counts := Bump(counts, skipped);
        return;
      }
      counts, waited, phase := AskAndWait(AfterCall(outside.script, m, requestedAt + budget), s, chosen.value,
                                          requestedAt, budget);
    }

    /**
     The whole pre-phase. Nothing outside is called, and no time passes, when the
     operation does not coordinate, the policy is off, or no budget is left;
     otherwise the step keeps its reserve and the grace for the agent's result.
     */
    method Coordinate(s: Setup, op: Operation, supported: bool, timeout: int, stepEnd: Time)
      returns (counts: Counts, waited: bool, ghost candidates: Option<seq<Workload>>, ghost phase: Phase)
      requires s.poll > 0
      modifies outside
      ensures var budget := Budget(timeout, old(outside.clock), stepEnd);
              if !Coordinates(op) || !s.policy.enabled || budget <= 0 then
                && outside.Now() == old(outside.Now()) && !waited
                && counts == if !Coordinates(op) || !s.policy.enabled then NONE_COUNTED else Bump(NONE_COUNTED, Skipped)
              else
                && RESERVE + RESULT_GRACE <= stepEnd - outside.clock
                && Coordinated(outside.script, old(outside.Now()), s, op, supported, old(outside.clock), budget,
                               counts, waited, candidates, phase, outside.Now())
    {
      counts, waited, candidates, phase := NONE_COUNTED, false, None, Phase([], NONE_COUNTED, outside.Now(), []);
      if !Coordinates(op) || !s.policy.enabled {
        return;
      }
      var budget := Budget(timeout, outside.clock, stepEnd);
      if budget <= 0 {
        counts := Bump(counts, Skipped);
        return;
      }
      counts, waited, candidates, phase := CoordinateWithin(outside.Now(), s, op, supported, outside.clock, budget);
    }
  }

  /** What a step with a budget got from its pre-phase, which began at the given moment. */
  ghost predicate Coordinated(script: nat -> Turn, m: Moment, s: Setup, op: Operation, supported: bool,
                              requestedAt: Time, budget: int,
                              counts: Counts, waited: bool, candidates: Option<seq<Workload>>, phase: Phase,
                              after: Moment) {
    var listing, end := script(m.turn).listing, requestedAt + budget;
    && after.clock <= end
    && candidates == Asked(s, op, supported, listing)
    && (candidates.None? ==> !waited && counts == Bump(NONE_COUNTED, SkippedAs(s, supported, listing)))
    && (candidates.Some? ==>
          var asked := Requests(script, AfterCall(script, m, end), s, candidates.value, requestedAt, budget);
          && phase == WaitsFor(script, asked, s, end)
          && counts == phase.counts && after == phase.moment && (waited <==> phase.naps != []))
  }

  /** So whatever the outside does, the pre-phase of a step with candidates conserves them and keeps its bounds. */
  lemma CoordinatedIsOk(script: nat -> Turn, m: Moment, s: Setup, op: Operation, supported: bool, requestedAt: Time,
                        budget: int, counts: Counts, waited: bool, candidates: Option<seq<Workload>>, phase: Phase,
                        after: Moment)
    requires s.poll > 0 && budget > 0 && m.clock == requestedAt
    requires Coordinated(script, m, s, op, supported, requestedAt, budget, counts, waited, candidates, phase, after)
    ensures candidates.Some? ==> PhaseOk(phase, |candidates.value|, s, requestedAt, budget, script)
  {
    if candidates.Some? {
      WaitsOk(script, AfterCall(script, m, requestedAt + budget), s, candidates.value, requestedAt, budget);
    }
  }

  /** How many of the requests settled as o. */
  function Tally(tracked: seq<Tracked>, o: Outcome): nat {
    if tracked == [] then 0
    else Tally(tracked[..|tracked| - 1], o) + (if tracked[|tracked| - 1].outcome == o then 1 else 0)
  }

  function CountAll(counts: Counts, tracked: seq<Tracked>): Counts {
    if tracked == [] then counts
    else Bump(CountAll(counts, tracked[..|tracked| - 1]), tracked[|tracked| - 1].outcome)
  }

  /** Counting conserves: each outcome gains its tally, and the total gains one for every request. */
  lemma {:induction false} CountAllTally(counts: Counts, tracked: seq<Tracked>, o: Outcome)
    ensures Count(CountAll(counts, tracked), o) == Count(counts, o) + Tally(tracked, o)
    ensures Total(CountAll(counts, tracked)) == Total(counts) + |tracked|
  {
    if tracked != [] {
      CountAllTally(counts, tracked[..|tracked| - 1], o);
    }
  }

  lemma {:induction false} NoneTallied(tracked: seq<Tracked>, o: Outcome)
    requires forall i :: 0 <= i < |tracked| ==> tracked[i].outcome != o
    ensures Tally(tracked, o) == 0
  {
    if tracked != [] {
      NoneTallied(tracked[..|tracked| - 1], o);
    }
  }

  lemma CountedOutcomes(counts: Counts, final: seq<Tracked>, s: Setup, requestedAt: Time, budget: int,
                        script: nat -> Turn, turn: nat)
    requires OnlyUnasked(counts)
    requires AllDone(final) && AllTracked(final, s, requestedAt, budget, script, turn)
    ensures var after := CountAll(counts, final);
            && Total(after) == Total(counts) + |final| && Count(after, Pending) == 0 && Count(after, Skipped) == 0
            && Count(after, Acknowledged) == Tally(final, Acknowledged)
            && Count(after, Expired) == Tally(final, Expired)
  {
    forall i | 0 <= i < |final| ensures final[i].outcome != Pending && final[i].outcome != Skipped {
      assert final[i].done && TrackedOk(final[i], s, requestedAt, budget, script, turn);
    }
    NoneTallied(final, Pending);
    NoneTallied(final, Skipped);
    CountAllTally(counts, final, Pending);
    CountAllTally(counts, final, Skipped);
    CountAllTally(counts, final, Acknowledged);
    CountAllTally(counts, final, Expired);
  }

  /** Whatever is still open had its window end unanswered: expired only past its own deadline, else unreachable. */
  function SettleOne(tr: Tracked, at: Time, cancelled: bool): Tracked {
    if tr.done then tr
    else tr.(outcome := if tr.deadline <= at && !cancelled then Expired else Unreachable, settled := at, done := true)
  }

  function SettledAt(before: seq<Tracked>, at: Time, cancelled: bool): seq<Tracked> {
    seq(|before|, i requires 0 <= i < |before| => SettleOne(before[i], at, cancelled))
  }

  lemma SettledKeeps(before: seq<Tracked>, at: Time, cancelled: bool, s: Setup, requestedAt: Time, budget: int,
                     script: nat -> Turn, turn: nat)
    requires AllTracked(before, s, requestedAt, budget, script, turn)
    ensures SameRequests(before, SettledAt(before, at, cancelled)) && AllDone(SettledAt(before, at, cancelled))
    ensures AllTracked(SettledAt(before, at, cancelled), s, requestedAt, budget, script, turn)
  {
    var after := SettledAt(before, at, cancelled);
    forall i | 0 <= i < |before|
      ensures SameRequest(before[i], after[i]) && TrackedOk(after[i], s, requestedAt, budget, script, turn)
    {
      assert TrackedOk(before[i], s, requestedAt, budget, script, turn);
    }
  }

  lemma OneTrackedLater(tr: Tracked, s: Setup, requestedAt: Time, budget: int, script: nat -> Turn, turn: nat,
                        later: nat)
    requires TrackedOk(tr, s, requestedAt, budget, script, turn) && turn <= later
    ensures TrackedOk(tr, s, requestedAt, budget, script, later)
  {
  }
}
