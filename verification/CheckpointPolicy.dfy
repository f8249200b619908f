/** The pure policy core of checkpoint coordination: grants, deadlines and the classification of an answer. */
module CheckpointPolicy {
  import opened Common
  import opened Text

  const MAX_WAIT_CEILING: int := 30 * MINUTE

  // Annotation keys of the protocol.
  const OPT_IN := "kubeneuron.io/checkpoint"
  const MAX_WAIT := "kubeneuron.io/checkpoint-max-wait"
  const REQUESTED_AT := "kubeneuron.io/checkpoint-requested-at"
  const DEADLINE_AT := "kubeneuron.io/checkpoint-deadline-at"
  const INCIDENT := "kubeneuron.io/checkpoint-incident"
  const REASON := "kubeneuron.io/checkpoint-reason"
  const NEXT_ACTION := "kubeneuron.io/checkpoint-next-action"
  const STATE := "kubeneuron.io/checkpoint-state"

  const REQUEST_KEYS: set<string> := {REQUESTED_AT, DEADLINE_AT, INCIDENT, REASON, NEXT_ACTION}

  type Annotations = map<string, string>

  /**
   The wire format of durations and timestamps (section 5.6 of RFC 3339). The
   protocol relies on one thing only: a rendered timestamp parses back.
   */
  datatype Codec = Codec(format: Time -> string, parse: string -> Option<Time>, duration: string -> Option<int>)

  ghost predicate RoundTrips(codec: Codec) {
    forall t: Time :: codec.parse(codec.format(t)) == Some(t)
  }

  function Read(a: Annotations, key: string): string {
    if key in a then a[key] else ""
  }

  datatype Policy = Policy(enabled: bool, defaultWait: int, maxWait: int, skipClasses: seq<string>,
                           namespaces: seq<string>)

  predicate ValidPolicy(p: Policy) {
    p.enabled ==>
      && 0 < p.defaultWait <= p.maxWait <= MAX_WAIT_CEILING
      && p.namespaces != []
      && (forall i :: 0 <= i < |p.namespaces| ==> TrimSpace(p.namespaces[i]) != "")
      && (forall i :: 0 <= i < |p.skipClasses| ==> TrimSpace(p.skipClasses[i]) != "")
  }

  datatype Workload = Workload(namespace: string, name: string, uid: string, annotations: Annotations)

  predicate OptedIn(w: Workload) { Read(w.annotations, OPT_IN) == "true" }

  /** A missing, malformed, zero or negative request is not a request. */
  function RequestedMaxWait(w: Workload, codec: Codec): Option<int> {
    if MAX_WAIT !in w.annotations then None
    else match codec.duration(TrimSpace(w.annotations[MAX_WAIT]))
      case None => None
      case Some(d) => if d <= 0 then None else Some(d)
  }

  predicate AllowsNamespace(p: Policy, ns: string) {
    p.enabled && ns != "" && ns in p.namespaces
  }

  predicate SkipsClass(p: Policy, problem: string) { problem in p.skipClasses }

  predicate Eligible(p: Policy, w: Workload, problem: string) {
    p.enabled && !SkipsClass(p, problem) && AllowsNamespace(p, w.namespace) && OptedIn(w)
  }

  method EligibleWorkloads(p: Policy, workloads: seq<Workload>, problem: string) returns (out: seq<Workload>)
    ensures out == EligibleOf(p, workloads, problem)
  {
    out := [];
    for i := 0 to |workloads|
      invariant out == EligibleOf(p, workloads[..i], problem)
    {
      assert workloads[..i + 1][..i] == workloads[..i];
      if Eligible(p, workloads[i], problem) {
        out := out + [workloads[i]];
      }
    }
    assert workloads[..|workloads|] == workloads;
  }

  function EligibleOf(p: Policy, workloads: seq<Workload>, problem: string): seq<Workload> {
    if workloads == [] then []
    else
      var init := EligibleOf(p, workloads[..|workloads| - 1], problem);
      var last := workloads[|workloads| - 1];
      if Eligible(p, last, problem) then init + [last] else init
  }

  /** Exactly the eligible workloads. */
  lemma {:induction false} EligibleOfExact(p: Policy, workloads: seq<Workload>, problem: string, w: Workload)
    ensures w in EligibleOf(p, workloads, problem) <==> w in workloads && Eligible(p, w, problem)
  {
    if workloads != [] {
      EligibleOfExact(p, workloads[..|workloads| - 1], problem, w);
      assert w in workloads <==> w in workloads[..|workloads| - 1] || w == workloads[|workloads| - 1];
    }
  }

  // ----- Grants -----

  /** At most the limit, and never below zero. */
  function Clamp(d: int, limit: int): (r: int)
    ensures r >= 0 && r <= Max(limit, 0)
    ensures d <= limit ==> r == Max(d, 0)
  {
    var cut := if d > limit then limit else d;
    if cut < 0 then 0 else cut
  }

  function WaitFor(p: Policy, w: Workload, codec: Codec): int {
    if !p.enabled then 0
    else
      var requested := RequestedMaxWait(w, codec);
      Clamp(if requested.Some? then requested.value else p.defaultWait, p.maxWait)
  }

  /** A budget of zero or less means that none is known. */
  function Bounded(wait: int, budget: int): int {
    if budget > 0 then Clamp(wait, budget) else wait
  }

  function BoundedWait(p: Policy, w: Workload, codec: Codec, budget: int): int {
    Bounded(WaitFor(p, w, codec), budget)
  }

  /** A workload can shorten its wait and never lengthen it. */
  lemma GrantIsBounded(p: Policy, w: Workload, codec: Codec, budget: int)
    requires ValidPolicy(p)
    ensures 0 <= BoundedWait(p, w, codec, budget) <= MAX_WAIT_CEILING
    ensures p.enabled ==> BoundedWait(p, w, codec, budget) <= p.maxWait
    ensures budget > 0 ==> BoundedWait(p, w, codec, budget) <= budget
    ensures p.enabled && RequestedMaxWait(w, codec).Some? ==>
              BoundedWait(p, w, codec, budget) <= RequestedMaxWait(w, codec).value
    ensures p.enabled && budget > 0 ==> BoundedWait(p, w, codec, budget) > 0
  {
  }

  function LongestGrant(p: Policy, workloads: seq<Workload>, codec: Codec, budget: int): (longest: int)
    ensures longest >= 0
    ensures forall w :: w in workloads ==> BoundedWait(p, w, codec, budget) <= longest
    ensures longest > 0 ==> exists w :: w in workloads && BoundedWait(p, w, codec, budget) == longest
  {
    if workloads == [] then 0
    else Max(LongestGrant(p, workloads[..|workloads| - 1], codec, budget),
             BoundedWait(p, workloads[|workloads| - 1], codec, budget))
  }

  /** The step waits for the longest of the grants: bounding the longest wait is the longest bounded wait. */
  method SharedWait(p: Policy, workloads: seq<Workload>, codec: Codec, budget: int) returns (shared: int)
    ensures shared == LongestGrant(p, workloads, codec, budget)
  {
    if !p.enabled || |workloads| == 0 {
      NoGrantWhenDisabled(p, workloads, codec, budget);
      return 0;
    }
    var longest := 0;
    for i := 0 to |workloads|
      invariant longest >= 0 && Bounded(longest, budget) == LongestGrant(p, workloads[..i], codec, budget)
    {
      var wait := WaitFor(p, workloads[i], codec);
      assert workloads[..i + 1][..i] == workloads[..i];
      if wait > longest {
        longest := wait;
      }
    }
    assert workloads[..|workloads|] == workloads;
    if budget > 0 {
      longest := Clamp(longest, budget);
    }
    shared := longest;
  }

  lemma {:induction false} NoGrantWhenDisabled(p: Policy, workloads: seq<Workload>, codec: Codec, budget: int)
    requires !p.enabled || workloads == []
    ensures LongestGrant(p, workloads, codec, budget) == 0
  {
    if workloads != [] {
      NoGrantWhenDisabled(p, workloads[..|workloads| - 1], codec, budget);
    }
  }

  // ----- Requests on an object -----

  datatype Request = Request(incident: string, requestedAt: Time, deadlineAt: Time, reason: string, nextAction: string)

  function Stamp(r: Request, codec: Codec): Annotations {
    map[REQUESTED_AT := codec.format(r.requestedAt), DEADLINE_AT := codec.format(r.deadlineAt),
        INCIDENT := r.incident, REASON := r.reason, NEXT_ACTION := r.nextAction]
  }

  function ParseRequest(a: Annotations, codec: Codec): Option<Request> {
    var incident := TrimSpace(Read(a, INCIDENT));
    if incident == "" then None
    else match codec.parse(Read(a, DEADLINE_AT))
      case None => None
      case Some(deadline) =>
        var requested := codec.parse(Read(a, REQUESTED_AT));
        Some(Request(incident, if requested.Some? then requested.value else ZERO_TIME,
                     deadline, Read(a, REASON), Read(a, NEXT_ACTION)))
  }

  /**
   A stamp written over anything an object carried reads back as the request that
   was stamped exactly when its incident name is nonblank and trimmed; nothing but
   the request keys changes.
   */
  lemma StampRoundTrip(onObject: Annotations, r: Request, codec: Codec)
    requires RoundTrips(codec)
    ensures ParseRequest(onObject + Stamp(r, codec), codec) == Some(r) <==>
            r.incident != "" && TrimSpace(r.incident) == r.incident
    ensures forall key :: key !in REQUEST_KEYS ==>
              (key in onObject + Stamp(r, codec) <==> key in onObject) &&
              (key in onObject ==> (onObject + Stamp(r, codec))[key] == onObject[key])
  {
    var after := onObject + Stamp(r, codec);
    assert Read(after, INCIDENT) == r.incident;
    assert codec.parse(Read(after, DEADLINE_AT)) == Some(r.deadlineAt);
    assert codec.parse(Read(after, REQUESTED_AT)) == Some(r.requestedAt);
  }

  function ResolveDeadline(proposed: Time, incident: string, existing: Option<Request>): Time {
    if existing.None? || existing.value.incident == "" || existing.value.incident != incident then proposed
    else if existing.value.deadlineAt > proposed then proposed
    else existing.value.deadlineAt
  }

  function RequestStart(durable: Time, issued: Time): Time {
    if durable == ZERO_TIME || durable > issued then issued
    else if durable < issued - MAX_WAIT_CEILING then issued - MAX_WAIT_CEILING
    else durable
  }

  function ObservedWait(start: Time, settled: Time): int { Clamp(settled - start, MAX_WAIT_CEILING) }

  /** No stamp, however stale or tampered, moves what the wait metric observes out of its range. */
  lemma ObservedWaitIsBounded(durable: Time, issued: Time, settled: Time)
    requires settled >= issued
    ensures issued - MAX_WAIT_CEILING <= RequestStart(durable, issued) <= issued
    ensures var observed := ObservedWait(RequestStart(durable, issued), settled);
            Min(settled - issued, MAX_WAIT_CEILING) <= observed <= MAX_WAIT_CEILING
  {
  }

  // ----- Answers -----

  datatype Outcome = Acknowledged | Exited | Pending | Expired | Unreachable | Skipped

  predicate Settled(o: Outcome) { o.Acknowledged? || o.Exited? || o.Expired? || o.Skipped? }

  datatype Observation = Observation(failed: bool, found: bool, uid: string, terminal: bool, annotations: Annotations)

  predicate Acknowledges(state: string, incident: string) {
    incident != "" && state == "complete:" + incident
  }

  predicate AcknowledgesInForce(incident: string, a: Annotations, codec: Codec) {
    && incident != ""
    && ParseRequest(a, codec).Some? && ParseRequest(a, codec).value.incident == incident
    && Acknowledges(Read(a, STATE), incident)
  }

  function Classify(now: Time, incident: string, deadline: Time, requestedUid: string, obs: Observation,
                    codec: Codec): Outcome {
    if obs.failed then Unreachable
    else if !obs.found || obs.terminal then Exited
    else if requestedUid != "" && obs.uid != "" && obs.uid != requestedUid then Exited
    else if AcknowledgesInForce(incident, obs.annotations, codec) then Acknowledged
    else if now >= deadline then Expired
    else Pending
  }
}
