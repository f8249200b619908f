/** The diagnostic classifier of a node's runtime contract, beside the gate it must agree with. */
module RuntimeCoverage {
  import opened Common
  import opened Text
  import opened Selectors
  import opened RuntimeReport
  import opened RuntimeVersion
  import opened RuntimeProfiles
  import opened UniqueSelection

  const DEFAULT_AGENT_MAX_AGE: int := 10 * MINUTE

  datatype Attestation = FreshCompatible | Missing | Stale | Mismatch | NotApplicable

  datatype Depth = Full | Reduced | Unavailable

  datatype Reason =
    | EvaluationTimeMissing | NodeIdentityMissing | VendorInvalid
    | ProfileInvalid | ProfileOverlap | ProfileNotFound
    | ReportMissing | ReportInvalid | ReportNodeMismatch | ReportVendorMismatch | ReportProfileDigestMismatch
    | ReportProfileRevisionMismatch | ReportDriverVersionMismatch | ReportRuntimeVersionMismatch
    | ReportObservedInFuture | ReportStale | ReportNotReady | ReportRejected
    | AgentNeverSeen | AgentHeartbeatInFuture | AgentHeartbeatStale

  /** The canonical order; every code exactly once. */
  const REASON_ORDER: seq<Reason> := [
    EvaluationTimeMissing, NodeIdentityMissing, VendorInvalid,
    ProfileInvalid, ProfileOverlap, ProfileNotFound,
    ReportMissing, ReportInvalid, ReportNodeMismatch, ReportVendorMismatch, ReportProfileDigestMismatch,
    ReportProfileRevisionMismatch, ReportDriverVersionMismatch, ReportRuntimeVersionMismatch,
    ReportObservedInFuture, ReportStale, ReportNotReady, ReportRejected,
    AgentNeverSeen, AgentHeartbeatInFuture, AgentHeartbeatStale]

  datatype Input = Input(
    now: Time, nodeName: string, nodeUid: string, labels: Labels, vendor: Vendor,
    agentLastSeen: Time, agentMaxAge: int, report: Option<Report>, profiles: seq<Profile>)

  datatype Coverage = Coverage(
    selection: Selection<Profile>, attestation: Attestation, depth: Depth, reasons: seq<Reason>)

  // ----- The findings, one by one -----

  predicate ValidInput(input: Input) {
    input.now != ZERO_TIME && !Blank(input.nodeName) && ValidVendor(input.vendor)
  }

  function AgentMaxAge(input: Input): int {
    if input.agentMaxAge > 0 then input.agentMaxAge else DEFAULT_AGENT_MAX_AGE
  }

  predicate AgentHealthy(input: Input) {
    && input.now != ZERO_TIME && input.agentLastSeen != ZERO_TIME
    && 0 <= input.now - input.agentLastSeen <= AgentMaxAge(input)
  }

  /** When the classifier reports a code about the input or the agent. */
  predicate InputFinding(c: Reason, input: Input) {
    match c
    case EvaluationTimeMissing => input.now == ZERO_TIME
    case NodeIdentityMissing => Blank(input.nodeName)
    case VendorInvalid => !ValidVendor(input.vendor)
    case AgentNeverSeen => input.now != ZERO_TIME && input.agentLastSeen == ZERO_TIME
    case AgentHeartbeatInFuture =>
      input.now != ZERO_TIME && input.agentLastSeen != ZERO_TIME && input.agentLastSeen > input.now
    case AgentHeartbeatStale =>
      && input.now != ZERO_TIME && input.agentLastSeen != ZERO_TIME && input.agentLastSeen <= input.now
      && input.now - input.agentLastSeen > AgentMaxAge(input)
    case _ => false
  }

  predicate SelectionFinding(c: Reason, selection: Selection<Profile>) {
    match c
    case ProfileInvalid => selection.Invalid?
    case ProfileOverlap => selection.Ambiguous?
    case ProfileNotFound => selection.Uncovered?
    case _ => false
  }

  /** The comparisons of one report with the selected profile and node. */
  datatype Facts = Facts(
    node: bool, vendor: bool, digest: bool, revision: bool, driver: bool, runtime: bool, past: bool, young: bool,
    ready: bool)

  function Compare(input: Input, p: Profile, r: Report): Facts {
    Facts(r.node == input.nodeName && r.nodeUid == input.nodeUid,
          r.vendor == p.vendor,
          r.profileDigest == p.digest,
          r.profileUid == p.uid && r.profileGeneration == p.generation,
          r.driverVersion == p.driverVersion,
          Satisfies(r.runtimeVersion, p.runtimeVersion),
          r.observedAt <= input.now,
          input.now - r.observedAt <= p.maxReportAge,
          r.readiness.Ready?)
  }

  /** When it reports a code about a well-formed report; the last of the codes is not among them. */
  predicate Discrepant(c: Reason, f: Facts) {
    match c
    case ReportNodeMismatch => !f.node
    case ReportVendorMismatch => !f.vendor
    case ReportProfileDigestMismatch => !f.digest
    case ReportProfileRevisionMismatch => !f.revision
    case ReportDriverVersionMismatch => !f.driver
    case ReportRuntimeVersionMismatch => !f.runtime
    case ReportObservedInFuture => !f.past
    case ReportStale => f.past && !f.young
    case ReportNotReady => !f.ready
    case _ => false
  }

  predicate Matched(f: Facts) {
    f.node && f.vendor && f.digest && f.revision && f.driver && f.runtime && f.ready
  }

  predicate Timely(f: Facts) { f.past && f.young }

  predicate ReportFinding(c: Reason, input: Input, p: Profile) {
    if input.report.None? then c == ReportMissing
    else if !ValidReport(input.report.value) then c == ReportInvalid
    else Discrepant(c, Compare(input, p, input.report.value))
  }

  predicate Attests(input: Input, p: Profile) {
    && input.report.Some?
    && input.report.value.node == input.nodeName && input.report.value.nodeUid == input.nodeUid
    && CheckReport(p, input.now, input.report.value)
  }

  /** For a valid profile, a time and a well-formed report, the gate accepts exactly what the comparisons clear. */
  lemma ChecksAsCompared(input: Input, p: Profile, r: Report)
    requires ValidProfile(p) && input.now != ZERO_TIME && ValidReport(r)
    ensures r.node == input.nodeName && r.nodeUid == input.nodeUid && CheckReport(p, input.now, r) <==>
            Matched(Compare(input, p, r)) && Timely(Compare(input, p, r))
  {
  }

  lemma ClearFacts(f: Facts)
    ensures (forall c :: !Discrepant(c, f)) <==> Matched(f) && Timely(f)
  {
    assert Discrepant(ReportNodeMismatch, f) || Discrepant(ReportVendorMismatch, f)
        || Discrepant(ReportProfileDigestMismatch, f) || Discrepant(ReportProfileRevisionMismatch, f)
        || Discrepant(ReportDriverVersionMismatch, f) || Discrepant(ReportRuntimeVersionMismatch, f)
        || Discrepant(ReportObservedInFuture, f) || Discrepant(ReportStale, f) || Discrepant(ReportNotReady, f)
        || (Matched(f) && Timely(f));
  }

  /** A report shows no finding exactly when it attests the profile for this node. */
  lemma NoFindingIffAttests(input: Input, p: Profile)
    requires ValidProfile(p) && input.now != ZERO_TIME
    ensures Attests(input, p) <==> forall c :: !ReportFinding(c, input, p)
  {
    if input.report.None? {
      assert ReportFinding(ReportMissing, input, p);
    } else if !ValidReport(input.report.value) {
      assert ReportFinding(ReportInvalid, input, p);
    } else {
      var f := Compare(input, p, input.report.value);
      ChecksAsCompared(input, p, input.report.value);
      ClearFacts(f);
      assert forall c :: ReportFinding(c, input, p) <==> Discrepant(c, f);
    }
  }

  // ----- The assessment -----

  /** One more code when its condition holds. */
  function Note(found: set<Reason>, holds: bool, c: Reason): (r: set<Reason>)
    ensures forall x :: x in r <==> x in found || (holds && x == c)
  {
    if holds then found + {c} else found
  }

  method AssessInput(input: Input) returns (found: set<Reason>, valid: bool, healthy: bool)
    ensures forall c :: c in found <==> InputFinding(c, input)
    ensures valid <==> ValidInput(input)
    ensures healthy <==> AgentHealthy(input)
  {
    found := Note({}, input.now == ZERO_TIME, EvaluationTimeMissing);
    found := Note(found, Blank(input.nodeName), NodeIdentityMissing);
    found := Note(found, !ValidVendor(input.vendor), VendorInvalid);
    valid := input.now != ZERO_TIME && !Blank(input.nodeName) && ValidVendor(input.vendor);
    healthy := false;
    if input.now != ZERO_TIME {
      if input.agentLastSeen == ZERO_TIME {
        found := Note(found, true, AgentNeverSeen);
      } else if input.agentLastSeen > input.now {
        found := Note(found, true, AgentHeartbeatInFuture);
      } else if input.now - input.agentLastSeen > AgentMaxAge(input) {
        found := Note(found, true, AgentHeartbeatStale);
      } else {
        healthy := true;
      }
    }
  }

  predicate IdentityCode(c: Reason) {
    || c.ReportNodeMismatch? || c.ReportVendorMismatch? || c.ReportProfileDigestMismatch?
    || c.ReportProfileRevisionMismatch? || c.ReportDriverVersionMismatch? || c.ReportRuntimeVersionMismatch?
  }

  method IdentityDiscrepancies(f: Facts) returns (found: set<Reason>, mismatch: bool)
    ensures forall c :: c in found <==> IdentityCode(c) && Discrepant(c, f)
    ensures mismatch <==> !(f.node && f.vendor && f.digest && f.revision && f.driver && f.runtime)
  {
    found, mismatch := Note({}, !f.node, ReportNodeMismatch), !f.node;
    found, mismatch := Note(found, !f.vendor, ReportVendorMismatch), mismatch || !f.vendor;
    found, mismatch := Note(found, !f.digest, ReportProfileDigestMismatch), mismatch || !f.digest;
    found, mismatch := Note(found, !f.revision, ReportProfileRevisionMismatch), mismatch || !f.revision;
    found, mismatch := Note(found, !f.driver, ReportDriverVersionMismatch), mismatch || !f.driver;
    found, mismatch := Note(found, !f.runtime, ReportRuntimeVersionMismatch), mismatch || !f.runtime;
  }

  /** Records every discrepancy of a well-formed report, not only the first. */
  method Discrepancies(f: Facts) returns (found: set<Reason>, mismatch: bool, stale: bool)
    ensures forall c :: c in found <==> Discrepant(c, f)
    ensures mismatch <==> !Matched(f)
    ensures stale <==> !Timely(f)
  {
    found, mismatch := IdentityDiscrepancies(f);
    if !f.past {
      found, stale := Note(found, true, ReportObservedInFuture), true;
    } else {
      found, stale := Note(found, !f.young, ReportStale), !f.young;
    }
    found, mismatch := Note(found, !f.ready, ReportNotReady), mismatch || !f.ready;
  }

  /** The report against the selected profile; the gate has the last word, and never disagrees. */
  method AssessAttestation(input: Input, p: Profile) returns (a: Attestation, found: set<Reason>)
    requires ValidProfile(p) && input.now != ZERO_TIME
    ensures forall c :: c in found <==> ReportFinding(c, input, p)
    ensures a.FreshCompatible? <==> Attests(input, p)
    ensures a.Missing? <==> input.report.None?
    ensures a.Stale? <==>
              && input.report.Some? && ValidReport(input.report.value)
              && Matched(Compare(input, p, input.report.value)) && !Timely(Compare(input, p, input.report.value))
    ensures !a.NotApplicable? && (found == {} <==> a.FreshCompatible?)
  {
    if input.report.None? {
      return Missing, {ReportMissing};
    }
    var r := input.report.value;
    var ok := ValidateReport(r);
    if !ok {
      return Mismatch, {ReportInvalid};
    }
    ChecksAsCompared(input, p, r);
    ClearFacts(Compare(input, p, r));
    var mismatch, stale;
    found, mismatch, stale := Discrepancies(Compare(input, p, r));
    if mismatch {
      return Mismatch, found;
    }
    if stale {
      return Stale, found;
    }
    if !CheckReport(p, input.now, r) {
      return Mismatch, found + {ReportRejected};
    }
    a := FreshCompatible;
  }

  // ----- The order of the reasons -----

  function Rank(c: Reason): (i: nat)
    ensures i < |REASON_ORDER| && REASON_ORDER[i] == c
  {
    match c
    case EvaluationTimeMissing => 0 case NodeIdentityMissing => 1 case VendorInvalid => 2
    case ProfileInvalid => 3 case ProfileOverlap => 4 case ProfileNotFound => 5
    case ReportMissing => 6 case ReportInvalid => 7 case ReportNodeMismatch => 8
    case ReportVendorMismatch => 9 case ReportProfileDigestMismatch => 10
    case ReportProfileRevisionMismatch => 11 case ReportDriverVersionMismatch => 12
    case ReportRuntimeVersionMismatch => 13 case ReportObservedInFuture => 14 case ReportStale => 15
    case ReportNotReady => 16 case ReportRejected => 17 case AgentNeverSeen => 18
    case AgentHeartbeatInFuture => 19 case AgentHeartbeatStale => 20
  }

  predicate Canonical(reasons: seq<Reason>) {
    forall i, j :: 0 <= i < j < |reasons| ==> Rank(reasons[i]) < Rank(reasons[j])
  }

  lemma RankOf(i: nat)
    requires i < |REASON_ORDER|
    ensures Rank(REASON_ORDER[i]) == i
  {
  }

  /** A duplicate-free listing of the set, in canonical order. */
  method OrderReasons(reasons: set<Reason>) returns (ordered: seq<Reason>)
    ensures Canonical(ordered)
    ensures forall c :: c in ordered <==> c in reasons
  {
    ordered := [];
    for i := 0 to |REASON_ORDER|
      invariant Canonical(ordered)
      invariant forall c :: c in ordered <==> c in reasons && Rank(c) < i
    {
      RankOf(i);
      if REASON_ORDER[i] in reasons {
        ordered := ordered + [REASON_ORDER[i]];
      }
    }
  }

  // ----- The whole -----

  function SelectionOf(input: Input): Selection<Profile> {
    if ValidInput(input) then Selected(input.profiles, input.labels, input.vendor) else Invalid
  }

  predicate Finding(c: Reason, input: Input) {
    || InputFinding(c, input)
    || (ValidInput(input) && SelectionFinding(c, SelectionOf(input)))
    || (SelectionOf(input).Exact? && ReportFinding(c, input, SelectionOf(input).value))
  }

  /** Selection of the profile, for a usable input. */
  method AssessSelection(input: Input, valid: bool) returns (selection: Selection<Profile>, found: set<Reason>)
    requires valid == ValidInput(input)
    ensures selection == SelectionOf(input) && (selection.Exact? ==> valid && ValidProfile(selection.value))
    ensures forall c :: c in found <==> valid && SelectionFinding(c, selection)
    ensures found == {} <==> !valid || selection.Exact?
  {
    if !valid {
      return Invalid, {};
    }
    selection := ResolveProfile(input.profiles, input.labels, input.vendor);
    match selection
    case Exact(_) =>
      SelectedIsUnique(input.profiles, input.labels, input.vendor);
      found := {};
    case Ambiguous => found := {ProfileOverlap};
    case Uncovered => found := {ProfileNotFound};
    case Invalid => found := {ProfileInvalid};
  }

  function DepthOf(selection: Selection<Profile>, attestation: Attestation, healthy: bool): Depth {
    if !healthy then Unavailable
    else if selection.Exact? && attestation.FreshCompatible? then Full
    else if selection.Exact? || selection.Uncovered? then Reduced
    else Unavailable
  }

  /**
   The whole assessment: the selection, the attestation exactly as the gate would
   decide it, the findings as a canonical listing, and full depth exactly when there
   is none.
   */
  method Assess(input: Input) returns (out: Coverage)
    ensures out.selection == SelectionOf(input)
    ensures out.attestation.NotApplicable? <==> !out.selection.Exact?
    ensures out.attestation.FreshCompatible? <==> out.selection.Exact? && Attests(input, out.selection.value)
    ensures out.depth == DepthOf(out.selection, out.attestation, AgentHealthy(input))
    ensures Canonical(out.reasons) && forall c :: c in out.reasons <==> Finding(c, input)
    ensures out.depth.Full? <==> out.reasons == []
    ensures ReportRejected !in out.reasons
  {
    NeverRejected(input);
    var faults, valid, healthy := AssessInput(input);
    ClearInput(input);
    var selection, selected := AssessSelection(input, valid);
    var attestation, reported := NotApplicable, {};
    if selection.Exact? {
      attestation, reported := AssessAttestation(input, selection.value);
    }
    var depth := Unavailable;
    if selection.Exact? && attestation.FreshCompatible? {
      if healthy {
        depth := Full;
      }
    } else if selection.Exact? || selection.Uncovered? {
      if healthy {
        depth := Reduced;
      }
    }
    var ordered := OrderReasons(faults + selected + reported);
    out := Coverage(selection, attestation, depth, ordered);
    NoneListed(faults, selected, reported, ordered);
  }

  lemma NoneListed(a: set<Reason>, b: set<Reason>, c: set<Reason>, ordered: seq<Reason>)
    requires forall x :: x in ordered <==> x in a + b + c
    ensures ordered == [] <==> a == {} && b == {} && c == {}
  {
    if ordered != [] {
      assert ordered[0] in ordered;
    } else {
      assert forall x :: x in a + b + c ==> x in ordered;
      assert a + b + c == {};
      assert a <= a + b + c && b <= a + b + c && c <= a + b + c;
    }
  }

  /** The code for a report that only the gate would refuse is never listed. */
  lemma NeverRejected(input: Input)
    ensures !InputFinding(ReportRejected, input)
    ensures forall selection :: !SelectionFinding(ReportRejected, selection)
    ensures forall p :: !ReportFinding(ReportRejected, input, p)
  {
  }

  lemma ClearInput(input: Input)
    ensures (forall c :: !InputFinding(c, input)) <==> ValidInput(input) && AgentHealthy(input)
  {
    assert InputFinding(EvaluationTimeMissing, input) || InputFinding(NodeIdentityMissing, input)
        || InputFinding(VendorInvalid, input) || InputFinding(AgentNeverSeen, input)
        || InputFinding(AgentHeartbeatInFuture, input) || InputFinding(AgentHeartbeatStale, input)
        || (ValidInput(input) && AgentHealthy(input));
  }
}
