/** The gate of a physical device reset: live authority, and evidence read live or pinned by a quiesce. */
module ResetGate {
  import opened Common
  import opened Selectors
  import opened RuntimeReport
  import opened RuntimeVersion
  import opened RuntimeProfiles
  import opened UniqueSelection

  const MAX_EVIDENCE_AGE: int := 5 * MINUTE

  datatype Target = Target(node: string, gpu: string)

  datatype NodeInfo = NodeInfo(uid: string, labels: Option<Labels>)

  /** The report a quiesce kept, because stopping the host engine erases it from every later one. */
  datatype Pin = Pin(node: string, report: Report)

  /** Unattributed is permanent: a missing device identity never arrives later. */
  datatype Verdict = Admitted | Refused | Unattributed

  /** What every reset reads at admission: the clock, the node as inventoried, the profiles in force. */
  datatype Live = Live(now: Time, node: Option<NodeInfo>, profiles: seq<Profile>)

  /** The profile that grants and the identity it applies to; never taken from a pin. */
  function Authority(live: Live): Option<(Profile, string)> {
    if live.node.None? || live.node.value.uid == "" || live.node.value.labels.None? then None
    else match Selected(live.profiles, live.node.value.labels.value, Nvidia)
      case Exact(p) => Some((p, live.node.value.uid))
      case _ => None
  }

  predicate IsTarget(d: Device, gpu: string) { d.id == gpu && d.kind.Physical? && d.family.Gpu? }

  predicate HasGpu(devices: seq<Device>, gpu: string) {
    exists i :: 0 <= i < |devices| && IsTarget(devices[i], gpu)
  }

  /** The whole evidence test, the same for a live report and a pinned one. */
  predicate EvidenceOk(p: Profile, r: Report, uid: string, gpu: string, now: Time) {
    r.nodeUid == uid && CheckAction(p, now, r, ResetDevice, PhysicalDevice) && HasGpu(r.devices, gpu)
  }

  function LiveVerdict(target: Target, live: Live, stored: Option<Report>): Verdict {
    if target.node == "" then Refused
    else if target.gpu == "" then Unattributed
    else
      var authority := Authority(live);
      if authority.None? || stored.None? then Refused
      else if EvidenceOk(authority.value.0, stored.value, authority.value.1, target.gpu, live.now) then Admitted
      else Refused
  }

  function PinnedVerdict(pin: Pin, target: Target, live: Live): Verdict {
    if pin.node != target.node then Refused
    else
      var authority := Authority(live);
      if authority.None? then Refused
      else if EvidenceOk(authority.value.0, pin.report, authority.value.1, target.gpu, live.now) then Admitted
      else Refused
  }

  predicate Expired(pin: Pin, now: Time) { now - pin.report.observedAt > MAX_EVIDENCE_AGE }

  method FindGpu(devices: seq<Device>, gpu: string) returns (found: bool)
    ensures found <==> HasGpu(devices, gpu)
  {
    for i := 0 to |devices|
      invariant forall k :: 0 <= k < i ==> !IsTarget(devices[k], gpu)
    {
      if devices[i].id == gpu && devices[i].kind.Physical? && devices[i].family.Gpu? {
        return true;
      }
    }
    found := false;
  }

  class Evidence {
    var pins: map<string, Pin>

    constructor ()
      ensures pins == map[]
    {
      pins := map[];
    }

    /** An expired pin is dropped rather than reused. */
    method Take(incident: string, now: Time) returns (pin: Option<Pin>)
      modifies this
      ensures pin.Some? <==> incident in old(pins) && !Expired(old(pins)[incident], now)
      ensures pin.Some? ==> pin.value == old(pins)[incident] && pins == old(pins)
      ensures pin.None? ==> pins == old(pins) - {incident}
    {
      if incident !in pins {
        assert pins - {incident} == pins;
        return None;
      }
      if now - pins[incident].report.observedAt > MAX_EVIDENCE_AGE {
        pins := pins - {incident};
        return None;
      }
      return Some(pins[incident]);
    }

    /** A pin stands in for the stored report, and only for that. */
    method AllowReset(incident: string, target: Target, live: Live, stored: Option<Report>) returns (v: Verdict)
      modifies this
      ensures v == if incident in old(pins) && !Expired(old(pins)[incident], live.now)
                   then PinnedVerdict(old(pins)[incident], target, live) else LiveVerdict(target, live, stored)
      ensures incident in pins ==> pins == old(pins) && !Expired(pins[incident], live.now)
      ensures incident !in pins ==> pins == old(pins) - {incident}
    {
      var pin := Take(incident, live.now);
      if pin.Some? {
        if pin.value.node != target.node {
          return Refused;
        }
        v := Decide(live, pin.value.report, target.gpu);
        return;
      }
      if target.node == "" {
        return Refused;
      }
      if target.gpu == "" {
        return Unattributed;
      }
      if stored.None? {
        return Refused;
      }
      v := Decide(live, stored.value, target.gpu);
    }
  }

  method Decide(live: Live, r: Report, gpu: string) returns (v: Verdict)
    ensures var authority := Authority(live);
            v == if authority.Some? && EvidenceOk(authority.value.0, r, authority.value.1, gpu, live.now)
                 then Admitted else Refused
  {
    var authority := Authority(live);
    if authority.None? {
      return Refused;
    }
    var (profile, uid) := authority.value;
    if r.nodeUid != uid {
      return Refused;
    }
    if !CheckAction(profile, live.now, r, ResetDevice, PhysicalDevice) {
      return Refused;
    }
    var found := FindGpu(r.devices, gpu);
    v := if found then Admitted else Refused;
  }

  // ----- What a verdict means -----

  /**
   A verdict on pinned evidence is the verdict the same report gets read live: only
   the report comes from the pin, the profile and the node identity never do.
   */
  lemma PinnedEqualsLive(pin: Pin, target: Target, live: Live)
    requires pin.node == target.node && target.node != ""
    ensures PinnedVerdict(pin, target, live).Admitted? <==> LiveVerdict(target, live, Some(pin.report)).Admitted?
    ensures target.gpu != "" ==> PinnedVerdict(pin, target, live) == LiveVerdict(target, live, Some(pin.report))
  {
    if target.gpu == "" && ValidReport(pin.report) {
      NamelessDevice(pin.report);
    }
  }

  lemma NamelessDevice(r: Report)
    requires ValidReport(r)
    ensures !HasGpu(r.devices, "")
  {
    forall i | 0 <= i < |r.devices| ensures !IsTarget(r.devices[i], "") {
      assert DeviceOk(r.devices[i]) && Blank("");
    }
  }

  /** The facts behind a reset, in the terms of the profiles and of the report. */
  ghost predicate Grounds(p: Profile, r: Report, live: Live, gpu: string) {
    && GroundsOfAuthority(p, live)
    && GroundsOfReport(p, r, live.now)
    && r.nodeUid == live.node.value.uid
    && r.topology.VerifiedUnpartitioned? && NoPartitions(r.devices)
    && HasGpu(r.devices, gpu)
  }

  ghost predicate GroundsOfAuthority(p: Profile, live: Live) {
    && live.node.Some? && live.node.value.uid != "" && live.node.value.labels.Some?
    && p in live.profiles && ValidProfile(p) && Selects(p, live.node.value.labels.value, Nvidia)
    && multiset(live.profiles)[p] == 1
    && (forall q :: q in live.profiles && Selects(q, live.node.value.labels.value, Nvidia) ==> q == p)
    && Allows(p.allowed, ResetDevice, PhysicalDevice)
  }

  ghost predicate GroundsOfReport(p: Profile, r: Report, now: Time) {
    && ValidReport(r) && r.vendor.Nvidia?
    && r.profileDigest == p.digest && r.profileUid == p.uid && r.profileGeneration == p.generation
    && r.driverVersion == p.driverVersion && Satisfies(r.runtimeVersion, p.runtimeVersion)
    && 0 <= now - r.observedAt <= p.maxReportAge && r.readiness.Ready?
    && Allows(r.capabilities, ResetDevice, PhysicalDevice)
  }

  /** The evidence passes under live authority, for some one profile. */
  predicate Passes(live: Live, r: Report, gpu: string) {
    Authority(live).Some? && EvidenceOk(Authority(live).value.0, r, Authority(live).value.1, gpu, live.now)
  }

  /** An admitted reset, live or pinned, stands on one profile alone and on everything that profile asks. */
  lemma PassingHasGrounds(live: Live, r: Report, gpu: string)
    ensures Passes(live, r, gpu) ==> Grounds(Authority(live).value.0, r, live, gpu)
  {
    if Passes(live, r, gpu) {
      SelectedIsUnique(live.profiles, live.node.value.labels.value, Nvidia);
      CheckedReset(Authority(live).value.0, r, live.now);
    }
  }

  lemma CheckedReset(p: Profile, r: Report, now: Time)
    ensures CheckAction(p, now, r, ResetDevice, PhysicalDevice) ==>
              && GroundsOfReport(p, r, now) && r.topology.VerifiedUnpartitioned? && NoPartitions(r.devices)
              && Allows(p.allowed, ResetDevice, PhysicalDevice)
  {
    if CheckAction(p, now, r, ResetDevice, PhysicalDevice) {
      ResetAsksForVerified(p.allowed, PhysicalDevice);
    }
  }

  /** Conversely such grounds pass, once there is a time and every configured profile is valid. */
  lemma GroundsPass(p: Profile, live: Live, r: Report, gpu: string)
    requires Grounds(p, r, live, gpu) && live.now != ZERO_TIME && forall q :: q in live.profiles ==> ValidProfile(q)
    ensures Passes(live, r, gpu)
  {
    SoleSelection(p, live);
    assert CheckAction(p, live.now, r, ResetDevice, PhysicalDevice);
  }

  lemma SoleSelection(p: Profile, live: Live)
    requires GroundsOfAuthority(p, live) && forall q :: q in live.profiles ==> ValidProfile(q)
    ensures Authority(live) == Some((p, live.node.value.uid))
  {
    UniqueIsExact(live.profiles, Valid(), For(live.node.value.labels.value, Nvidia), p);
  }

  /**
   A reset is admitted on the stored report if and only if it names a node and a device,
   and that report has its grounds under a valid profile set.
   */
  lemma AdmittedIff(target: Target, live: Live, r: Report)
    ensures LiveVerdict(target, live, Some(r)).Admitted? <==>
            && target.node != "" && target.gpu != "" && live.now != ZERO_TIME
            && (forall q :: q in live.profiles ==> ValidProfile(q))
            && exists p :: Grounds(p, r, live, target.gpu)
  {
    PassingIff(live, r, target.gpu);
    assert LiveVerdict(target, live, Some(r)).Admitted? <==>
           target.node != "" && target.gpu != "" && Passes(live, r, target.gpu);
  }

  lemma PassingIff(live: Live, r: Report, gpu: string)
    ensures Passes(live, r, gpu) <==>
            && live.now != ZERO_TIME && (forall q :: q in live.profiles ==> ValidProfile(q))
            && exists p :: Grounds(p, r, live, gpu)
  {
    if Passes(live, r, gpu) {
      PassingHasGrounds(live, r, gpu);
      SelectedAmongValid(live);
      PassingHasTime(live, r, gpu);
    }
    if p :| Grounds(p, r, live, gpu) && live.now != ZERO_TIME && forall q :: q in live.profiles ==> ValidProfile(q) {
      GroundsPass(p, live, r, gpu);
    }
  }

  lemma PassingHasTime(live: Live, r: Report, gpu: string)
    ensures Passes(live, r, gpu) ==> live.now != ZERO_TIME
  {
  }

  lemma SelectedAmongValid(live: Live)
    ensures Authority(live).Some? ==> forall q :: q in live.profiles ==> ValidProfile(q)
  {
    if Authority(live).Some? {
      ExactIff(live.profiles, Valid(), For(live.node.value.labels.value, Nvidia));
      forall q | q in live.profiles ensures ValidProfile(q) {
        assert Valid()(q);
      }
    }
  }
}
