/** What an agent reports about the accelerators of its node, and when such a report is well formed. */
module RuntimeReport {
  import opened Common
  import opened Sequences
  import opened Text

  datatype Vendor = Nvidia | Amd | Intel | Google | OtherVendor(text: string)

  predicate ValidVendor(v: Vendor) { !v.OtherVendor? }

  datatype Action =
    | EvacuateWorkloads | QuarantineNode | ResetDevice | RestartRuntime | RebootNode | CollectDiagnostics
    | VerifyHealth | ReplaceNode | OtherAction(text: string)

  predicate ValidAction(a: Action) { !a.OtherAction? }

  datatype Scope = NodeScope | PhysicalDevice | PartitionScope | OtherScope(text: string)

  predicate ValidScope(s: Scope) { !s.OtherScope? }

  /** One action for some scopes; only a profile's policy can require a verified topology. */
  datatype Grant = Grant(action: Action, scopes: seq<Scope>, requireVerified: bool)

  // ----- Lists of grants -----

  function PairsOf(action: Action, scopes: seq<Scope>): seq<(Action, Scope)> {
    seq(|scopes|, i requires 0 <= i < |scopes| => (action, scopes[i]))
  }

  /** Every action and scope a list names, in order. */
  function Pairs(grants: seq<Grant>): seq<(Action, Scope)> {
    if grants == [] then []
    else Pairs(grants[..|grants| - 1]) + PairsOf(grants[|grants| - 1].action, grants[|grants| - 1].scopes)
  }

  predicate GrantOk(g: Grant, admits: (Grant, Scope) -> bool) {
    && ValidAction(g.action) && g.scopes != []
    && forall i :: 0 <= i < |g.scopes| ==> ValidScope(g.scopes[i]) && admits(g, g.scopes[i])
  }

  /** Known actions at known scopes, each admissible, and no action twice at one scope. */
  predicate ValidGrants(grants: seq<Grant>, admits: (Grant, Scope) -> bool) {
    && (forall i :: 0 <= i < |grants| ==> GrantOk(grants[i], admits))
    && Distinct(Pairs(grants))
  }

  lemma PairsAppend(grants: seq<Grant>, i: nat)
    requires i < |grants|
    ensures Pairs(grants[..i + 1]) == Pairs(grants[..i]) + PairsOf(grants[i].action, grants[i].scopes)
  {
    assert grants[..i + 1][..i] == grants[..i];
  }

  lemma {:induction false} PairsPrefix(grants: seq<Grant>, i: nat)
    requires i <= |grants|
    ensures Pairs(grants[..i]) <= Pairs(grants)
    decreases |grants| - i
  {
    if i < |grants| {
      PairsAppend(grants, i);
      PairsPrefix(grants, i + 1);
    } else {
      assert grants[..i] == grants;
    }
  }

  /** The pairs before scope a of grant i. */
  function Walked(grants: seq<Grant>, i: nat, a: nat): seq<(Action, Scope)>
    requires i < |grants| && a <= |grants[i].scopes|
  {
    Pairs(grants[..i]) + PairsOf(grants[i].action, grants[i].scopes[..a])
  }

  lemma WalkedNext(grants: seq<Grant>, i: nat, a: nat)
    requires i < |grants| && a < |grants[i].scopes|
    ensures Walked(grants, i, a) + [(grants[i].action, grants[i].scopes[a])] == Walked(grants, i, a + 1)
    ensures Walked(grants, i, a + 1) <= Pairs(grants)
  {
    PairsAppend(grants, i);
    PairsPrefix(grants, i + 1);
  }

  /** The scopes of one grant, continuing what was seen before it. */
  method CheckScopes(grants: seq<Grant>, i: nat, admits: (Grant, Scope) -> bool, before: set<(Action, Scope)>)
    returns (ok: bool, seen: set<(Action, Scope)>)
    requires i < |grants| && ValidAction(grants[i].action) && grants[i].scopes != []
    requires Of(before, Pairs(grants[..i])) && Distinct(Pairs(grants[..i]))
    ensures ok ==> GrantOk(grants[i], admits) && Of(seen, Pairs(grants[..i + 1])) && Distinct(Pairs(grants[..i + 1]))
    ensures !ok ==> !ValidGrants(grants, admits)
  {
    var g := grants[i];
    seen := before;
    for a := 0 to |g.scopes|
      invariant forall k :: 0 <= k < a ==> ValidScope(g.scopes[k]) && admits(g, g.scopes[k])
      invariant Of(seen, Walked(grants, i, a)) && Distinct(Walked(grants, i, a))
    {
      var pair := (g.action, g.scopes[a]);
      WalkedNext(grants, i, a);
      DistinctAppend(Walked(grants, i, a), pair);
      if !ValidScope(g.scopes[a]) {
        assert !GrantOk(g, admits);
        return false, seen;
      }
      if pair in seen {
        assert !Distinct(Pairs(grants)) by {
          if Distinct(Pairs(grants)) {
            DistinctPrefix(Walked(grants, i, a + 1), Pairs(grants));
          }
        }
        return false, seen;
      }
      seen := seen + {pair};
      if !admits(g, g.scopes[a]) {
        assert !GrantOk(g, admits);
        return false, seen;
      }
    }
    PairsAppend(grants, i);
    assert g.scopes[..|g.scopes|] == g.scopes;
    ok := true;
  }

  /** The nested loop both validations walk, with one set of what was seen. */
  method CheckGrants(grants: seq<Grant>, admits: (Grant, Scope) -> bool) returns (ok: bool)
    ensures ok <==> ValidGrants(grants, admits)
  {
    var seen: set<(Action, Scope)> := {};
    for i := 0 to |grants|
      invariant forall k :: 0 <= k < i ==> GrantOk(grants[k], admits)
      invariant Of(seen, Pairs(grants[..i])) && Distinct(Pairs(grants[..i]))
    {
      if !ValidAction(grants[i].action) || |grants[i].scopes| == 0 {
        assert !GrantOk(grants[i], admits);
        return false;
      }
      ok, seen := CheckScopes(grants, i, admits, seen);
      if !ok {
        return;
      }
    }
    assert grants[..|grants|] == grants;
    ok := true;
  }

  // ----- Reports -----

  datatype Kind = Physical | Partition | OtherKind(text: string)

  datatype Family = Gpu | Tpu | OtherFamily(text: string)

  datatype Device = Device(id: string, kind: Kind, family: Family, parent: string)

  datatype Topology = UnknownTopology | VerifiedUnpartitioned | Partitioned | UnsafeTopology
    | OtherTopology(text: string)

  datatype Readiness = Ready | Degraded | NotReady | OtherReadiness(text: string)

  datatype Report = Report(
    node: string, nodeUid: string, vendor: Vendor, observedAt: Time, devices: seq<Device>,
    driverVersion: string, runtimeVersion: string, topology: Topology, capabilities: seq<Grant>,
    readiness: Readiness, reasons: seq<string>, profileDigest: string, profileUid: string, profileGeneration: int)

  predicate Blank(s: string) { TrimSpace(s) == "" }

  predicate Unpadded(s: string) { TrimSpace(s) == s }

  predicate ValidHeader(r: Report) {
    && !Blank(r.node) && Unpadded(r.node) && Unpadded(r.nodeUid)
    && ValidVendor(r.vendor) && r.observedAt != ZERO_TIME
    && (r.profileUid != "" || r.profileGeneration != 0 ==>
          !Blank(r.profileUid) && Unpadded(r.profileUid) && r.profileGeneration > 0)
    && !r.topology.OtherTopology? && !r.readiness.OtherReadiness?
    && (r.readiness.Ready? ==> r.reasons == [] && !Blank(r.driverVersion) && !Blank(r.runtimeVersion))
    && (!r.readiness.Ready? ==> r.reasons != [])
    && forall i :: 0 <= i < |r.reasons| ==> !Blank(r.reasons[i])
  }

  predicate DeviceOk(d: Device) {
    && !Blank(d.id) && !d.kind.OtherKind? && !d.family.OtherFamily?
    && (d.kind.Physical? ==> d.parent == "")
    && (d.kind.Partition? ==> !Blank(d.parent))
  }

  /** Every partition lies on a physical device of its own family, in the same report. */
  predicate HasParent(devices: seq<Device>, d: Device) {
    exists j ::
      0 <= j < |devices| && devices[j].id == d.parent && devices[j].kind.Physical? && devices[j].family == d.family
  }

  predicate AllDevicesOk(devices: seq<Device>) {
    forall i :: 0 <= i < |devices| ==> DeviceOk(devices[i])
  }

  predicate DistinctIds(devices: seq<Device>) {
    forall i, j :: 0 <= i < j < |devices| ==> devices[i].id != devices[j].id
  }

  predicate AllParented(devices: seq<Device>) {
    forall i :: 0 <= i < |devices| && devices[i].kind.Partition? ==> HasParent(devices, devices[i])
  }

  predicate NoPartitions(devices: seq<Device>) {
    forall i :: 0 <= i < |devices| ==> !devices[i].kind.Partition?
  }

  predicate ValidDevices(devices: seq<Device>, topology: Topology) {
    && AllDevicesOk(devices) && DistinctIds(devices)
    && AllParented(devices) && (topology.VerifiedUnpartitioned? ==> NoPartitions(devices))
  }

  /** A declared reset of a physical device is believed only on a verified topology. */
  function DeclaresOn(topology: Topology): (Grant, Scope) -> bool {
    (g: Grant, s: Scope) => g.action.ResetDevice? && s.PhysicalDevice? ==> topology.VerifiedUnpartitioned?
  }

  predicate ValidReport(r: Report) {
    ValidHeader(r) && ValidDevices(r.devices, r.topology) && ValidGrants(r.capabilities, DeclaresOn(r.topology))
  }

  ghost predicate Indexes(known: map<string, Device>, devices: seq<Device>) {
    && (forall i :: 0 <= i < |devices| ==> devices[i].id in known && known[devices[i].id] == devices[i])
    && (forall id :: id in known ==> exists i :: 0 <= i < |devices| && devices[i].id == id)
  }

  method CheckEachDevice(devices: seq<Device>) returns (ok: bool)
    ensures ok <==> AllDevicesOk(devices)
  {
    for i := 0 to |devices|
      invariant forall k :: 0 <= k < i ==> DeviceOk(devices[k])
    {
      if !DeviceOk(devices[i]) {
        return false;
      }
    }
    ok := true;
  }

  method IndexDevices(devices: seq<Device>) returns (known: Option<map<string, Device>>)
    ensures known.Some? <==> DistinctIds(devices)
    ensures known.Some? ==> Indexes(known.value, devices)
  {
    var byId: map<string, Device> := map[];
    for i := 0 to |devices|
      invariant DistinctIds(devices[..i]) && Indexes(byId, devices[..i])
    {
      var d := devices[i];
      if d.id in byId {
        var k :| 0 <= k < i && devices[..i][k].id == d.id;
        assert devices[k].id == devices[i].id;
        return None;
      }
      IndexGrows(byId, devices, i);
      byId := byId[d.id := d];
    }
    assert devices[..|devices|] == devices;
    known := Some(byId);
  }

  lemma IndexGrows(known: map<string, Device>, devices: seq<Device>, i: nat)
    requires i < |devices| && DistinctIds(devices[..i]) && Indexes(known, devices[..i]) && devices[i].id !in known
    ensures DistinctIds(devices[..i + 1]) && Indexes(known[devices[i].id := devices[i]], devices[..i + 1])
  {
    var after, upto := known[devices[i].id := devices[i]], devices[..i + 1];
    forall k, j | 0 <= k < j < |upto| ensures upto[k].id != upto[j].id {
      assert upto[k] == devices[..i][k];
      if j < i {
        assert upto[j] == devices[..i][j];
      }
    }
    forall k | 0 <= k < |upto| ensures upto[k].id in after && after[upto[k].id] == upto[k] {
      if k < i {
        assert upto[k] == devices[..i][k];
      }
    }
    forall id | id in after ensures exists k :: 0 <= k < |upto| && upto[k].id == id {
      if id in known {
        var k :| 0 <= k < i && devices[..i][k].id == id;
        assert upto[k].id == id;
      } else {
        assert upto[i].id == id;
      }
    }
  }

  lemma ParentLookup(known: map<string, Device>, devices: seq<Device>, d: Device)
    requires Indexes(known, devices)
    ensures HasParent(devices, d) <==>
            d.parent in known && known[d.parent].kind.Physical? && known[d.parent].family == d.family
  {
    if d.parent in known {
      var j :| 0 <= j < |devices| && devices[j].id == d.parent;
      assert known[devices[j].id] == devices[j];
    }
  }

  method CheckParents(devices: seq<Device>, known: map<string, Device>) returns (ok: bool)
    requires Indexes(known, devices)
    ensures ok <==> AllParented(devices)
  {
    for i := 0 to |devices|
      invariant forall k :: 0 <= k < i && devices[k].kind.Partition? ==> HasParent(devices, devices[k])
    {
      var d := devices[i];
      ParentLookup(known, devices, d);
      if d.kind.Partition? &&
         (d.parent !in known || !known[d.parent].kind.Physical? || known[d.parent].family != d.family) {
        return false;
      }
    }
    ok := true;
  }

  method CheckUnpartitioned(devices: seq<Device>) returns (ok: bool)
    ensures ok <==> NoPartitions(devices)
  {
    for i := 0 to |devices|
      invariant forall k :: 0 <= k < i ==> !devices[k].kind.Partition?
    {
      if devices[i].kind.Partition? {
        return false;
      }
    }
    ok := true;
  }

  method CheckDevices(devices: seq<Device>, topology: Topology) returns (ok: bool)
    ensures ok <==> ValidDevices(devices, topology)
  {
    ok := CheckEachDevice(devices);
    if !ok {
      return;
    }
    var known := IndexDevices(devices);
    if known.None? {
      return false;
    }
    ok := CheckParents(devices, known.value);
    if ok && topology.VerifiedUnpartitioned? {
      ok := CheckUnpartitioned(devices);
    }
  }

  method CheckHeader(r: Report) returns (ok: bool)
    ensures ok <==> ValidHeader(r)
  {
    if Blank(r.node) || !Unpadded(r.node) {
      return false;
    }
    if r.nodeUid != "" && (Blank(r.nodeUid) || !Unpadded(r.nodeUid)) {
      return false;
    }
    assert TrimSpace("") == "";
    if !ValidVendor(r.vendor) || r.observedAt == ZERO_TIME {
      return false;
    }
    if r.profileUid != "" || r.profileGeneration != 0 {
      if Blank(r.profileUid) || !Unpadded(r.profileUid) || r.profileGeneration <= 0 {
        return false;
      }
    }
    if r.topology.OtherTopology? || r.readiness.OtherReadiness? {
      return false;
    }
    if r.readiness.Ready? {
      if |r.reasons| != 0 || Blank(r.driverVersion) || Blank(r.runtimeVersion) {
        return false;
      }
    } else if |r.reasons| == 0 {
      return false;
    }
    for i := 0 to |r.reasons|
      invariant forall k :: 0 <= k < i ==> !Blank(r.reasons[k])
    {
      if Blank(r.reasons[i]) {
        return false;
      }
    }
    ok := true;
  }

  method ValidateReport(r: Report) returns (ok: bool)
    ensures ok <==> ValidReport(r)
  {
    ok := CheckHeader(r);
    if !ok {
      return;
    }
    ok := CheckDevices(r.devices, r.topology);
    if !ok {
      return;
    }
    ok := CheckGrants(r.capabilities, DeclaresOn(r.topology));
  }
}
