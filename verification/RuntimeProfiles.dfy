/** The server-owned runtime profiles: their validation, their checks of a report, and the selection of one. */
module RuntimeProfiles {
  import opened Common
  import opened Text
  import opened Selectors
  import opened RuntimeReport
  import opened RuntimeVersion
  import opened UniqueSelection

  datatype Profile = Profile(
    name: string, selector: Labels, vendor: Vendor, digest: string, driverVersion: string, runtimeVersion: string,
    uid: string, generation: int, maxReportAge: int, allowed: seq<Grant>)

  // ----- Validation -----

  predicate Clean(s: string) { !Blank(s) && Unpadded(s) }

  predicate IsLowerHex(c: char) { '0' <= c <= '9' || 'a' <= c <= 'f' }

  predicate ValidDigest(s: string) {
    |s| == 7 + 64 && s[..7] == "sha256:" && forall i :: 7 <= i < |s| ==> IsLowerHex(s[i])
  }

  predicate CleanLabels(labels: Labels) {
    forall key :: key in labels ==> Clean(key) && Clean(labels[key])
  }

  predicate ValidIdentity(p: Profile) {
    && Clean(p.name) && p.vendor.Nvidia? && p.selector != map[] && CleanLabels(p.selector)
    && ValidDigest(p.digest) && Clean(p.driverVersion) && Clean(p.runtimeVersion) && Clean(p.uid)
    && p.generation > 0 && p.maxReportAge > 0
  }

  /** A reset is granted for physical devices only and on a verified topology only; nothing else asks for one. */
  function PolicyAdmits(): (Grant, Scope) -> bool {
    (g: Grant, s: Scope) =>
      if g.action.ResetDevice? then s.PhysicalDevice? && g.requireVerified else !g.requireVerified
  }

  predicate ValidProfile(p: Profile) {
    ValidIdentity(p) && ValidGrants(p.allowed, PolicyAdmits())
  }

  method CheckLabels(labels: Labels) returns (ok: bool)
    ensures ok <==> CleanLabels(labels)
  {
    var rest := labels.Keys;
    while rest != {}
      invariant rest <= labels.Keys
      invariant forall key :: key in labels && key !in rest ==> Clean(key) && Clean(labels[key])
    {
      var key :| key in rest;
      if !Clean(key) || !Clean(labels[key]) {
        return false;
      }
      rest := rest - {key};
    }
    ok := true;
  }

  method Validate(p: Profile) returns (ok: bool)
    ensures ok <==> ValidProfile(p)
  {
    if !Clean(p.name) || !p.vendor.Nvidia? || |p.selector| == 0 {
      return false;
    }
    ok := CheckLabels(p.selector);
    if !ok {
      return;
    }
    if !ValidDigest(p.digest) || !Clean(p.driverVersion) || !Clean(p.runtimeVersion) || !Clean(p.uid) {
      return false;
    }
    if p.generation <= 0 || p.maxReportAge <= 0 {
      return false;
    }
    ok := CheckGrants(p.allowed, PolicyAdmits());
  }

  // ----- Permissions -----

  predicate Permits(g: Grant, action: Action, scope: Scope) { g.action == action && scope in g.scopes }

  predicate Allows(grants: seq<Grant>, action: Action, scope: Scope) {
    exists i :: 0 <= i < |grants| && Permits(grants[i], action, scope)
  }

  /** The topology precondition of the first grant that permits the action. */
  function RequiresVerified(grants: seq<Grant>, action: Action, scope: Scope): bool {
    if grants == [] then false
    else if Permits(grants[0], action, scope) then grants[0].requireVerified
    else RequiresVerified(grants[1..], action, scope)
  }

  method ScopeListed(scopes: seq<Scope>, scope: Scope) returns (found: bool)
    ensures found <==> scope in scopes
  {
    for i := 0 to |scopes|
      invariant scope !in scopes[..i]
    {
      if scopes[i] == scope {
        return true;
      }
    }
    found := false;
  }

  /** Allowed, and the precondition of the grant that allows it: both questions walk the grants alike. */
  method FindGrant(grants: seq<Grant>, action: Action, scope: Scope) returns (allowed: bool, requireVerified: bool)
    ensures allowed <==> Allows(grants, action, scope)
    ensures requireVerified <==> RequiresVerified(grants, action, scope)
  {
    for i := 0 to |grants|
      invariant forall k :: 0 <= k < i ==> !Permits(grants[k], action, scope)
      invariant RequiresVerified(grants[i..], action, scope) == RequiresVerified(grants, action, scope)
    {
      assert grants[i..][1..] == grants[i + 1..];
      if grants[i].action == action {
        var listed := ScopeListed(grants[i].scopes, scope);
        if listed {
          return true, grants[i].requireVerified;
        }
      }
    }
    return false, false;
  }

  /** Validation makes the order of the grants irrelevant: an allowed reset always asks for a verified topology. */
  lemma {:induction false} ResetAsksForVerified(grants: seq<Grant>, scope: Scope)
    requires ValidGrants(grants, PolicyAdmits())
    ensures RequiresVerified(grants, ResetDevice, scope) <==> Allows(grants, ResetDevice, scope)
    ensures Allows(grants, ResetDevice, scope) ==> scope == PhysicalDevice
  {
    forall i | 0 <= i < |grants| && Permits(grants[i], ResetDevice, scope)
      ensures grants[i].requireVerified && scope == PhysicalDevice
    {
      assert GrantOk(grants[i], PolicyAdmits());
      var a :| 0 <= a < |grants[i].scopes| && grants[i].scopes[a] == scope;
      assert PolicyAdmits()(grants[i], grants[i].scopes[a]);
    }
    FirstPermit(grants, ResetDevice, scope);
  }

  lemma AllowsHead(grants: seq<Grant>, action: Action, scope: Scope)
    requires grants != []
    ensures Allows(grants, action, scope) <==> Permits(grants[0], action, scope) || Allows(grants[1..], action, scope)
  {
    var rest := grants[1..];
    assert forall i :: 0 <= i < |rest| ==> rest[i] == grants[i + 1];
    if Allows(rest, action, scope) {
      var i :| 0 <= i < |rest| && Permits(rest[i], action, scope);
      assert Permits(grants[i + 1], action, scope);
    }
    if Allows(grants, action, scope) && !Permits(grants[0], action, scope) {
      var i :| 0 <= i < |grants| && Permits(grants[i], action, scope);
      assert Permits(rest[i - 1], action, scope);
    }
  }

  lemma {:induction false} FirstPermit(grants: seq<Grant>, action: Action, scope: Scope)
    requires forall i :: 0 <= i < |grants| && Permits(grants[i], action, scope) ==> grants[i].requireVerified
    ensures RequiresVerified(grants, action, scope) <==> Allows(grants, action, scope)
  {
    if grants != [] {
      AllowsHead(grants, action, scope);
      FirstPermit(grants[1..], action, scope);
    }
  }

  // ----- Checks of a report -----

  predicate CheckReport(p: Profile, now: Time, r: Report) {
    && ValidProfile(p) && ValidReport(r) && now != ZERO_TIME
    && r.vendor == p.vendor && r.profileDigest == p.digest
    && r.profileUid == p.uid && r.profileGeneration == p.generation
    && r.driverVersion == p.driverVersion && Satisfies(r.runtimeVersion, p.runtimeVersion)
    && r.observedAt <= now && now - r.observedAt <= p.maxReportAge
    && r.readiness.Ready?
  }

  predicate CheckAction(p: Profile, now: Time, r: Report, action: Action, scope: Scope) {
    && CheckReport(p, now, r)
    && Allows(p.allowed, action, scope) && Allows(r.capabilities, action, scope)
    && (RequiresVerified(p.allowed, action, scope) ==> r.topology.VerifiedUnpartitioned?)
  }

  // ----- Selection -----

  predicate Selects(p: Profile, labels: Labels, vendor: Vendor) {
    p.vendor == vendor && p.selector != map[] && Matches(p.selector, labels)
  }

  function Valid(): Profile -> bool { (p: Profile) => ValidProfile(p) }

  function For(labels: Labels, vendor: Vendor): Profile -> bool { (p: Profile) => Selects(p, labels, vendor) }

  function Selected(profiles: seq<Profile>, labels: Labels, vendor: Vendor): Selection<Profile> {
    Select(profiles, Valid(), For(labels, vendor))
  }

  method MatchesLabels(p: Profile, labels: Labels) returns (ok: bool)
    ensures ok <==> p.selector != map[] && Matches(p.selector, labels)
  {
    if |p.selector| == 0 {
      return false;
    }
    ok := LabelsMatchSelector(p.selector, labels);
  }

  method ResolveProfile(profiles: seq<Profile>, labels: Labels, vendor: Vendor) returns (r: Selection<Profile>)
    ensures r == Selected(profiles, labels, vendor)
  {
    r := Resolve(profiles, Valid(), For(labels, vendor));
  }

  /** Exact names one profile, valid among valid ones, that alone selects the node. */
  lemma SelectedIsUnique(profiles: seq<Profile>, labels: Labels, vendor: Vendor)
    requires Selected(profiles, labels, vendor).Exact?
    ensures var p := Selected(profiles, labels, vendor).value;
            && p in profiles && ValidProfile(p) && Selects(p, labels, vendor) && multiset(profiles)[p] == 1
            && forall q :: q in profiles && Selects(q, labels, vendor) ==> q == p
  {
    ExactIsUnique(profiles, Valid(), For(labels, vendor));
    forall q | q in profiles && Selects(q, labels, vendor) ensures q == Selected(profiles, labels, vendor).value {
      assert For(labels, vendor)(q);
    }
  }

  /** Whatever the order of the profiles, an exact selection names the same one. */
  lemma SelectionIgnoresOrder(a: seq<Profile>, b: seq<Profile>, labels: Labels, vendor: Vendor)
    requires Permutation(a, b)
    ensures Selected(a, labels, vendor).Exact? ==> Selected(b, labels, vendor) == Selected(a, labels, vendor)
    ensures Selected(a, labels, vendor).Uncovered? <==> Selected(b, labels, vendor).Uncovered?
  {
    OrderKeepsExact(a, b, Valid(), For(labels, vendor));
    OrderKeepsExact(b, a, Valid(), For(labels, vendor));
  }

  // ----- Two orders, two refusals -----

  const LABELS: Labels := map["gpu" := "h100"]

  function Sample(name: string, generation: int): Profile {
    var digest := "sha256:" + seq(64, i => '0');
    Profile(name, LABELS, Nvidia, digest, "570", "dcgm-4.6", "u", generation, MINUTE, [])
  }

  lemma CleanWords()
    ensures Clean("a") && Clean("b") && Clean("u") && Clean("570") && Clean("gpu") && Clean("h100") && Clean("dcgm-4.6")
  {
  }

  lemma SampleIsValid(name: string, generation: int)
    requires Clean(name)
    ensures ValidProfile(Sample(name, generation)) <==> generation > 0
    ensures Selects(Sample(name, generation), LABELS, Nvidia)
  {
    CleanWords();
    var p := Sample(name, generation);
    assert p.digest[..7] == "sha256:";
    assert forall i :: 7 <= i < |p.digest| ==> p.digest[i] == '0';
    assert "gpu" in p.selector;
    assert Pairs(p.allowed) == [];
  }

  /** Two valid profiles that overlap and an invalid one: its place decides the refusal. */
  lemma OverlapRefusals()
    ensures Selected([Sample("a", 1), Sample("b", 1), Sample("u", 0)], LABELS, Nvidia).Ambiguous?
    ensures Selected([Sample("u", 0), Sample("a", 1), Sample("b", 1)], LABELS, Nvidia).Invalid?
  {
    var a, b, bad := Sample("a", 1), Sample("b", 1), Sample("u", 0);
    CleanWords();
    SampleIsValid("a", 1);
    SampleIsValid("b", 1);
    SampleIsValid("u", 0);
    assert [a, b, bad][..2] == [a, b] && [a, b][..1] == [a] && [a][..0] == [];
    assert Filter([a], For(LABELS, Nvidia)) == [a];
    assert Filter([a, b], For(LABELS, Nvidia)) == [a, b];
    StopsAmbiguous([a, b, bad], 2, Valid(), For(LABELS, Nvidia));
    assert [bad, a, b][..0] == [];
    StopsInvalid([bad, a, b], 0, Valid(), For(LABELS, Nvidia));
  }
}
