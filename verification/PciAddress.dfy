/** The one comparable form of a PCI device address. */
module PciAddress {
  import opened Text

  function TrimZeros(s: string): string {
    if s != "" && s[0] == '0' then TrimZeros(s[1..]) else s
  }

  function Zeros(n: nat): string { seq(n, _ => '0') }

  function DropFunction(a: string): string {
    var dot := LastIndex(a, '.');
    if dot.Some? then a[..dot.value] else a
  }

  /** Re-pads the domain; anything but two or three components is left as it is. */
  function PadDomain(slot: string): string {
    var printed := Split(slot, ':');
    var parts := if |printed| == 2 then ["0000"] + printed else printed;
    if |parts| != 3 then slot
    else
      var domain := TrimZeros(parts[0]);
      if |domain| > 4 then slot
      else Zeros(4 - |domain|) + domain + ":" + parts[1] + ":" + parts[2]
  }

  function Normalize(addr: string): string {
    var a := ToLower(TrimSpace(addr));
    if a == "" then "" else PadDomain(DropFunction(a))
  }

  // ----- What a spelling denotes -----

  /** One device: its domain without leading zeros, its bus and its device number. */
  datatype Slot = Slot(domain: string, bus: string, device: string)

  predicate Lower(s: string) {
    forall i :: 0 <= i < |s| ==> LowerChar(s[i]) == s[i]
  }

  predicate Component(s: string) {
    Lower(s) && Free(s, ':') && Free(s, '.') && forall i :: 0 <= i < |s| ==> !IsSpace(s[i])
  }

  predicate ValidSlot(t: Slot) {
    && Component(t.domain) && Component(t.bus) && Component(t.device)
    && |t.domain| <= 4 && (t.domain != "" ==> t.domain[0] != '0')
  }

  /**
   How a slot may be printed: an optional domain padded with zeros, the bus, the
   device, an optional function, upper- or lower-case, with spaces around it.
   */
  datatype Spelling = Spelling(
    withDomain: bool, domainZeros: nat, withFunction: bool, fn: string,
    printed: string, left: string, right: string)

  function Core(t: Slot, p: Spelling): string {
    (if p.withDomain then Zeros(p.domainZeros) + t.domain + ":" else "") + t.bus + ":" + t.device
  }

  function Body(t: Slot, p: Spelling): string {
    Core(t, p) + (if p.withFunction then "." + p.fn else "")
  }

  predicate Spells(a: string, t: Slot, p: Spelling) {
    && ValidSlot(t) && AllSpace(p.left) && AllSpace(p.right) && Component(p.fn)
    && (!p.withDomain ==> t.domain == "")
    && ToLower(p.printed) == Body(t, p)
    && a == p.left + p.printed + p.right
  }

  /** The form every spelling of a slot is reduced to. */
  function Canonical(t: Slot): string
    requires ValidSlot(t)
  {
    Zeros(4 - |t.domain|) + t.domain + ":" + t.bus + ":" + t.device
  }

  /** The spelling the canonical form itself is. */
  function Padded(t: Slot): Spelling
    requires ValidSlot(t)
  {
    Spelling(true, 4 - |t.domain|, false, "", Canonical(t), "", "")
  }

  lemma {:induction false} TrimZerosPadding(n: nat, s: string)
    requires s != "" ==> s[0] != '0'
    ensures TrimZeros(Zeros(n) + s) == s
  {
    if n == 0 {
      assert Zeros(0) + s == s;
    } else {
      assert (Zeros(n) + s)[1..] == Zeros(n - 1) + s;
      TrimZerosPadding(n - 1, s);
    }
  }

  lemma DropFunctionOfBody(core: string, fn: string)
    requires Free(core, '.') && Free(fn, '.')
    ensures DropFunction(core) == core
    ensures DropFunction(core + ("." + fn)) == core
  {
    var a := core + ("." + fn);
    assert a == core + ['.'] + fn;
    LastIndexIs(core, '.', fn);
    assert a[..|core|] == core;
  }

  lemma CoreHasNoDot(t: Slot, p: Spelling)
    requires ValidSlot(t)
    ensures Free(Core(t, p), '.')
  {
  }

  lemma CoreParts(t: Slot, p: Spelling)
    requires ValidSlot(t) && (!p.withDomain ==> t.domain == "")
    ensures Split(Core(t, p), ':') ==
            (if p.withDomain then [Zeros(p.domainZeros) + t.domain, t.bus, t.device] else [t.bus, t.device])
  {
    if p.withDomain {
      JoinThree(Zeros(p.domainZeros) + t.domain, t.bus, t.device, ':');
      SplitOfJoin([Zeros(p.domainZeros) + t.domain, t.bus, t.device], ':');
    } else {
      JoinTwo(t.bus, t.device, ':');
      assert Core(t, p) == t.bus + ":" + t.device;
      SplitOfJoin([t.bus, t.device], ':');
    }
  }

  lemma LowerKeepsTrimmed(printed: string)
    requires ToLower(printed) != "" && Trimmed(ToLower(printed))
    ensures Trimmed(printed)
  {
  }

  lemma PadDomainOfCore(t: Slot, p: Spelling)
    requires ValidSlot(t) && (!p.withDomain ==> t.domain == "")
    ensures PadDomain(Core(t, p)) == Canonical(t)
  {
    CoreParts(t, p);
    if p.withDomain {
      TrimZerosPadding(p.domainZeros, t.domain);
    } else {
      TrimZerosPadding(4, "");
      assert Zeros(4) + "" == "0000";
    }
  }

  lemma ReadBody(a: string, t: Slot, p: Spelling)
    requires Spells(a, t, p)
    ensures ToLower(TrimSpace(a)) == Body(t, p) && Body(t, p) != ""
    ensures DropFunction(Body(t, p)) == Core(t, p)
  {
    BodyIsTrimmed(t, p);
    LowerKeepsTrimmed(p.printed);
    TrimPadded(p.left, p.printed, p.right);
    CoreHasNoDot(t, p);
    DropFunctionOfBody(Core(t, p), p.fn);
    if !p.withFunction {
      assert Body(t, p) == Core(t, p);
    }
  }

  /** Every spelling of a slot normalizes to the slot's canonical form. */
  lemma NormalizesToCanonical(a: string, t: Slot, p: Spelling)
    requires Spells(a, t, p)
    ensures Normalize(a) == Canonical(t)
  {
    ReadBody(a, t, p);
    PadDomainOfCore(t, p);
  }

  lemma BodyIsTrimmed(t: Slot, p: Spelling)
    requires ValidSlot(t) && Component(p.fn)
    ensures Body(t, p) != "" && Trimmed(Body(t, p))
  {
    var body := Body(t, p);
    forall i | 0 <= i < |body| ensures !IsSpace(body[i]) {
    }
  }

  lemma CanonicalInjective(t: Slot, u: Slot)
    requires ValidSlot(t) && ValidSlot(u) && Canonical(t) == Canonical(u)
    ensures t == u
  {
    var p := Padded(t);
    var q := Padded(u);
    assert Core(t, p) == Canonical(t) && Core(u, q) == Canonical(u);
    CoreParts(t, p);
    CoreParts(u, q);
    TrimZerosPadding(4 - |t.domain|, t.domain);
    TrimZerosPadding(4 - |u.domain|, u.domain);
  }

  /** Two spellings normalize equal exactly when they denote the same device. */
  lemma SameDeviceIff(a: string, t: Slot, p: Spelling, b: string, u: Slot, q: Spelling)
    requires Spells(a, t, p) && Spells(b, u, q)
    ensures Normalize(a) == Normalize(b) <==> t == u
  {
    NormalizesToCanonical(a, t, p);
    NormalizesToCanonical(b, u, q);
    if Canonical(t) == Canonical(u) {
      CanonicalInjective(t, u);
    }
  }

  /** Normalizing twice changes nothing, and the result has a four-character domain. */
  lemma NormalizeIdempotent(a: string, t: Slot, p: Spelling)
    requires Spells(a, t, p)
    ensures Normalize(Normalize(a)) == Normalize(a)
    ensures FirstSep(Normalize(a), ':') == 4
  {
    NormalizesToCanonical(a, t, p);
    CanonicalSpellsItself(t);
    NormalizesToCanonical(Canonical(t), t, Padded(t));
    CanonicalShape(t);
  }

  lemma CanonicalShape(t: Slot)
    requires ValidSlot(t)
    ensures FirstSep(Canonical(t), ':') == 4
  {
    var field := Zeros(4 - |t.domain|) + t.domain;
    assert Canonical(t) == field + (":" + t.bus + ":" + t.device);
    FirstSepAfterField(field, ":" + t.bus + ":" + t.device, ':');
  }

  lemma CanonicalSpellsItself(t: Slot)
    requires ValidSlot(t)
    ensures Spells(Canonical(t), t, Padded(t))
  {
    var c := Canonical(t);
    var q := Padded(t);
    assert c == Core(t, q) == Body(t, q);
    assert ToLower(c) == c;
    assert c == "" + c + "";
  }
}
