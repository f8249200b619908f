/** The identities under which the agent remembers and recognizes a detection. */
module DetectionKeys {
  import opened Common
  import opened Text
  import PciAddress

  /** The source-native identity of a fault: a raw XID, or a vendor's own code. */
  datatype Native = Xid(number: int) | Neutral(vendor: string, code: string)

  datatype Event = Event(node: string, gpuIndex: int, gpuUUID: string, native: Native, pciAddr: string)

  /** Which problem class the built-in catalogue gives a native identity, if any. */
  type Catalog = Native -> Option<string>

  predicate Attributed(ev: Event) {
    ev.gpuIndex >= 0 && ev.gpuUUID != ""
  }

  function NativeToken(n: Native): string {
    match n
    case Neutral(vendor, code) => "fault|" + vendor + "|" + code
    case Xid(number) => "xid|" + Itoa(number)
  }

  function Tag(n: Native): string { if n.Neutral? then "fault" else "xid" }

  function OtherTag(n: Native): string { if n.Neutral? then "xid" else "fault" }

  function GpuKey(ev: Event): string {
    Itoa(ev.gpuIndex) + "|" + ev.gpuUUID + "|" + NativeToken(ev.native)
  }

  function PciFaultKey(ev: Event): string {
    "node|" + ev.node + "|" + PciAddress.Normalize(ev.pciAddr) + "|" + NativeToken(ev.native)
  }

  function NodeFaultKey(ev: Event): string {
    "node|" + ev.node + "|" + NativeToken(ev.native)
  }

  function ClassAnchorKey(ev: Event, tag: string, problem: string): string {
    "classanchor|" + tag + "|" + Itoa(ev.gpuIndex) + "|" + ev.gpuUUID + "|" + problem
  }

  function DetectionKey(ev: Event): string {
    if Attributed(ev) then GpuKey(ev)
    else if ev.pciAddr != "" then PciFaultKey(ev)
    else NodeFaultKey(ev)
  }

  /** The keys an accepted event is remembered under. */
  function WrittenKeys(ev: Event, catalog: Catalog): set<string> {
    {DetectionKey(ev)} +
    (if Attributed(ev) && catalog(ev.native).Some?
     then {ClassAnchorKey(ev, Tag(ev.native), catalog(ev.native).value)} else {}) +
    (if !Attributed(ev) && ev.pciAddr != "" then {NodeFaultKey(ev)} else {})
  }

  /** The keys an incoming event is looked up under. */
  function ProbedKeys(ev: Event, singleGPU: bool, catalog: Catalog): set<string> {
    {DetectionKey(ev)} +
    (if Attributed(ev) && catalog(ev.native).Some?
     then {ClassAnchorKey(ev, OtherTag(ev.native), catalog(ev.native).value)} else {}) +
    (if Attributed(ev) && ev.pciAddr == "" && singleGPU then {NodeFaultKey(ev)} else {})
  }

  // ----- What a key means -----

  datatype Key =
    | Gpu(index: int, uuid: string, native: Native)
    | Pci(node: string, slot: string, native: Native)
    | Node(node: string, native: Native)
    | Anchor(tag: string, index: int, uuid: string, problem: string)

  function NativeFields(n: Native): seq<string> {
    match n
    case Neutral(vendor, code) => ["fault", vendor, code]
    case Xid(number) => ["xid", Itoa(number)]
  }

  function Fields(k: Key): seq<string> {
    match k
    case Gpu(index, uuid, native) => [Itoa(index), uuid] + NativeFields(native)
    case Pci(node, slot, native) => ["node", node, slot] + NativeFields(native)
    case Node(node, native) => ["node", node] + NativeFields(native)
    case Anchor(tag, index, uuid, problem) => ["classanchor", tag, Itoa(index), uuid, problem]
  }

  function Format(k: Key): string { Join(Fields(k), '|') }

  predicate Bare(s: string) { Free(s, '|') }

  predicate BareNative(n: Native) {
    n.Neutral? ==> Bare(n.vendor) && Bare(n.code)
  }

  /** Fields free of the separator, and a bus address that looks like one. */
  predicate CleanKey(k: Key) {
    match k
    case Gpu(_, uuid, native) => Bare(uuid) && BareNative(native)
    case Pci(node, slot, native) => Bare(node) && Bare(slot) && !Free(slot, ':') && BareNative(native)
    case Node(node, native) => Bare(node) && BareNative(native)
    case Anchor(tag, _, uuid, problem) => (tag == "xid" || tag == "fault") && Bare(uuid) && Bare(problem)
  }

  lemma CleanFields(k: Key)
    requires CleanKey(k)
    ensures forall i :: 0 <= i < |Fields(k)| ==> Bare(Fields(k)[i])
  {
    match k
    case Gpu(index, _, native) =>
      ItoaShape(index);
      if native.Xid? { ItoaShape(native.number); }
    case Pci(_, _, native) => if native.Xid? { ItoaShape(native.number); }
    case Node(_, native) => if native.Xid? { ItoaShape(native.number); }
    case Anchor(_, index, _, _) => ItoaShape(index);
  }

  lemma NativeFieldsInjective(a: Native, b: Native)
    requires NativeFields(a) == NativeFields(b)
    ensures a == b
  {
    if a.Xid? {
      assert NativeFields(b)[1] == Itoa(a.number);
      ItoaInjective(a.number, b.number);
    } else {
      assert NativeFields(a)[1] == NativeFields(b)[1] && NativeFields(a)[2] == NativeFields(b)[2];
    }
  }

  lemma FieldsInjective(a: Key, b: Key)
    requires CleanKey(a) && CleanKey(b) && Fields(a) == Fields(b)
    ensures a == b
  {
    var fa, fb := Fields(a), Fields(b);
    assert fa[0] == fb[0];
    match a
    case Gpu(index, uuid, native) =>
      ItoaShape(index);
      assert b.Gpu?;
      ItoaInjective(index, b.index);
      assert fa[1] == fb[1] && fa[2..] == fb[2..];
      NativeFieldsInjective(native, b.native);
    case Pci(node, slot, native) =>
      if b.Gpu? { ItoaShape(b.index); }
      assert fa[1] == fb[1] && fa[2] == fb[2];
      assert slot == fb[2];
      assert !b.Node?;
      assert fa[3..] == fb[3..];
      NativeFieldsInjective(native, b.native);
    case Node(node, native) =>
      if b.Gpu? { ItoaShape(b.index); }
      assert fa[1] == fb[1] && fa[2..] == fb[2..];
      assert fb[2] == fa[2];
      assert !b.Pci?;
      NativeFieldsInjective(native, b.native);
    case Anchor(tag, index, uuid, problem) =>
      if b.Gpu? { ItoaShape(b.index); }
      assert fa[1] == fb[1] && fa[2] == fb[2] && fa[3] == fb[3] && fa[4] == fb[4];
      ItoaInjective(index, b.index);
  }

  /** Formatted keys never collide: equal texts are equal identities. */
  lemma FormatInjective(a: Key, b: Key)
    requires CleanKey(a) && CleanKey(b)
    ensures Format(a) == Format(b) ==> a == b
  {
    if Format(a) == Format(b) {
      CleanFields(a);
      CleanFields(b);
      JoinInjective(Fields(a), Fields(b), '|');
      FieldsInjective(a, b);
    }
  }

  // ----- The key functions format these identities -----

  lemma FormatNative(prefix: seq<string>, n: Native)
    requires prefix != []
    ensures Join(prefix + NativeFields(n), '|') == Join(prefix, '|') + "|" + NativeToken(n)
    decreases |prefix|
  {
    if |prefix| == 1 {
      assert (prefix + NativeFields(n))[1..] == NativeFields(n);
      NativeJoin(n);
    } else {
      assert (prefix + NativeFields(n))[1..] == prefix[1..] + NativeFields(n);
      FormatNative(prefix[1..], n);
    }
  }

  lemma NativeJoin(n: Native)
    ensures Join(NativeFields(n), '|') == NativeToken(n)
  {
    var f := NativeFields(n);
    assert Join(f[1..], '|') == if n.Xid? then f[1] else f[1] + "|" + f[2] by {
      if n.Neutral? {
        assert f[1..][1..] == [f[2]];
      }
    }
  }

  lemma KeysFormat(ev: Event, tag: string, problem: string)
    ensures GpuKey(ev) == Format(Gpu(ev.gpuIndex, ev.gpuUUID, ev.native))
    ensures PciFaultKey(ev) == Format(Pci(ev.node, PciAddress.Normalize(ev.pciAddr), ev.native))
    ensures NodeFaultKey(ev) == Format(Node(ev.node, ev.native))
    ensures ClassAnchorKey(ev, tag, problem) == Format(Anchor(tag, ev.gpuIndex, ev.gpuUUID, problem))
  {
    GpuKeyFormat(ev);
    PciKeyFormat(ev);
    NodeKeyFormat(ev);
    AnchorKeyFormat(ev, tag, problem);
  }

  lemma GpuKeyFormat(ev: Event)
    ensures GpuKey(ev) == Format(Gpu(ev.gpuIndex, ev.gpuUUID, ev.native))
  {
    FormatNative([Itoa(ev.gpuIndex), ev.gpuUUID], ev.native);
    JoinTwo(Itoa(ev.gpuIndex), ev.gpuUUID, '|');
  }

  lemma NodeKeyFormat(ev: Event)
    ensures NodeFaultKey(ev) == Format(Node(ev.node, ev.native))
  {
    FormatNative(["node", ev.node], ev.native);
    JoinTwo("node", ev.node, '|');
  }

  lemma PciKeyFormat(ev: Event)
    ensures PciFaultKey(ev) == Format(Pci(ev.node, PciAddress.Normalize(ev.pciAddr), ev.native))
  {
    var slot := PciAddress.Normalize(ev.pciAddr);
    FormatNative(["node", ev.node, slot], ev.native);
    JoinThree("node", ev.node, slot, '|');
  }

  lemma AnchorKeyFormat(ev: Event, tag: string, problem: string)
    ensures ClassAnchorKey(ev, tag, problem) == Format(Anchor(tag, ev.gpuIndex, ev.gpuUUID, problem))
  {
    var f := ["classanchor", tag, Itoa(ev.gpuIndex), ev.gpuUUID, problem];
    assert f[1..] == [tag, Itoa(ev.gpuIndex), ev.gpuUUID, problem];
    assert f[1..][1..] == [Itoa(ev.gpuIndex), ev.gpuUUID, problem];
    var tail := Itoa(ev.gpuIndex) + "|" + ev.gpuUUID + "|" + problem;
    JoinThree(Itoa(ev.gpuIndex), ev.gpuUUID, problem, '|');
    assert Join(f[1..], '|') == tag + "|" + tail;
    assert Join(f, '|') == "classanchor" + "|" + (tag + "|" + tail);
    assert ClassAnchorKey(ev, tag, problem) == "classanchor|" + (tag + "|" + tail);
  }
}
