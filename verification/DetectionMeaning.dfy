/**
 What a suppressed detection means, in terms of devices and faults rather than
 key texts, and which faults the window can therefore never lose.
 */
module DetectionMeaning {
  import opened Common
  import opened Text
  import opened DetectionKeys
  import opened DetectionWindow
  import PciAddress

  predicate CleanEvent(ev: Event) {
    && Bare(ev.node) && Bare(ev.gpuUUID) && BareNative(ev.native)
    && (ev.pciAddr != "" ==>
          Bare(PciAddress.Normalize(ev.pciAddr)) && !Free(PciAddress.Normalize(ev.pciAddr), ':'))
  }

  ghost predicate CleanCatalog(catalog: Catalog) {
    forall n :: catalog(n).Some? ==> Bare(catalog(n).value)
  }

  predicate SameGpu(a: Event, b: Event) {
    a.gpuIndex == b.gpuIndex && a.gpuUUID == b.gpuUUID
  }

  /** The two encodings of one condition on one GPU. */
  predicate OtherEncoding(a: Event, b: Event, catalog: Catalog) {
    && SameGpu(a, b) && a.native.Xid? != b.native.Xid?
    && catalog(a.native).Some? && catalog(a.native) == catalog(b.native)
  }

  /** The accepted event e makes ev a repeat. */
  predicate Repeats(e: Event, ev: Event, singleGPU: bool, catalog: Catalog) {
    if Attributed(ev) then
      || (Attributed(e) && SameGpu(e, ev) && e.native == ev.native)
      || (Attributed(e) && OtherEncoding(e, ev, catalog))
      || (singleGPU && ev.pciAddr == "" && !Attributed(e) && e.node == ev.node && e.native == ev.native)
    else
      && !Attributed(e) && e.node == ev.node && e.native == ev.native
      && (ev.pciAddr != "" ==>
            e.pciAddr != "" && PciAddress.Normalize(e.pciAddr) == PciAddress.Normalize(ev.pciAddr))
  }

  // ----- Keys as identities -----

  function OwnKey(ev: Event): Key {
    if Attributed(ev) then Gpu(ev.gpuIndex, ev.gpuUUID, ev.native)
    else if ev.pciAddr != "" then Pci(ev.node, PciAddress.Normalize(ev.pciAddr), ev.native)
    else Node(ev.node, ev.native)
  }

  function AnchorKeys(ev: Event, tag: string, catalog: Catalog): set<Key> {
    if Attributed(ev) && catalog(ev.native).Some?
    then {Anchor(tag, ev.gpuIndex, ev.gpuUUID, catalog(ev.native).value)} else {}
  }

  function Written(ev: Event, catalog: Catalog): set<Key> {
    {OwnKey(ev)} + AnchorKeys(ev, Tag(ev.native), catalog) +
    (if !Attributed(ev) && ev.pciAddr != "" then {Node(ev.node, ev.native)} else {})
  }

  function Probed(ev: Event, singleGPU: bool, catalog: Catalog): set<Key> {
    {OwnKey(ev)} + AnchorKeys(ev, OtherTag(ev.native), catalog) +
    (if Attributed(ev) && ev.pciAddr == "" && singleGPU then {Node(ev.node, ev.native)} else {})
  }

  lemma OwnKeyFormats(ev: Event)
    requires CleanEvent(ev)
    ensures CleanKey(OwnKey(ev)) && Format(OwnKey(ev)) == DetectionKey(ev)
  {
    if Attributed(ev) {
      GpuKeyFormat(ev);
    } else if ev.pciAddr != "" {
      PciKeyFormat(ev);
    } else {
      NodeKeyFormat(ev);
    }
  }

  lemma WrittenFormats(ev: Event, catalog: Catalog)
    requires CleanEvent(ev) && CleanCatalog(catalog)
    ensures forall k :: k in Written(ev, catalog) ==> CleanKey(k) && Format(k) in WrittenKeys(ev, catalog)
    ensures forall t :: t in WrittenKeys(ev, catalog) ==> exists k :: k in Written(ev, catalog) && Format(k) == t
  {
    OwnKeyFormats(ev);
    var own := OwnKey(ev);
    assert own in Written(ev, catalog);
    if Attributed(ev) {
      if catalog(ev.native).Some? {
        var anchor := Anchor(Tag(ev.native), ev.gpuIndex, ev.gpuUUID, catalog(ev.native).value);
        AnchorKeyFormat(ev, Tag(ev.native), catalog(ev.native).value);
        assert Written(ev, catalog) == {own, anchor};
      } else {
        assert Written(ev, catalog) == {own};
      }
    } else if ev.pciAddr != "" {
      NodeKeyFormat(ev);
      assert Written(ev, catalog) == {own, Node(ev.node, ev.native)};
    } else {
      assert Written(ev, catalog) == {own};
    }
  }

  lemma ProbedFormats(ev: Event, singleGPU: bool, catalog: Catalog)
    requires CleanEvent(ev) && CleanCatalog(catalog)
    ensures forall k :: k in Probed(ev, singleGPU, catalog) ==>
              CleanKey(k) && Format(k) in ProbedKeys(ev, singleGPU, catalog)
    ensures forall t :: t in ProbedKeys(ev, singleGPU, catalog) ==>
              exists k :: k in Probed(ev, singleGPU, catalog) && Format(k) == t
  {
    KeysFormat(ev, OtherTag(ev.native), if catalog(ev.native).Some? then catalog(ev.native).value else "");
    forall t | t in ProbedKeys(ev, singleGPU, catalog)
      ensures exists k :: k in Probed(ev, singleGPU, catalog) && Format(k) == t
    {
      if t == DetectionKey(ev) {
        assert OwnKey(ev) in Probed(ev, singleGPU, catalog) && Format(OwnKey(ev)) == t;
      } else if t == NodeFaultKey(ev) && ev.pciAddr == "" && singleGPU {
        assert Node(ev.node, ev.native) in Probed(ev, singleGPU, catalog);
      } else {
        var anchor := Anchor(OtherTag(ev.native), ev.gpuIndex, ev.gpuUUID, catalog(ev.native).value);
        assert anchor in Probed(ev, singleGPU, catalog);
      }
    }
  }

  lemma SharedKeyIff(e: Event, ev: Event, singleGPU: bool, catalog: Catalog)
    requires CleanEvent(e) && CleanEvent(ev) && CleanCatalog(catalog)
    ensures WrittenKeys(e, catalog) * ProbedKeys(ev, singleGPU, catalog) != {} <==>
            Written(e, catalog) * Probed(ev, singleGPU, catalog) != {}
  {
    WrittenFormats(e, catalog);
    ProbedFormats(ev, singleGPU, catalog);
    var texts := WrittenKeys(e, catalog) * ProbedKeys(ev, singleGPU, catalog);
    var keys := Written(e, catalog) * Probed(ev, singleGPU, catalog);
    if texts != {} {
      var t :| t in texts;
      var j :| j in Written(e, catalog) && Format(j) == t;
      var k :| k in Probed(ev, singleGPU, catalog) && Format(k) == t;
      FormatInjective(j, k);
      assert j in keys;
    }
    if keys != {} {
      var k :| k in keys;
      assert Format(k) in texts;
    }
  }

  lemma SharedIdentityIff(e: Event, ev: Event, singleGPU: bool, catalog: Catalog)
    ensures Written(e, catalog) * Probed(ev, singleGPU, catalog) != {} <==> Repeats(e, ev, singleGPU, catalog)
  {
    var keys := Written(e, catalog) * Probed(ev, singleGPU, catalog);
    assert Tag(e.native) == OtherTag(ev.native) <==> e.native.Xid? != ev.native.Xid?;
    if Repeats(e, ev, singleGPU, catalog) {
      if Attributed(ev) && Attributed(e) && SameGpu(e, ev) && e.native == ev.native {
        assert OwnKey(ev) in keys;
      } else if Attributed(ev) && Attributed(e) {
        assert Anchor(OtherTag(ev.native), ev.gpuIndex, ev.gpuUUID, catalog(ev.native).value) in keys;
      } else {
        assert OwnKey(ev) in keys || Node(ev.node, ev.native) in keys;
      }
    }
    if keys != {} {
      var k :| k in keys;
      assert k in Written(e, catalog) && k in Probed(ev, singleGPU, catalog);
    }
  }

  /**
   A detection is suppressed exactly when an accepted one, under a window old,
   was the same fault on the same device, the other encoding of the same
   condition on that device, or a vague observation of the same node fault that
   nothing can tell apart from it.
   */
  lemma SuppressionMeaning(log: seq<Accepted>, ev: Event, now: Time, singleGPU: bool, catalog: Catalog)
    requires CleanEvent(ev) && CleanCatalog(catalog) && forall i :: 0 <= i < |log| ==> CleanEvent(log[i].event)
    ensures Covered(log, ev, now, singleGPU, catalog) <==>
            exists i :: 0 <= i < |log| && now - log[i].at < WINDOW && Repeats(log[i].event, ev, singleGPU, catalog)
  {
    forall i | 0 <= i < |log|
      ensures CoveredBy(log[i], ev, now, singleGPU, catalog) <==>
              now - log[i].at < WINDOW && Repeats(log[i].event, ev, singleGPU, catalog)
    {
      SharedKeyIff(log[i].event, ev, singleGPU, catalog);
      SharedIdentityIff(log[i].event, ev, singleGPU, catalog);
    }
  }

  // ----- Faults that are never lost -----

  predicate Fresh(log: seq<Accepted>, now: Time, i: int) {
    0 <= i < |log| && now - log[i].at < WINDOW
  }

  /** On a multi-GPU node only an event about the same GPU silences an attributed one. */
  lemma OtherGpuNeverSilences(log: seq<Accepted>, ev: Event, now: Time, catalog: Catalog)
    requires CleanEvent(ev) && CleanCatalog(catalog) && forall i :: 0 <= i < |log| ==> CleanEvent(log[i].event)
    requires Attributed(ev)
    requires forall i :: Fresh(log, now, i) && Attributed(log[i].event) ==> !SameGpu(log[i].event, ev)
    ensures !Covered(log, ev, now, false, catalog)
  {
    SuppressionMeaning(log, ev, now, false, catalog);
  }

  /** Two XIDs of one class on one GPU stay two detections. */
  lemma DistinctXidsStaySeparate(log: seq<Accepted>, ev: Event, now: Time, catalog: Catalog)
    requires CleanEvent(ev) && CleanCatalog(catalog) && forall i :: 0 <= i < |log| ==> CleanEvent(log[i].event)
    requires Attributed(ev) && ev.native.Xid?
    requires forall i :: Fresh(log, now, i) ==> log[i].event.native.Xid? && log[i].event.native != ev.native
    ensures forall singleGPU :: !Covered(log, ev, now, singleGPU, catalog)
  {
    forall singleGPU ensures !Covered(log, ev, now, singleGPU, catalog) {
      SuppressionMeaning(log, ev, now, singleGPU, catalog);
    }
  }

  /** Two devices that fell off the bus with the same fault stay two detections. */
  lemma DistinctSlotsStaySeparate(log: seq<Accepted>, ev: Event, now: Time, catalog: Catalog)
    requires CleanEvent(ev) && CleanCatalog(catalog) && forall i :: 0 <= i < |log| ==> CleanEvent(log[i].event)
    requires !Attributed(ev) && ev.pciAddr != ""
    requires forall i :: Fresh(log, now, i) ==>
               PciAddress.Normalize(log[i].event.pciAddr) != PciAddress.Normalize(ev.pciAddr)
    ensures forall singleGPU :: !Covered(log, ev, now, singleGPU, catalog)
  {
    forall singleGPU ensures !Covered(log, ev, now, singleGPU, catalog) {
      SuppressionMeaning(log, ev, now, singleGPU, catalog);
    }
  }

  /** No run of vague observations silences one that names both the GPU and its bus address. */
  lemma PromotionAlwaysDelivered(log: seq<Accepted>, ev: Event, now: Time, catalog: Catalog)
    requires CleanEvent(ev) && CleanCatalog(catalog) && forall i :: 0 <= i < |log| ==> CleanEvent(log[i].event)
    requires Attributed(ev) && ev.pciAddr != ""
    requires forall i :: Fresh(log, now, i) ==> !Attributed(log[i].event)
    ensures forall singleGPU :: !Covered(log, ev, now, singleGPU, catalog)
  {
    forall singleGPU ensures !Covered(log, ev, now, singleGPU, catalog) {
      SuppressionMeaning(log, ev, now, singleGPU, catalog);
    }
  }

  /** A repeat of an accepted event inside the window is always collapsed. */
  lemma RepeatCollapses(log: seq<Accepted>, i: nat, now: Time, singleGPU: bool, catalog: Catalog)
    requires i < |log| && now - log[i].at < WINDOW
    ensures Covered(log, log[i].event, now, singleGPU, catalog)
  {
    var ev := log[i].event;
    assert DetectionKey(ev) in WrittenKeys(ev, catalog) * ProbedKeys(ev, singleGPU, catalog);
    assert CoveredBy(log[i], ev, now, singleGPU, catalog);
  }

  /**
   A device off the bus is reported by its address; a second later another source sees
   the same XID on the node and no address. Whatever the node's GPUs, it is suppressed.
   */
  lemma VagueAfterAddressed(catalog: Catalog)
    ensures var first := Event("n", -1, "", Xid(79), "0000:3b:00.0");
            Covered([Accepted(first, 0)], Event("n", -1, "", Xid(79), ""), SECOND, false, catalog)
  {
    var first, second := Event("n", -1, "", Xid(79), "0000:3b:00.0"), Event("n", -1, "", Xid(79), "");
    assert NodeFaultKey(first) in WrittenKeys(first, catalog) * ProbedKeys(second, false, catalog);
    assert CoveredBy([Accepted(first, 0)][0], second, SECOND, false, catalog);
  }
}
