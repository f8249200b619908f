/** When an attested runtime version is acceptable to a profile that pins another. */
module RuntimeVersion {
  import opened Common
  import opened Text

  function SplitVersion(version: string): (string, string) {
    var dash := LastIndex(version, '-');
    if dash.Some? then (version[..dash.value], version[dash.value + 1..]) else ("", version)
  }

  /** As many components as the profile pinned, never more than major and minor. */
  predicate PartsSatisfy(attested: seq<string>, pinned: seq<string>) {
    var compare := Min(|pinned|, 2);
    |attested| >= compare && forall i :: 0 <= i < compare ==> attested[i] == pinned[i]
  }

  predicate Satisfies(attested: string, pinned: string) {
    var a, p := TrimSpace(attested), TrimSpace(pinned);
    && a != "" && p != ""
    && (a == p ||
        var (prefixA, numberA) := SplitVersion(a);
        var (prefixP, numberP) := SplitVersion(p);
        var parts := Split(numberP, '.');
        prefixA == prefixP && parts[0] != "" && PartsSatisfy(Split(numberA, '.'), parts))
  }

  /** A version as it is written: dotted components, after a vendor prefix and a dash if it has one. */
  datatype Version = Version(vendor: Option<string>, parts: seq<string>)

  predicate WellFormed(v: Version) {
    && v.parts != [] && v.parts[0] != ""
    && forall i :: 0 <= i < |v.parts| ==> Free(v.parts[i], '.') && Free(v.parts[i], '-')
  }

  function Prefix(v: Version): string { if v.vendor.Some? then v.vendor.value else "" }

  function Render(v: Version): string
    requires v.parts != []
  {
    if v.vendor.Some? then v.vendor.value + "-" + Join(v.parts, '.') else Join(v.parts, '.')
  }

  lemma {:induction false} JoinFree(parts: seq<string>, c: char)
    requires parts != [] && c != '.' && forall i :: 0 <= i < |parts| ==> Free(parts[i], c)
    ensures Free(Join(parts, '.'), c)
  {
    if |parts| > 1 {
      JoinFree(parts[1..], c);
    }
  }

  lemma SplitRendered(v: Version)
    requires WellFormed(v)
    ensures SplitVersion(Render(v)) == (Prefix(v), Join(v.parts, '.'))
    ensures Split(Join(v.parts, '.'), '.') == v.parts
  {
    var s, number := Render(v), Join(v.parts, '.');
    JoinFree(v.parts, '-');
    SplitOfJoin(v.parts, '.');
    if v.vendor.Some? {
      LastIndexIs(v.vendor.value, '-', number);
      assert s == v.vendor.value + ['-'] + number;
      assert s[|v.vendor.value| + 1..] == number;
      assert s[..|v.vendor.value|] == v.vendor.value;
    }
  }

  /**
   On written versions without surrounding blanks: a pin is satisfied exactly by
   the same runtime with the same major and minor, as far as the pin names them.
   No component below the minor matters, and no newer minor is accepted.
   */
  lemma SatisfiesIff(attested: Version, pinned: Version)
    requires WellFormed(attested) && WellFormed(pinned)
    requires TrimSpace(Render(attested)) == Render(attested) && TrimSpace(Render(pinned)) == Render(pinned)
    ensures Satisfies(Render(attested), Render(pinned)) <==>
            Prefix(attested) == Prefix(pinned) && PartsSatisfy(attested.parts, pinned.parts)
  {
    var a, p := Render(attested), Render(pinned);
    SplitRendered(attested);
    SplitRendered(pinned);
    assert a != "" && p != "" by {
      assert Split("", '.') == [""];
    }
    if a == p {
      assert Prefix(attested) == SplitVersion(a).0 == Prefix(pinned);
      assert attested.parts == Split(SplitVersion(a).1, '.') == pinned.parts;
    }
  }

  // ----- A build suffix -----

  /** The components once more text follows the last one. */
  function Extend(parts: seq<string>, more: seq<string>): seq<string>
    requires parts != [] && more != []
  {
    parts[..|parts| - 1] + [parts[|parts| - 1] + more[0]] + more[1..]
  }

  lemma {:induction false} JoinExtend(parts: seq<string>, more: seq<string>)
    requires parts != [] && more != []
    ensures Join(Extend(parts, more), '.') == Join(parts, '.') + Join(more, '.')
  {
    var all := Extend(parts, more);
    if |parts| == 1 {
      assert all[1..] == more[1..];
    } else {
      assert all[1..] == Extend(parts[1..], more);
      JoinExtend(parts[1..], more);
    }
  }

  lemma {:induction false} SplitFree(s: string, c: char)
    requires Free(s, c)
    ensures forall i :: 0 <= i < |Split(s, '.')| ==> Free(Split(s, '.')[i], c)
  {
    if s != "" {
      SplitFree(s[1..], c);
    }
  }

  lemma SplitStart(s: string)
    requires s != ""
    ensures Split(s, '.')[0] == "" <==> s[0] == '.'
  {
  }

  lemma DashMovesPrefix(v: Version, suffix: string)
    requires WellFormed(v) && '-' in suffix
    ensures |SplitVersion(Render(v) + suffix).0| > |Prefix(v)|
  {
    var text := Render(v) + suffix;
    var k :| 0 <= k < |suffix| && suffix[k] == '-';
    assert text[|Render(v)| + k] == '-';
    SplitRendered(v);
  }

  lemma DashedIsRefused(v: Version, pinned: Version, suffix: string)
    requires WellFormed(v) && WellFormed(pinned) && '-' in suffix && Prefix(v) == Prefix(pinned)
    requires TrimSpace(Render(pinned)) == Render(pinned) && TrimSpace(Render(v) + suffix) == Render(v) + suffix
    ensures !Satisfies(Render(v) + suffix, Render(pinned))
  {
    DashMovesPrefix(v, suffix);
    SplitRendered(pinned);
  }

  lemma ExtendedParts(parts: seq<string>, more: seq<string>, pinned: seq<string>)
    requires parts != [] && more != [] && pinned != [] && PartsSatisfy(parts, pinned)
    ensures PartsSatisfy(Extend(parts, more), pinned) <==> more[0] == "" || |parts| > Min(|pinned|, 2)
  {
    var last, all := |parts| - 1, Extend(parts, more);
    assert forall i :: 0 <= i < last ==> all[i] == parts[i];
    assert all[last] == parts[last] + more[0];
    if more[0] != "" {
      assert |all[last]| > |parts[last]|;
    }
  }

  lemma ExtendFree(parts: seq<string>, more: seq<string>, c: char)
    requires parts != [] && more != []
    requires forall i :: 0 <= i < |parts| ==> Free(parts[i], c)
    requires forall i :: 0 <= i < |more| ==> Free(more[i], c)
    ensures forall i :: 0 <= i < |Extend(parts, more)| ==> Free(Extend(parts, more)[i], c)
  {
    var last, all := |parts| - 1, Extend(parts, more);
    forall i | 0 <= i < |all| ensures Free(all[i], c) {
      if i < last {
        assert all[i] == parts[i];
      } else if i == last {
        assert all[i] == parts[last] + more[0];
      } else {
        assert all[i] == more[i - last];
      }
    }
  }

  lemma ExtendedIsWritten(v: Version, suffix: string, more: seq<string>)
    requires WellFormed(v) && '-' !in suffix && more == Split(suffix, '.')
    ensures var longer := Version(v.vendor, Extend(v.parts, more));
            WellFormed(longer) && Render(longer) == Render(v) + suffix
  {
    SplitFree(suffix, '-');
    ExtendFree(v.parts, more, '-');
    ExtendFree(v.parts, more, '.');
    JoinExtend(v.parts, more);
    assert Extend(v.parts, more)[0] == (if |v.parts| == 1 then v.parts[0] + more[0] else v.parts[0]);
  }

  /**
   The source means anything below the minor to be ignored, a build suffix included.
   It is ignored exactly when it holds no dash, and starts a component of its own or
   follows one below those the pin names.
   */
  lemma SuffixIgnoredIff(v: Version, pinned: Version, suffix: string)
    requires WellFormed(v) && WellFormed(pinned) && suffix != ""
    requires TrimSpace(Render(v)) == Render(v) && TrimSpace(Render(pinned)) == Render(pinned)
    requires TrimSpace(Render(v) + suffix) == Render(v) + suffix && Satisfies(Render(v), Render(pinned))
    ensures Satisfies(Render(v) + suffix, Render(pinned)) <==>
            '-' !in suffix && (suffix[0] == '.' || |v.parts| > Min(|pinned.parts|, 2))
  {
    SatisfiesIff(v, pinned);
    if '-' in suffix {
      DashedIsRefused(v, pinned, suffix);
    } else {
      var more := Split(suffix, '.');
      ExtendedIsWritten(v, suffix, more);
      SplitStart(suffix);
      ExtendedParts(v.parts, more, pinned.parts);
      SatisfiesIff(Version(v.vendor, Extend(v.parts, more)), pinned);
    }
  }

  const ATTESTED := Version(Some("dcgm"), ["4", "6", "1"])
  const PINNED := Version(Some("dcgm"), ["4", "6"])

  lemma WrittenOut()
    ensures Render(ATTESTED) == "dcgm-4.6.1" && Render(PINNED) == "dcgm-4.6"
    ensures WellFormed(ATTESTED) && WellFormed(PINNED)
  {
    JoinThree("4", "6", "1", '.');
    JoinTwo("4", "6", '.');
  }

  /** A release candidate of an accepted runtime is another runtime. */
  lemma ReleaseCandidateRefused()
    ensures Satisfies("dcgm-4.6.1", "dcgm-4.6") && !Satisfies("dcgm-4.6.1" + "-rc1", "dcgm-4.6")
  {
    WrittenOut();
    SatisfiesIff(ATTESTED, PINNED);
    assert "-rc1"[0] == '-';
    SuffixIgnoredIff(ATTESTED, PINNED, "-rc1");
  }
}
