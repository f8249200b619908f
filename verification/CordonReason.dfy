/** How a cordon names the remediation behind it, and how the janitor reads the name back. */
module CordonReason {
  import opened Common
  import opened Text

  const REASON_PREFIX := "kubeneuron: "
  const LEGACY_PREFIX := "legacy-reason:"

  function Reason(problem: string, id: string): string {
    REASON_PREFIX + problem + " (" + id + ")"
  }

  function FromReason(reason: string): Option<string> {
    if !(REASON_PREFIX <= reason) then None
    else
      var left, right := LastIndex(reason, '('), LastIndex(reason, ')');
      if left.None? || right.None? || right.value < left.value + 2 then None
      else Some(reason[left.value + 1..right.value])
  }

  function LegacyOwner(reason: string): string { LEGACY_PREFIX + reason }

  /** An ordinary owner is the incident id; a legacy owner is the reason an older build wrote. */
  function FromOwner(owner: string): Option<string> {
    if LEGACY_PREFIX <= owner then FromReason(owner[|LEGACY_PREFIX|..])
    else if owner != "" then Some(owner)
    else None
  }

  lemma RightIsLast(problem: string, id: string)
    ensures LastIndex(Reason(problem, id), ')') == Some(|Reason(problem, id)| - 1)
  {
    var r := Reason(problem, id);
    assert r[|r| - 1] == ')';
  }

  /**
   A recorded reason reads back as the incident that wrote it exactly when the id is
   nonempty and holds no opening parenthesis; a closing one, or anything in the
   problem class, does no harm.
   */
  lemma ReasonRoundTrip(problem: string, id: string)
    ensures FromReason(Reason(problem, id)) == Some(id) <==> id != "" && '(' !in id
  {
    var r := Reason(problem, id);
    var before := REASON_PREFIX + problem + " ";
    assert r == before + ['('] + (id + ")");
    assert REASON_PREFIX <= r;
    RightIsLast(problem, id);
    if '(' !in id {
      assert Free(id + ")", '(');
      LastIndexIs(before, '(', id + ")");
      assert r[|before| + 1..|r| - 1] == id;
    } else {
      var k :| 0 <= k < |id| && id[k] == '(';
      assert r[|before| + 1 + k] == '(';
      var left := LastIndex(r, '(');
      assert left.Some? && left.value >= |before| + 1 + k;
      assert FromReason(r).Some? ==> |FromReason(r).value| < |id|;
    }
  }

  /** An id with an opening parenthesis: the text after it is read back as the incident. */
  lemma ParenthesisMisreads()
    ensures FromReason(Reason("xid", "job(1")) == Some("1")
  {
    var r := Reason("xid", "job(1");
    var before := REASON_PREFIX + "xid (job";
    assert r == before + ['('] + "1)";
    assert REASON_PREFIX <= r;
    RightIsLast("xid", "job(1");
    LastIndexIs(before, '(', "1)");
    assert r[|before| + 1..|r| - 1] == "1";
  }

  /** Ids as the controller generates them. */
  predicate WellNamed(id: string) { id != "" && '(' !in id && !(LEGACY_PREFIX <= id) }

  lemma OwnersReadBack(problem: string, id: string)
    requires WellNamed(id)
    ensures FromOwner(id) == Some(id) && FromOwner(LegacyOwner(Reason(problem, id))) == Some(id)
  {
    ReasonRoundTrip(problem, id);
    assert LegacyOwner(Reason(problem, id))[|LEGACY_PREFIX|..] == Reason(problem, id);
  }
}
