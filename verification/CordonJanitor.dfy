/**
 Who holds a node cordoned, and the janitor that lets go of what nothing holds any
 more. One node is followed; its listing comes from a cache and may be out of date.
 */
module CordonJanitor {
  import opened Common
  import opened CordonReason
  import opened Escalation

  /** A cordon of an older build knows one reason and one mark; a counted one knows its holders. */
  datatype Cordon = Free | Untracked(reason: string, held: bool) | Tracked(owners: set<string>, heldOwners: set<string>)

  function Holds(c: Cordon): set<string> {
    match c
    case Free => {}
    case Untracked(reason, _) => {LegacyOwner(reason)}
    case Tracked(owners, _) => owners
  }

  /** A human has taken charge of this one hold. */
  predicate HeldBy(c: Cordon, owner: string) {
    match c
    case Free => false
    case Untracked(_, held) => held
    case Tracked(_, heldOwners) => owner in heldOwners
  }

  // ----- Operations of the platform -----

  /** Joins the holders; the holder an untracked cordon names is carried over with its mark. */
  function CordonFor(c: Cordon, owner: string, reason: string): Cordon {
    match c
    case Free => Tracked({owner}, {})
    case Untracked(prior, held) =>
      if prior == reason then Tracked({owner}, if held then {owner} else {})
      else Tracked({LegacyOwner(prior), owner}, if held then {LegacyOwner(prior)} else {})
    case Tracked(owners, heldOwners) => Tracked(owners + {owner}, heldOwners)
  }

  /** Leaves the holders; the node returns to service with the last of them. */
  function Release(c: Cordon, leaving: set<string>): Cordon {
    match c
    case Free => Free
    case Untracked(reason, _) => if LegacyOwner(reason) in leaving then Free else c
    case Tracked(owners, heldOwners) =>
      if owners !! leaving then c
      else if owners - leaving == {} then Free
      else Tracked(owners - leaving, heldOwners - leaving)
  }

  function MarkOwner(c: Cordon, owner: string): Cordon {
    if c.Tracked? && owner in c.owners then c.(heldOwners := c.heldOwners + {owner}) else c
  }

  function MarkReason(c: Cordon, reason: string): Cordon {
    if c.Untracked? && c.reason == reason then c.(held := true) else c
  }

  // ----- The janitor's judgement of one hold -----

  datatype Judgement = Leave | Drop(owner: string) | HoldOwner(owner: string) | HoldReason(reason: string)

  type Rows = map<string, State>

  function Judge(rows: Rows, listing: Cordon, owner: string, unreadable: bool): Judgement {
    match FromOwner(owner)
    case None => Leave
    case Some(id) =>
      if unreadable then Leave
      else if id !in rows then (if HeldBy(listing, owner) then Leave else Drop(owner))
      else if Walking(rows[id]) then Leave
      else if rows[id].Resolved? then Drop(owner)
      else if HeldBy(listing, owner) then Leave
      else match listing
        case Free => Leave
        case Untracked(reason, _) => HoldReason(reason)
        case Tracked(_, _) => HoldOwner(owner)
  }

  function Carry(c: Cordon, v: Judgement): Cordon {
    match v
    case Leave => c
    case Drop(owner) => Release(c, {owner})
    case HoldOwner(owner) => MarkOwner(c, owner)
    case HoldReason(reason) => MarkReason(c, reason)
  }

  class Node {
    var cordon: Cordon

    constructor (c: Cordon)
      ensures cordon == c
    {
      cordon := c;
    }

    method ReleaseOwner(owner: string)
      modifies this
      ensures cordon == Release(old(cordon), {owner})
      ensures owner in old(Holds(cordon)) ==> Holds(cordon) == old(Holds(cordon)) - {owner}
    {
      match cordon
      case Free =>
      case Untracked(reason, _) =>
        if owner == LegacyOwner(reason) {
          cordon := Free;
        }
      case Tracked(owners, heldOwners) =>
        var remaining := owners - {owner};
        if remaining == owners {
          assert owners !! {owner};
          return;
        }
        if remaining == {} {
          cordon := Free;
        } else {
          cordon := Tracked(remaining, heldOwners - {owner});
        }
    }

    /** One hold: leave it, release it, or record that a human owns it. */
    method ReconcileOwner(rows: Rows, listing: Cordon, owner: string, unreadable: bool)
      modifies this
      ensures cordon == Carry(old(cordon), Judge(rows, listing, owner, unreadable))
    {
      var id := FromOwner(owner);
      if id.None? || unreadable {
        return;
      }
      if id.value !in rows {
        if !HeldBy(listing, owner) {
          ReleaseOwner(owner);
        }
        return;
      }
      var state := rows[id.value];
      if Walking(state) {
        return;
      }
      if state.Resolved? {
        ReleaseOwner(owner);
        return;
      }
      if !HeldBy(listing, owner) {
        match listing
        case Free =>
        case Untracked(reason, _) => cordon := MarkReason(cordon, reason);
        case Tracked(_, _) => cordon := MarkOwner(cordon, owner);
      }
    }

    /**
     One pass over a listing of the node as it is: exactly the holds nothing stands
     for are let go, and exactly the halted, unresolved ones are newly marked.
     */
    method Reconcile(rows: Rows, unreadable: set<string>)
      modifies this
      ensures Holds(cordon) == Standing(rows, old(cordon), unreadable)
      ensures forall owner :: owner in Holds(cordon) ==>
                (HeldBy(cordon, owner) <==>
                 HeldBy(old(cordon), owner) || NewlyHeld(rows, old(cordon), owner, unreadable))
    {
      var listing := cordon;
      var rest := Holds(listing);
      while rest != {}
        invariant rest <= Holds(listing)
        invariant PassState(rows, listing, cordon, unreadable, rest)
      {
        var owner :| owner in rest;
        ghost var before := cordon;
        ReconcileOwner(rows, listing, owner, owner in unreadable);
        PassStep(rows, listing, before, unreadable, rest, owner);
        rest := rest - {owner};
      }
    }
  }

  /** Dropped by a judgement: finished, or gone without a mark. */
  predicate Drops(rows: Rows, listing: Cordon, owner: string, unreadable: bool) {
    Judge(rows, listing, owner, unreadable) == Drop(owner)
  }

  function Standing(rows: Rows, listing: Cordon, unreadable: set<string>): set<string> {
    set owner | owner in Holds(listing) && !Drops(rows, listing, owner, owner in unreadable)
  }

  /** Halted but not resolved, and not yet marked. */
  predicate NewlyHeld(rows: Rows, listing: Cordon, owner: string, unreadable: set<string>) {
    var v := Judge(rows, listing, owner, owner in unreadable);
    v.HoldOwner? || v.HoldReason?
  }

  ghost predicate PassState(rows: Rows, listing: Cordon, c: Cordon, unreadable: set<string>, rest: set<string>) {
    && (forall owner :: owner in Holds(c) <==>
          owner in Holds(listing) && (owner in rest || !Drops(rows, listing, owner, owner in unreadable)))
    && (Holds(c) != {} ==> c.Tracked? == listing.Tracked? && c.Untracked? == listing.Untracked?)
    && (c.Untracked? && listing.Untracked? ==> c.reason == listing.reason)
    && (forall owner :: owner in Holds(c) ==>
          (HeldBy(c, owner) <==>
             HeldBy(listing, owner) || (owner !in rest && NewlyHeld(rows, listing, owner, unreadable))))
  }

  lemma JudgeShape(rows: Rows, listing: Cordon, owner: string, unreadable: bool)
    ensures var v := Judge(rows, listing, owner, unreadable);
            && (v.Drop? ==> v.owner == owner)
            && (v.HoldOwner? ==> v.owner == owner && listing.Tracked? && !HeldBy(listing, owner))
            && (v.HoldReason? ==> listing.Untracked? && v.reason == listing.reason && !HeldBy(listing, owner))
  {
  }

  lemma CarryHolds(c: Cordon, v: Judgement)
    ensures Holds(Carry(c, v)) == if v.Drop? then Holds(c) - {v.owner} else Holds(c)
    ensures Holds(Carry(c, v)) != {} ==> Carry(c, v).Tracked? == c.Tracked? && Carry(c, v).Untracked? == c.Untracked?
    ensures Carry(c, v).Untracked? && c.Untracked? ==> Carry(c, v).reason == c.reason
    ensures forall owner :: owner in Holds(Carry(c, v)) ==>
              (HeldBy(Carry(c, v), owner) <==>
                 HeldBy(c, owner) || (v == HoldOwner(owner) && c.Tracked?) ||
                 (c.Untracked? && v == HoldReason(c.reason)))
  {
  }

  lemma PassStep(rows: Rows, listing: Cordon, c: Cordon, unreadable: set<string>, rest: set<string>, owner: string)
    requires owner in rest && rest <= Holds(listing) && PassState(rows, listing, c, unreadable, rest)
    ensures PassState(rows, listing, Carry(c, Judge(rows, listing, owner, owner in unreadable)), unreadable,
                      rest - {owner})
  {
    var v := Judge(rows, listing, owner, owner in unreadable);
    JudgeShape(rows, listing, owner, owner in unreadable);
    CarryHolds(c, v);
    assert owner in Holds(c);
  }
}
