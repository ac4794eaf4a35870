// Which empires an effect addresses, from an affiliation and an empire id:
// the recipients of GenerateSitRepMessage and the empires SetVisibility
// grants visibility to.  The two switches agree except on CAN_SEE and HUMAN.

module Recipients {
  import opened Universe

  /** Is empire `e` at status `s` with empire `id` (which is a real empire other than `e`)? */
  predicate Partner(w: World, id: int, s: DiplomaticStatus, e: int)
  {
    e != id && id != ALL_EMPIRES && StatusOf(w, id, e) == Some(s)
  }

  /** Does empire `e` see some object of `objs` at basic visibility or better? */
  predicate Observes(w: World, objs: set<ObjId>, e: int)
  {
    exists o :: o in objs && VisRank(VisibilityOf(w, o, e)) >= VisRank(BasicVisibility)
  }

  /**
   * The per-empire test of the affiliations resolved by a loop over all
   * empires.  `seen` is the set of objects matching the sitrep's condition
   * (empty when it has none); only CAN_SEE looks at it.
   */
  predicate SitrepAddresses(w: World, id: int, a: Affiliation, seen: set<ObjId>, e: int)
  {
    match a
    case AffilAlly => Partner(w, id, AtPeace, e)
    case AffilEnemy => Partner(w, id, AtWar, e)
    case AffilCanSee => Observes(w, seen, e)
    case AffilSelf => false
    case AffilNone => false
    case AffilHuman => true
    case AffilAny => true
  }

  /** The recipients of a sitrep. */
  function SitrepRecipients(w: World, id: int, a: Affiliation, seen: set<ObjId>): set<int>
  {
    if a == AffilSelf then (if id != ALL_EMPIRES then {id} else {})
    else set e | e in w.empires && SitrepAddresses(w, id, a, seen, e)
  }

  /** The per-empire test of SetVisibility; CAN_SEE and HUMAN are unsupported and address nobody. */
  predicate VisibilityAddresses(w: World, id: int, a: Affiliation, e: int)
  {
    match a
    case AffilAlly => Partner(w, id, AtPeace, e)
    case AffilEnemy => Partner(w, id, AtWar, e)
    case AffilCanSee => false
    case AffilSelf => false
    case AffilNone => false
    case AffilHuman => false
    case AffilAny => true
  }

  /** The empires SetVisibility acts for. */
  function VisibilityRecipients(w: World, id: int, a: Affiliation): set<int>
  {
    if a == AffilSelf then (if id != ALL_EMPIRES then {id} else {})
    else set e | e in w.empires && VisibilityAddresses(w, id, a, e)
  }

  // ----- properties of the resolution -----

  /** SELF names exactly the given empire, whether or not it exists, and nobody for ALL_EMPIRES. */
  lemma SelfIsTheEmpire(w: World, id: int, seen: set<ObjId>)
    ensures forall e :: e in SitrepRecipients(w, id, AffilSelf, seen) <==> e == id && id != ALL_EMPIRES
    ensures VisibilityRecipients(w, id, AffilSelf) == SitrepRecipients(w, id, AffilSelf, seen)
  {
  }

  /**
   * Allies are at peace and enemies at war with the empire: existing empires,
   * never the empire itself, never the same empire in both, nobody for ALL_EMPIRES.
   */
  lemma AlliesAndEnemies(w: World, id: int, seen: set<ObjId>)
    ensures forall e :: e in SitrepRecipients(w, id, AffilAlly, seen) <==>
                        e in w.empires && e != id && id != ALL_EMPIRES && StatusOf(w, id, e) == Some(AtPeace)
    ensures forall e :: e in SitrepRecipients(w, id, AffilEnemy, seen) <==>
                        e in w.empires && e != id && id != ALL_EMPIRES && StatusOf(w, id, e) == Some(AtWar)
    ensures SitrepRecipients(w, id, AffilAlly, seen) !! SitrepRecipients(w, id, AffilEnemy, seen)
    ensures id == ALL_EMPIRES ==> SitrepRecipients(w, id, AffilAlly, seen) == {} && SitrepRecipients(w, id, AffilEnemy, seen) == {}
  {
  }

  /** ANY and HUMAN reach every empire and NONE nobody; CAN_SEE reaches the observers of the matches. */
  lemma BroadcastAffiliations(w: World, id: int, seen: set<ObjId>)
    ensures SitrepRecipients(w, id, AffilAny, seen) == w.empires.Keys
    ensures SitrepRecipients(w, id, AffilHuman, seen) == w.empires.Keys
    ensures SitrepRecipients(w, id, AffilNone, seen) == {}
    ensures forall e :: e in SitrepRecipients(w, id, AffilCanSee, seen) <==>
                        e in w.empires && exists o :: o in seen && VisRank(VisibilityOf(w, o, e)) >= VisRank(BasicVisibility)
  {
  }

  /** The two switches agree everywhere except CAN_SEE and HUMAN, where SetVisibility acts for nobody. */
  lemma VisibilityAgreesExceptCanSeeAndHuman(w: World, id: int, a: Affiliation, seen: set<ObjId>)
    ensures a != AffilCanSee && a != AffilHuman ==> VisibilityRecipients(w, id, a) == SitrepRecipients(w, id, a, seen)
    ensures a == AffilCanSee || a == AffilHuman ==> VisibilityRecipients(w, id, a) == {}
  {
  }

  /** Except SELF, which may name an empire that does not exist, every recipient is an existing empire. */
  lemma RecipientsExist(w: World, id: int, a: Affiliation, seen: set<ObjId>)
    requires a != AffilSelf
    ensures forall e :: e in SitrepRecipients(w, id, a, seen) ==> e in w.empires
    ensures forall e :: e in VisibilityRecipients(w, id, a) ==> e in w.empires
  {
  }

  /** A visible object makes its observer a CAN_SEE recipient, which HUMAN visibility still ignores. */
  lemma CanSeeDiffers(w: World, id: int, o: ObjId, e: int)
    requires e in w.empires && VisRank(VisibilityOf(w, o, e)) >= VisRank(BasicVisibility)
    ensures e in SitrepRecipients(w, id, AffilCanSee, {o})
    ensures e !in VisibilityRecipients(w, id, AffilCanSee)
  {
  }

  // ----- the loops that build the sets -----

  /** The inner loop of CAN_SEE: stop at the first matching object the empire sees. */
  method SeesAnyOf(w: World, seen: set<ObjId>, e: int) returns (b: bool)
    ensures b == Observes(w, seen, e)
  {
    var objs := SortedIds(seen);
    var j := 0;
    while j < |objs|
      invariant 0 <= j <= |objs|
      invariant forall k :: 0 <= k < j ==> VisRank(VisibilityOf(w, objs[k], e)) < VisRank(BasicVisibility)
    {
      if VisRank(VisibilityOf(w, objs[j], e)) >= VisRank(BasicVisibility) {
        return true;
      }
      j := j + 1;
    }
    forall o | o in seen ensures VisRank(VisibilityOf(w, o, e)) < VisRank(BasicVisibility) {
      var k :| 0 <= k < |objs| && objs[k] == o;
    }
    return false;
  }

  /** The loop over all empires that inserts each one a sitrep addresses. */
  method CollectSitrepRecipients(w: World, id: int, a: Affiliation, seen: set<ObjId>) returns (r: set<int>)
    ensures forall e :: e in r <==> e in w.empires && SitrepAddresses(w, id, a, seen, e)
  {
    r := {};
    var empires := SortedIds(w.empires.Keys);
    var i := 0;
    while i < |empires|
      invariant 0 <= i <= |empires|
      invariant forall e :: e in r ==> e in w.empires && SitrepAddresses(w, id, a, seen, e)
      invariant forall j :: 0 <= j < i && SitrepAddresses(w, id, a, seen, empires[j]) ==> empires[j] in r
    {
      var e := empires[i];
      var addressed: bool;
      if a == AffilCanSee {
        addressed := SeesAnyOf(w, seen, e);
      } else {
        addressed := SitrepAddresses(w, id, a, seen, e);
      }
      if addressed {
        r := r + {e};
      }
      i := i + 1;
    }
  }

  /**
   * The switch of GenerateSitRepMessage::Execute: SELF inserts the empire
   * itself; every other affiliation loops over the empires and inserts each
   * one it addresses, CAN_SEE with an inner loop over the matching objects.
   */
  method ResolveSitrepRecipients(w: World, id: int, a: Affiliation, seen: set<ObjId>) returns (r: set<int>)
    ensures r == SitrepRecipients(w, id, a, seen)
  {
    if a == AffilSelf {
      r := if id != ALL_EMPIRES then {id} else {};
    } else {
      r := CollectSitrepRecipients(w, id, a, seen);
      SetExt(r, SitrepRecipients(w, id, a, seen));
    }
  }

  /** The loop over all empires that inserts each one SetVisibility addresses. */
  method CollectVisibilityRecipients(w: World, id: int, a: Affiliation) returns (r: set<int>)
    ensures forall e :: e in r <==> e in w.empires && VisibilityAddresses(w, id, a, e)
  {
    r := {};
    var empires := SortedIds(w.empires.Keys);
    var i := 0;
    while i < |empires|
      invariant 0 <= i <= |empires|
      invariant forall e :: e in r ==> e in w.empires && VisibilityAddresses(w, id, a, e)
      invariant forall j :: 0 <= j < i && VisibilityAddresses(w, id, a, empires[j]) ==> empires[j] in r
    {
      var e := empires[i];
      if VisibilityAddresses(w, id, a, e) {
        r := r + {e};
      }
      i := i + 1;
    }
  }

  /** The switch of SetVisibility::Execute, built the same way. */
  method ResolveVisibilityRecipients(w: World, id: int, a: Affiliation) returns (r: set<int>)
    ensures r == VisibilityRecipients(w, id, a)
  {
    if a == AffilSelf {
      r := if id != ALL_EMPIRES then {id} else {};
    } else {
      r := CollectVisibilityRecipients(w, id, a);
      SetExt(r, VisibilityRecipients(w, id, a));
    }
  }
}
