// What the single-target effects promise: the planet type/size coupling,
// the focus repair of SetSpecies, SetOwner's no-op and fleet split, the
// symmetry of starlanes, the clamped size of a created field, and the
// effects whose only result is a request or a recorded grant.

module EffectRules {
  import opened Universe
  import opened Effects
  import opened Recipients
  import opened Helpers
  import opened Execution

  // ----- planet type and size -----

  /** Whatever the type and size were, setting a type leaves the planet coupled; an ordinary size stays when the type is ordinary. */
  lemma TypeChangeCouples(t: PlanetType, size: PlanetSize)
    ensures Coupled(t, SizeAfterTypeChange(t, size))
    ensures t != PlanetType.Asteroids && t != PlanetType.GasGiant && size != PlanetSize.Asteroids && size != PlanetSize.GasGiant
            ==> SizeAfterTypeChange(t, size) == size
    ensures t != PlanetType.Asteroids && t != PlanetType.GasGiant && size == PlanetSize.Asteroids ==> SizeAfterTypeChange(t, size) == Tiny
    ensures t != PlanetType.Asteroids && t != PlanetType.GasGiant && size == PlanetSize.GasGiant ==> SizeAfterTypeChange(t, size) == Huge
  {
  }

  /** Whatever the type and size were, setting a size leaves the planet coupled; leaving asteroid or gas giant size makes it barren. */
  lemma SizeChangeCouples(size: PlanetSize, t: PlanetType)
    ensures Coupled(TypeAfterSizeChange(size, t), size)
    ensures size != PlanetSize.Asteroids && size != PlanetSize.GasGiant && t != PlanetType.Asteroids && t != PlanetType.GasGiant
            ==> TypeAfterSizeChange(size, t) == t
    ensures size != PlanetSize.Asteroids && size != PlanetSize.GasGiant && (t == PlanetType.Asteroids || t == PlanetType.GasGiant)
            ==> TypeAfterSizeChange(size, t) == Barren
  {
  }

  /** SetPlanetType on a planet sets the evaluated type, couples the size and touches no other object. */
  lemma SetPlanetTypeKeepsCoupling(w: World, env: Env, v: ValueRef<PlanetType>, ctx: Context)
    ensures var r := Apply(w, env, SetPlanetType(v), ctx);
            && r.objects.Keys == w.objects.Keys
            && (forall k :: k in w.objects && k != ctx.target ==> r.objects[k] == w.objects[k])
            && (!IsKind(w, ctx.target, PlanetObj) ==> r == w)
            && (IsKind(w, ctx.target, PlanetObj) ==>
                  var p := r.objects[ctx.target];
                  && p.planetType == v.eval(w, ctx.(inValue := Some(PlanetTypeValue(w.objects[ctx.target].planetType))))
                  && Coupled(p.planetType, p.planetSize))
  {
    if IsKind(w, ctx.target, PlanetObj) {
      var p := w.objects[ctx.target];
      TypeChangeCouples(v.eval(w, ctx.(inValue := Some(PlanetTypeValue(p.planetType)))), p.planetSize);
    }
  }

  /** SetPlanetSize on a planet sets the evaluated size, couples the type and touches no other object. */
  lemma SetPlanetSizeKeepsCoupling(w: World, env: Env, v: ValueRef<PlanetSize>, ctx: Context)
    ensures var r := Apply(w, env, SetPlanetSize(v), ctx);
            && r.objects.Keys == w.objects.Keys
            && (forall k :: k in w.objects && k != ctx.target ==> r.objects[k] == w.objects[k])
            && (!IsKind(w, ctx.target, PlanetObj) ==> r == w)
            && (IsKind(w, ctx.target, PlanetObj) ==>
                  var p := r.objects[ctx.target];
                  && p.planetSize == v.eval(w, ctx.(inValue := Some(PlanetSizeValue(w.objects[ctx.target].planetSize))))
                  && Coupled(p.planetType, p.planetSize))
  {
    if IsKind(w, ctx.target, PlanetObj) {
      var p := w.objects[ctx.target];
      SizeChangeCouples(v.eval(w, ctx.(inValue := Some(PlanetSizeValue(p.planetSize)))), p.planetType);
    }
  }

  // ----- focus repair -----

  /**
   * The repaired focus is an available one whenever any is available, and
   * none otherwise; an available current focus is kept, and an unavailable
   * one gives way to the preferred focus when that is available.
   */
  lemma RepairedFocusIsAvailable(current: string, foci: seq<string>, preferred: string)
    ensures var f := RepairedFocus(current, foci, preferred);
            && (f in foci <==> foci != [])
            && (foci == [] ==> f == "")
            && (current in foci ==> f == current)
            && (current !in foci && preferred in foci ==> f == preferred)
            && (current !in foci && preferred !in foci && foci != [] ==> f == foci[0])
  {
  }

  /** SetSpecies on a planet: the species is set and the focus is repaired against the foci the planet then offers. */
  lemma SetSpeciesRepairsFocus(w: World, env: Env, v: ValueRef<string>, ctx: Context)
    requires IsKind(w, ctx.target, PlanetObj)
    ensures var r := ApplySetSpecies(w, env, v, ctx);
            var p := w.objects[ctx.target];
            var name := v.eval(w, ctx.(inValue := Some(StringValue(p.species))));
            var foci := env.availableFoci(SetObj(w, ctx.target, p.(species := name)), ctx.target);
            && r.objects.Keys == w.objects.Keys
            && r.objects[ctx.target].species == name
            && (r.objects[ctx.target].focus in foci <==> foci != [])
            && (p.focus in foci ==> r.objects[ctx.target].focus == p.focus)
            && (p.focus !in foci && PreferredFocus(w, name) in foci ==> r.objects[ctx.target].focus == PreferredFocus(w, name))
            && (forall k {:trigger r.objects[k]} :: k in w.objects && k != ctx.target ==> r.objects[k] == w.objects[k])
  {
    var p := w.objects[ctx.target];
    var name := v.eval(w, ctx.(inValue := Some(StringValue(p.species))));
    var foci := env.availableFoci(SetObj(w, ctx.target, p.(species := name)), ctx.target);
    RepairedFocusIsAvailable(p.focus, foci, PreferredFocus(w, name));
  }

  /**
   * The two loops of SetSpecies::Execute: return early when the current
   * focus is available; otherwise look for the preferred focus, falling back
   * to the first available one or none.
   */
  method ChooseFocus(current: string, foci: seq<string>, preferred: string) returns (f: string)
    ensures f == RepairedFocus(current, foci, preferred)
  {
    var i := 0;
    while i < |foci|
      invariant 0 <= i <= |foci|
      invariant current !in foci[..i]
    {
      if foci[i] == current {
        return current;
      }
      assert foci[..i + 1] == foci[..i] + [foci[i]];
      i := i + 1;
    }
    assert foci[..i] == foci;
    var preferredAvailable := false;
    var j := 0;
    while j < |foci|
      invariant 0 <= j <= |foci|
      invariant preferred !in foci[..j]
    {
      if foci[j] == preferred {
        preferredAvailable := true;
        break;
      }
      assert foci[..j + 1] == foci[..j] + [foci[j]];
      j := j + 1;
    }
    if !preferredAvailable {
      assert foci[..j] == foci;
    }
    if preferredAvailable {
      f := preferred;
    } else if |foci| > 0 {
      f := foci[0];
    } else {
      f := "";
    }
  }

  // ----- ownership -----

  /** SetOwner changes nothing when the evaluated owner already owns the target (or there is no target). */
  lemma SetOwnerSameOwnerIsNoOp(w: World, env: Env, v: ValueRef<int>, ctx: Context)
    requires ctx.target !in w.objects || v.eval(w, ctx.(inValue := Some(IntValue(w.objects[ctx.target].owner)))) == w.objects[ctx.target].owner
    ensures Apply(w, env, SetOwner(v), ctx) == w
  {
  }

  /** SetOwner on anything but a ship only changes that object's owner. */
  lemma SetOwnerOfNonShip(w: World, env: Env, v: ValueRef<int>, ctx: Context)
    requires ctx.target in w.objects && w.objects[ctx.target].kind != ShipObj
    ensures var o := w.objects[ctx.target];
            var id := v.eval(w, ctx.(inValue := Some(IntValue(o.owner))));
            Apply(w, env, SetOwner(v), ctx).objects == w.objects[ctx.target := o.(owner := id)]
  {
  }

  /**
   * Splitting a ship off a fleet of another owner, as written: the ship gets
   * a new fleet of its own, with the old fleet's next and previous systems.
   * Inside a system the old fleet no longer lists the ship; outside one it
   * keeps listing it.  The old fleet is requested destroyed exactly when it
   * is then left empty.
   */
  lemma SplitOffShipMakesFleet(w: World, env: Env, ship: ObjId, newOwner: int)
    requires FreshIds(w) && IsKind(w, ship, ShipObj) && w.objects[ship].owner == newOwner
    requires IsKind(w, w.objects[ship].fleetId, FleetObj) && w.objects[w.objects[ship].fleetId].owner != newOwner
    ensures var r := SplitOffShip(w, env, ship, newOwner);
            var f := w.nextObjectId;
            var prior := w.objects[w.objects[ship].fleetId];
            var left := if IsKind(w, w.objects[ship].systemId, SystemObj) then prior.ships - {ship} else prior.ships;
            && ship in r.objects && r.objects[ship].owner == newOwner
            && r.objects[ship].fleetId == f
            && IsKind(r, f, FleetObj) && r.objects[f].ships == {ship} && r.objects[f].owner == newOwner
            && r.objects[f].nextSystem == prior.nextSystem && r.objects[f].prevSystem == prior.prevSystem
            && w.objects[ship].fleetId in r.objects && r.objects[w.objects[ship].fleetId] == prior.(ships := left)
            && (left == {} ==> r.destroyRequests == w.destroyRequests + [(w.objects[ship].fleetId, INVALID_OBJECT_ID)])
            && (left != {} ==> r.destroyRequests == w.destroyRequests)
  {
    var fleet := w.objects[ship].fleetId;
    var sp := CreateNewFleetFor(w, env, ship);
    CreateNewFleetForSplitsShip(w, env, ship);
    AdoptOldFleetRecords(w, sp, fleet, ship);
  }

  /**
   * The same split with the intended CreateNewFleet(x, y, ship): the old
   * fleet no longer lists the ship either way, and is requested destroyed
   * exactly when that leaves it empty.
   */
  lemma SplitOffShipIntendedMakesFleet(w: World, env: Env, ship: ObjId, newOwner: int)
    requires FreshIds(w) && IsKind(w, ship, ShipObj) && w.objects[ship].owner == newOwner
    requires IsKind(w, w.objects[ship].fleetId, FleetObj) && w.objects[w.objects[ship].fleetId].owner != newOwner
    ensures var r := SplitOffShipIntended(w, env, ship, newOwner);
            var f := w.nextObjectId;
            var prior := w.objects[w.objects[ship].fleetId];
            && ship in r.objects && r.objects[ship].owner == newOwner
            && r.objects[ship].fleetId == f
            && IsKind(r, f, FleetObj) && r.objects[f].ships == {ship} && r.objects[f].owner == newOwner
            && r.objects[f].nextSystem == prior.nextSystem && r.objects[f].prevSystem == prior.prevSystem
            && w.objects[ship].fleetId in r.objects && r.objects[w.objects[ship].fleetId] == prior.(ships := prior.ships - {ship})
            && (prior.ships - {ship} == {} ==> r.destroyRequests == w.destroyRequests + [(w.objects[ship].fleetId, INVALID_OBJECT_ID)])
            && (prior.ships - {ship} != {} ==> r.destroyRequests == w.destroyRequests)
  {
    var fleet := w.objects[ship].fleetId;
    var sp := CreateNewFleetForIntended(w, env, ship);
    CreateNewFleetForIntendedSplitsShip(w, env, ship);
    AdoptOldFleetRecords(w, sp, fleet, ship);
  }

  /** What AdoptOldFleet does to a world in which the ship was split off into the fleet `sp.fleet`. */
  lemma AdoptOldFleetRecords(w: World, sp: Spawned, fleet: ObjId, ship: ObjId)
    requires FreshIds(w) && IsKind(w, ship, ShipObj) && IsKind(w, fleet, FleetObj)
    requires sp.fleet == w.nextObjectId && sp.world.destroyRequests == w.destroyRequests
    requires sp.world.objects.Keys == w.objects.Keys + {sp.fleet}
    requires IsKind(sp.world, sp.fleet, FleetObj) && sp.world.objects[sp.fleet].ships == {ship}
    requires sp.world.objects[ship].fleetId == sp.fleet
    ensures var r := AdoptOldFleet(sp, fleet);
            var f := sp.world.objects[fleet];
            && r.objects.Keys == sp.world.objects.Keys
            && r.objects[ship] == sp.world.objects[ship] && r.objects[fleet] == f
            && r.objects[sp.fleet] == sp.world.objects[sp.fleet].(nextSystem := f.nextSystem, prevSystem := f.prevSystem)
            && (f.ships == {} ==> r.destroyRequests == w.destroyRequests + [(fleet, INVALID_OBJECT_ID)])
            && (f.ships != {} ==> r.destroyRequests == w.destroyRequests)
  {
    assert sp.fleet != fleet && sp.fleet != ship;
  }

  /**
   * SetOwner on a ship whose fleet has another owner sets the owner and
   * splits the ship off, as SplitOffShipMakesFleet describes: outside a
   * system its prior fleet keeps listing it.
   */
  lemma SetOwnerSplitsShip(w: World, env: Env, v: ValueRef<int>, ctx: Context)
    requires FreshIds(w) && IsKind(w, ctx.target, ShipObj)
    requires var s := w.objects[ctx.target];
             var id := v.eval(w, ctx.(inValue := Some(IntValue(s.owner))));
             id != s.owner && IsKind(w, s.fleetId, FleetObj) && w.objects[s.fleetId].owner != id
    ensures var s := w.objects[ctx.target];
            var id := v.eval(w, ctx.(inValue := Some(IntValue(s.owner))));
            var r := ApplySetOwner(w, env, v, ctx);
            var f := w.nextObjectId;
            var prior := w.objects[s.fleetId];
            var left := if IsKind(w, s.systemId, SystemObj) then prior.ships - {ctx.target} else prior.ships;
            && ctx.target in r.objects && r.objects[ctx.target].owner == id
            && r.objects[ctx.target].fleetId == f
            && IsKind(r, f, FleetObj) && r.objects[f].ships == {ctx.target} && r.objects[f].owner == id
            && r.objects[f].nextSystem == prior.nextSystem && r.objects[f].prevSystem == prior.prevSystem
            && s.fleetId in r.objects && r.objects[s.fleetId] == prior.(ships := left)
            && (left == {} ==> r.destroyRequests == w.destroyRequests + [(s.fleetId, INVALID_OBJECT_ID)])
            && (left != {} ==> r.destroyRequests == w.destroyRequests)
  {
    var t := ctx.target;
    var s := w.objects[t];
    var id := v.eval(w, ctx.(inValue := Some(IntValue(s.owner))));
    var w1 := SetObj(w, t, s.(owner := id));
    assert w1.objects[t].fleetId == s.fleetId && w1.objects[s.fleetId] == w.objects[s.fleetId];
    assert w1.objects[t].systemId == s.systemId && IsKind(w1, s.systemId, SystemObj) == IsKind(w, s.systemId, SystemObj);
    assert w1.nextObjectId == w.nextObjectId && w1.destroyRequests == w.destroyRequests;
    SplitOffShipMakesFleet(w1, env, t, id);
    assert ApplySetOwner(w, env, v, ctx) == SplitOffShip(w1, env, t, id);
  }

  /**
   * As written, SetOwner on a ship outside any system leaves the ship listed
   * by both its prior fleet and its new one, and queues no destruction of the
   * prior fleet.
   */
  lemma SetOwnerOutsideSystemListsShipTwice(w: World, env: Env, v: ValueRef<int>, ctx: Context)
    requires FreshIds(w) && IsKind(w, ctx.target, ShipObj)
    requires var s := w.objects[ctx.target];
             var id := v.eval(w, ctx.(inValue := Some(IntValue(s.owner))));
             && id != s.owner && IsKind(w, s.fleetId, FleetObj) && w.objects[s.fleetId].owner != id
             && !IsKind(w, s.systemId, SystemObj) && ctx.target in w.objects[s.fleetId].ships
    ensures var s := w.objects[ctx.target];
            var r := ApplySetOwner(w, env, v, ctx);
            && s.fleetId in r.objects && ctx.target in r.objects[s.fleetId].ships
            && w.nextObjectId in r.objects && ctx.target in r.objects[w.nextObjectId].ships
            && s.fleetId != w.nextObjectId
            && r.destroyRequests == w.destroyRequests
  {
    SetOwnerSplitsShip(w, env, v, ctx);
  }

  // ----- starlanes -----

  /** Every lane leads to an object, and the object at its far end has the lane back. */
  predicate LanesSymmetric(w: World)
  {
    forall a, b :: a in w.objects && b in w.objects[a].lanes ==> b in w.objects && a in w.objects[b].lanes
  }

  /** LinkLanes adds the lanes between `t` and `ends` both ways and no other. */
  lemma LinkLanesConnects(objs: map<ObjId, Obj>, t: ObjId, ends: set<ObjId>)
    requires t in objs && ends <= objs.Keys
    ensures var r := LinkLanes(objs, t, ends);
            && r.Keys == objs.Keys
            && (forall k :: k in objs ==> objs[k].lanes <= r[k].lanes)
            && (forall s :: s in ends ==> s in r[t].lanes && t in r[s].lanes)
            && (forall k, b :: k in objs && b in r[k].lanes && b !in objs[k].lanes ==>
                                 (k == t && b in ends) || (k in ends && b == t))
  {
  }

  /** UnlinkLanes removes the lanes between `t` and `ends` both ways and no other. */
  lemma UnlinkLanesDisconnects(objs: map<ObjId, Obj>, t: ObjId, ends: set<ObjId>)
    requires t in objs && ends <= objs.Keys
    ensures var r := UnlinkLanes(objs, t, ends);
            && r.Keys == objs.Keys
            && (forall k :: k in objs ==> r[k].lanes <= objs[k].lanes)
            && (forall s :: s in ends ==> s !in r[t].lanes && t !in r[s].lanes)
            && (forall k, b :: k in objs && b in objs[k].lanes && b !in r[k].lanes ==>
                                 (k == t && b in ends) || (k in ends && b == t))
  {
  }

  /** AddStarlanes connects the target's system with every endpoint system both ways and removes no lane. */
  lemma AddStarlanesConnects(w: World, c: Condition, ctx: Context)
    ensures var r := ApplyAddStarlanes(w, c, ctx);
            && r.objects.Keys == w.objects.Keys
            && (forall k :: k in w.objects ==> w.objects[k].lanes <= r.objects[k].lanes)
            && (LaneEnds(w, c, ctx).None? ==> r == w)
            && (LaneEnds(w, c, ctx).Some? ==>
                  var (t, ends) := LaneEnds(w, c, ctx).value;
                  && (forall s :: s in ends ==> s in r.objects[t].lanes && t in r.objects[s].lanes)
                  && (forall k, b :: k in w.objects && b in r.objects[k].lanes && b !in w.objects[k].lanes ==>
                                       (k == t && b in ends) || (k in ends && b == t)))
  {
    if LaneEnds(w, c, ctx).Some? {
      var (t, ends) := LaneEnds(w, c, ctx).value;
      LinkLanesConnects(w.objects, t, ends);
    }
  }

  /** RemoveStarlanes disconnects the target's system from every endpoint system both ways and adds no lane. */
  lemma RemoveStarlanesDisconnects(w: World, c: Condition, ctx: Context)
    ensures var r := ApplyRemoveStarlanes(w, c, ctx);
            && r.objects.Keys == w.objects.Keys
            && (forall k :: k in w.objects ==> r.objects[k].lanes <= w.objects[k].lanes)
            && (LaneEnds(w, c, ctx).None? ==> r == w)
            && (LaneEnds(w, c, ctx).Some? ==>
                  var (t, ends) := LaneEnds(w, c, ctx).value;
                  && (forall s :: s in ends ==> s !in r.objects[t].lanes && t !in r.objects[s].lanes)
                  && (forall k, b :: k in w.objects && b in w.objects[k].lanes && b !in r.objects[k].lanes ==>
                                       (k == t && b in ends) || (k in ends && b == t)))
  {
    if LaneEnds(w, c, ctx).Some? {
      var (t, ends) := LaneEnds(w, c, ctx).value;
      UnlinkLanesDisconnects(w.objects, t, ends);
    }
  }

  /**
   * Lanes added only between `t` and systems of `ends`, each of them both
   * ways, keep the lanes symmetric.
   */
  lemma AddedLanesKeepSymmetry(w: World, r: World, t: ObjId, ends: set<ObjId>)
    requires LanesSymmetric(w) && t in w.objects && ends <= w.objects.Keys && r.objects.Keys == w.objects.Keys
    requires forall k :: k in w.objects ==> w.objects[k].lanes <= r.objects[k].lanes
    requires forall s :: s in ends ==> s in r.objects[t].lanes && t in r.objects[s].lanes
    requires forall k :: k in w.objects ==>
               forall b :: b in r.objects[k].lanes && b !in w.objects[k].lanes ==> (k == t && b in ends) || (k in ends && b == t)
    ensures LanesSymmetric(r)
  {
    forall a, b | a in r.objects && b in r.objects[a].lanes ensures b in r.objects && a in r.objects[b].lanes {
      assert a in w.objects;
      if b in w.objects[a].lanes {
        assert b in w.objects && a in w.objects[b].lanes;
        assert w.objects[b].lanes <= r.objects[b].lanes;
      } else if a == t && b in ends {
        assert t in r.objects[b].lanes;
      } else {
        assert (a == t && b in ends) || (a in ends && b == t);
        assert a in r.objects[t].lanes;
      }
    }
  }

  /** Adding starlanes keeps the lanes symmetric. */
  lemma AddStarlanesKeepsSymmetry(w: World, c: Condition, ctx: Context)
    requires LanesSymmetric(w)
    ensures LanesSymmetric(ApplyAddStarlanes(w, c, ctx))
  {
    AddStarlanesConnects(w, c, ctx);
    if LaneEnds(w, c, ctx).Some? {
      var (t, ends) := LaneEnds(w, c, ctx).value;
      AddedLanesKeepSymmetry(w, ApplyAddStarlanes(w, c, ctx), t, ends);
    }
  }

  /** Lanes removed only between `t` and systems of `ends`, each of them both ways, keep the lanes symmetric. */
  lemma RemovedLanesKeepSymmetry(w: World, r: World, t: ObjId, ends: set<ObjId>)
    requires LanesSymmetric(w) && t in w.objects && ends <= w.objects.Keys && r.objects.Keys == w.objects.Keys
    requires forall k :: k in w.objects ==> r.objects[k].lanes <= w.objects[k].lanes
    requires forall s :: s in ends ==> s !in r.objects[t].lanes && t !in r.objects[s].lanes
    requires forall k :: k in w.objects ==>
               forall b :: b in w.objects[k].lanes && b !in r.objects[k].lanes ==> (k == t && b in ends) || (k in ends && b == t)
    ensures LanesSymmetric(r)
  {
    forall a, b | a in r.objects && b in r.objects[a].lanes ensures b in r.objects && a in r.objects[b].lanes {
      assert a in w.objects && r.objects[a].lanes <= w.objects[a].lanes;
      assert b in w.objects && a in w.objects[b].lanes;
    }
  }

  /** Removing starlanes keeps the lanes symmetric. */
  lemma RemoveStarlanesKeepsSymmetry(w: World, c: Condition, ctx: Context)
    requires LanesSymmetric(w)
    ensures LanesSymmetric(ApplyRemoveStarlanes(w, c, ctx))
  {
    RemoveStarlanesDisconnects(w, c, ctx);
    if LaneEnds(w, c, ctx).Some? {
      var (t, ends) := LaneEnds(w, c, ctx).value;
      RemovedLanesKeepSymmetry(w, ApplyRemoveStarlanes(w, c, ctx), t, ends);
    }
  }

  // ----- creation -----

  /**
   * CreateField with a known field type and no after-effects adds exactly
   * one object: a field of that type whose size is the clamped one.
   */
  lemma CreateFieldAddsClampedField(w: World, env: Env, ft: ValueRef<string>, fx: Option<ValueRef<real>>, fy: Option<ValueRef<real>>,
                                    fs: Option<ValueRef<real>>, fn: Option<ValueRef<string>>, ctx: Context)
    requires FreshIds(w) && ctx.target in w.objects && ft.eval(w, ctx) in w.fieldTypes
    ensures var r := Apply(w, env, CreateField(Some(ft), fx, fy, fs, fn, []), ctx);
            var id := w.nextObjectId;
            && r.objects.Keys == w.objects.Keys + {id}
            && id !in w.objects
            && r.objects[id].kind == FieldObj
            && r.objects[id].fieldType == ft.eval(w, ctx)
            && Size in r.objects[id].meters
            && MIN_FIELD_SIZE <= r.objects[id].meters[Size] <= MAX_FIELD_SIZE
            && r.objects[id].meters[Size] == ClampFieldSize(if fs.Some? then fs.value.eval(w, ctx) else DEFAULT_FIELD_SIZE)
  {
    var w1 := PlaceField(w, env, ft.eval(w, ctx), fx, fy, fs, fn, ctx);
    PlaceFieldMakesField(w, env, ft.eval(w, ctx), fx, fy, fs, fn, ctx);
    CreateFieldRunsAfterEffects(w, env, ft, fx, fy, fs, fn, [], ctx);
    assert ApplyList(w1, env, [], ctx.(target := w.nextObjectId)) == w1;
  }

  /** With a known field type, CreateField places the field and then runs its after-effects with the new field as target. */
  lemma CreateFieldRunsAfterEffects(w: World, env: Env, ft: ValueRef<string>, fx: Option<ValueRef<real>>, fy: Option<ValueRef<real>>,
                                    fs: Option<ValueRef<real>>, fn: Option<ValueRef<string>>, after: seq<Effect>, ctx: Context)
    requires ctx.target in w.objects && ft.eval(w, ctx) in w.fieldTypes
    ensures Apply(w, env, CreateField(Some(ft), fx, fy, fs, fn, after), ctx)
            == ApplyList(PlaceField(w, env, ft.eval(w, ctx), fx, fy, fs, fn, ctx), env, after, ctx.(target := w.nextObjectId))
  {
  }

  /**
   * The object PlaceField adds is a field of the given type with the clamped
   * size; only the target may change besides.  The field goes into the
   * target when that is a system at the field's position on every given
   * axis; otherwise it stays in no system, at the given or the target's
   * position.
   */
  lemma PlaceFieldMakesField(w: World, env: Env, typeName: string, fx: Option<ValueRef<real>>, fy: Option<ValueRef<real>>,
                             fs: Option<ValueRef<real>>, fn: Option<ValueRef<string>>, ctx: Context)
    requires ctx.target in w.objects
    ensures var r := PlaceField(w, env, typeName, fx, fy, fs, fn, ctx);
            && r.nextObjectId == w.nextObjectId + 1
            && r.objects.Keys == w.objects.Keys + {w.nextObjectId}
            && var f := r.objects[w.nextObjectId];
            && f.kind == FieldObj && f.fieldType == typeName
            && f.meters == map[Size := ClampFieldSize(if fs.Some? then fs.value.eval(w, ctx) else DEFAULT_FIELD_SIZE)]
            && (FreshIds(w) ==> forall k :: k in w.objects && k != ctx.target ==> r.objects[k] == w.objects[k])
    ensures FreshIds(w) ==>
            var r := PlaceField(w, env, typeName, fx, fy, fs, fn, ctx);
            var fld := FieldFor(w, typeName, fx, fy, fs, ctx);
            var t := w.objects[ctx.target];
            var at := IsKind(w, ctx.target, SystemObj) && (fx.None? || fld.x == t.x) && (fy.None? || fld.y == t.y);
            && (at ==> w.nextObjectId in r.objects[ctx.target].contents && r.objects[w.nextObjectId].systemId == ctx.target)
            && (!at ==> r.objects[ctx.target] == t && r.objects[w.nextObjectId].systemId == INVALID_OBJECT_ID
                        && r.objects[w.nextObjectId].x == fld.x && r.objects[w.nextObjectId].y == fld.y)
  {
    var w2 := AddField(w, typeName, fx, fy, fs, ctx);
    var name := if fn.Some? then ScriptedName(env, fn.value, w2, ctx) else env.userString(typeName);
    assert PlaceField(w, env, typeName, fx, fy, fs, fn, ctx) == Rename(w2, w.nextObjectId, name);
  }

  /** The object PlaceSystem adds is a system of the given or the drawn star type, its own system; no other object changes. */
  lemma PlaceSystemMakesSystem(w: World, env: Env, st: Option<ValueRef<StarType>>, sx: Option<ValueRef<real>>, sy: Option<ValueRef<real>>,
                               sn: Option<ValueRef<string>>, ctx: Context)
    ensures var r := PlaceSystem(w, env, st, sx, sy, sn, ctx);
            && r.nextObjectId == w.nextObjectId + 1
            && r.objects.Keys == w.objects.Keys + {w.nextObjectId}
            && r.randomDraws == (if st.Some? then w.randomDraws else w.randomDraws + 1)
            && var sys := r.objects[w.nextObjectId];
            && sys.kind == SystemObj && sys.systemId == w.nextObjectId
            && sys.starType == (if st.Some? then st.value.eval(w, ctx)
                                else StarTypeOf(env.random(w.randomDraws, NUM_STAR_TYPES) % NUM_STAR_TYPES))
            && (FreshIds(w) ==> forall k :: k in w.objects ==> r.objects[k] == w.objects[k])
  {
  }

  /** CreateField without a field type, or with an unknown one, changes nothing. */
  lemma CreateFieldNeedsKnownType(w: World, env: Env, ft: Option<ValueRef<string>>, fx: Option<ValueRef<real>>, fy: Option<ValueRef<real>>,
                                  fs: Option<ValueRef<real>>, fn: Option<ValueRef<string>>, after: seq<Effect>, ctx: Context)
    requires ft.None? || ctx.target !in w.objects || ft.value.eval(w, ctx) !in w.fieldTypes
    ensures Apply(w, env, CreateField(ft, fx, fy, fs, fn, after), ctx) == w
  {
  }

  // ----- specials -----

  /** RemoveSpecial has no effect when the special is not attached to the target. */
  lemma RemoveAbsentSpecialIsNoOp(w: World, env: Env, name: Option<ValueRef<string>>, ctx: Context)
    requires ctx.target in w.objects
    requires (if name.Some? then name.value.eval(w, ctx) else "") !in w.objects[ctx.target].specials
    ensures Apply(w, env, RemoveSpecial(name), ctx) == w
  {
    var o := w.objects[ctx.target];
    var n := if name.Some? then name.value.eval(w, ctx) else "";
    assert o.specials - {n} == o.specials;
    assert w.objects[ctx.target := o] == w.objects;
  }

  /**
   * AddSpecial attaches the named special (the empty name when none) with
   * the capacity evaluated with the current one as input, or keeps the
   * current one without a capacity; a new special starts from zero.
   * Nothing else of the target, and no other object, changes.
   */
  lemma AddSpecialSetsCapacity(w: World, name: Option<ValueRef<string>>, capacity: Option<ValueRef<real>>, ctx: Context)
    requires ctx.target in w.objects
    ensures var n := if name.Some? then name.value.eval(w, ctx) else "";
            var o := w.objects[ctx.target];
            var initial := if n in o.specials then o.specials[n] else 0.0;
            var added := ApplyAddSpecial(w, name, capacity, ctx);
            var a := added.objects[ctx.target];
            && OnlyObjectChanged(added, w, ctx.target)
            && a == o.(specials := a.specials)
            && a.specials.Keys == o.specials.Keys + {n}
            && a.specials[n] == (if capacity.Some? then capacity.value.eval(w, ctx.(inValue := Some(RealValue(initial)))) else initial)
            && (forall k {:trigger a.specials[k]} :: k in o.specials && k != n ==> a.specials[k] == o.specials[k])
  {
  }

  /** RemoveSpecial detaches the named special; the target's other specials, and every other object, are unchanged. */
  lemma RemoveSpecialDetaches(w: World, name: Option<ValueRef<string>>, ctx: Context)
    requires ctx.target in w.objects
    ensures var n := if name.Some? then name.value.eval(w, ctx) else "";
            var o := w.objects[ctx.target];
            var removed := ApplyRemoveSpecial(w, name, ctx);
            var d := removed.objects[ctx.target];
            && OnlyObjectChanged(removed, w, ctx.target)
            && d == o.(specials := d.specials)
            && d.specials.Keys == o.specials.Keys - {n}
            && (forall k {:trigger d.specials[k]} :: k in o.specials && k != n ==> d.specials[k] == o.specials[k])
  {
  }

  // ----- requests and grants -----

  /** Destroy only files a request naming the target and the source (or no object); nothing is removed yet. */
  lemma DestroyOnlyRequests(w: World, env: Env, ctx: Context)
    requires ctx.target in w.objects
    ensures var r := Apply(w, env, Destroy, ctx);
            && r.objects == w.objects
            && |r.destroyRequests| == |w.destroyRequests| + 1
            && r.destroyRequests[..|w.destroyRequests|] == w.destroyRequests
            && r.destroyRequests[|w.destroyRequests|].0 == ctx.target
            && var src := r.destroyRequests[|w.destroyRequests|].1;
               (src == INVALID_OBJECT_ID || src in w.objects) && (ctx.source in w.objects ==> src == ctx.source)
  {
  }

  /** SetDestination does nothing when no object matches the location condition. */
  lemma SetDestinationWithoutMatchIsNoOp(w: World, env: Env, c: Condition, ctx: Context)
    requires Matches(w, c, ctx) == {}
    ensures Apply(w, env, SetDestination(c), ctx) == w
  {
  }

  /** A route SetDestination sets is a non-empty path the fleet can travel, from its start system to the picked object's system. */
  lemma SetDestinationRoute(w: World, env: Env, c: Condition, ctx: Context)
    ensures var r := ApplySetDestination(w, env, c, ctx);
            && r.objects.Keys == w.objects.Keys
            && (forall k :: k in w.objects && k != ctx.target ==> r.objects[k] == w.objects[k])
            && (!IsKind(w, ctx.target, FleetObj) || Matches(w, c, ctx) == {} ==> r == w)
            && (IsKind(w, ctx.target, FleetObj) ==>
                  var f := w.objects[ctx.target];
                  && r.objects[ctx.target] == f.(route := r.objects[ctx.target].route)
                  && (r.objects[ctx.target].route != f.route ==>
                        && r.objects[ctx.target].route != []
                        && env.routeReachable(ctx.target, r.objects[ctx.target].route)
                        && exists d :: d in Matches(w, c, ctx) && w.objects[d].systemId != INVALID_OBJECT_ID
                                       && r.objects[ctx.target].route == env.shortestPath(
                                            if f.systemId == INVALID_OBJECT_ID then f.nextSystem else f.systemId,
                                            w.objects[d].systemId, f.owner)))
  {
    var matches := Matches(w, c, ctx);
    if IsKind(w, ctx.target, FleetObj) && matches != {} {
      var dest := PickDestination(w, env, matches);
    }
  }

  /** SetVisibility grants the visibility of the target alone without a condition, of every match with one, to each existing empire acted for. */
  lemma SetVisibilityGrants(w: World, env: Env, vis: Visibility, aff: Affiliation, empire: Option<ValueRef<int>>,
                            objs: Option<Condition>, ctx: Context)
    requires ctx.target in w.objects && vis != InvalidVisibility
    ensures var r := Apply(w, env, SetVisibility(vis, aff, empire, objs), ctx);
            var id := if empire.Some? then empire.value.eval(w, ctx) else ALL_EMPIRES;
            forall e, o, v :: (e, o, v) in r.effectVisibility <==>
              (e, o, v) in w.effectVisibility
              || (v == vis && e in w.empires && e in VisibilityRecipients(w, id, aff)
                  && (objs.None? ==> o == ctx.target) && (objs.Some? ==> o in Matches(w, objs.value, ctx)))
  {
  }

  /** A sitrep reaches each existing recipient once, for the next turn; the other empires are untouched. */
  lemma SitRepReachesRecipients(w: World, env: Env, msg: string, icon: string, params: seq<(string, ValueRef<string>)>,
                                recipient: Option<ValueRef<int>>, aff: Affiliation, cond: Option<Condition>,
                                lbl: string, lookup: bool, ctx: Context)
    ensures var r := Apply(w, env, GenerateSitRepMessage(msg, icon, params, recipient, aff, cond, lbl, lookup), ctx);
            var id := if recipient.Some? then recipient.value.eval(w, ctx) else ALL_EMPIRES;
            var seen := if cond.Some? then Matches(w, cond.value, ctx) else {};
            && r.objects == w.objects
            && r.empires.Keys == w.empires.Keys
            && forall e :: e in w.empires ==>
                 if e in SitrepRecipients(w, id, aff, seen) then
                   && |r.empires[e].sitReps| == |w.empires[e].sitReps| + 1
                   && r.empires[e].sitReps[..|w.empires[e].sitReps|] == w.empires[e].sitReps
                   && r.empires[e].sitReps[|w.empires[e].sitReps|].turn == w.currentTurn + 1
                   && r.empires[e].sitReps[|w.empires[e].sitReps|].template == msg
                 else r.empires[e] == w.empires[e]
  {
  }

  // ----- meters, empires and appearance -----

  /** `r` differs from `w` only in the object `id`, which keeps its kind. */
  predicate OnlyObjectChanged(r: World, w: World, id: ObjId)
  {
    && r == w.(objects := r.objects)
    && r.objects.Keys == w.objects.Keys
    && (id in w.objects ==> r.objects[id].kind == w.objects[id].kind)
    && (forall k {:trigger r.objects[k]} :: k in w.objects && k != id ==> r.objects[k] == w.objects[k])
  }

  /** `r` differs from `w` only in the empire `id`. */
  predicate OnlyEmpireChanged(r: World, w: World, id: int)
  {
    && r == w.(empires := r.empires)
    && r.empires.Keys == w.empires.Keys
    && (forall k {:trigger r.empires[k]} :: k in w.empires && k != id ==> r.empires[k] == w.empires[k])
  }

  /**
   * SetMeter changes nothing but the target's meter `m`, and only when the
   * target has that meter: it becomes the value evaluated with the meter's
   * current value as input, and no meter is created.
   */
  lemma SetMeterChangesOnlyThatMeter(w: World, m: MeterType, v: ValueRef<real>, ctx: Context)
    ensures var r := ApplySetMeter(w, m, v, ctx);
            && OnlyObjectChanged(r, w, ctx.target)
            && (!HasMeter(w, ctx.target, m) ==> r == w)
            && (HasMeter(w, ctx.target, m) ==>
                  var o := w.objects[ctx.target];
                  var n := r.objects[ctx.target];
                  && n == o.(meters := n.meters)
                  && n.meters.Keys == o.meters.Keys
                  && n.meters[m] == v.eval(w, ctx.(inValue := Some(RealValue(o.meters[m]))))
                  && (forall m2 {:trigger n.meters[m2]} :: m2 in o.meters && m2 != m ==> n.meters[m2] == o.meters[m2]))
  {
  }

  /**
   * SetShipPartMeter changes nothing without a part name, a value or a ship
   * target; otherwise only the ship's meter of the named part changes, to
   * the value evaluated with its current value as input, and no part meter
   * is created.
   */
  lemma SetShipPartMeterChangesOnlyThatMeter(w: World, m: MeterType, name: Option<ValueRef<string>>,
                                             value: Option<ValueRef<real>>, ctx: Context)
    ensures var r := ApplySetShipPartMeter(w, m, name, value, ctx);
            && OnlyObjectChanged(r, w, ctx.target)
            && (name.None? || value.None? || !IsKind(w, ctx.target, ShipObj) ==> r == w)
            && (name.Some? && value.Some? && IsKind(w, ctx.target, ShipObj) ==>
                  var key := (m, name.value.eval(w, ctx));
                  var o := w.objects[ctx.target];
                  var n := r.objects[ctx.target];
                  && n == o.(partMeters := n.partMeters)
                  && n.partMeters.Keys == o.partMeters.Keys
                  && (key in o.partMeters ==>
                        n.partMeters[key] == value.value.eval(w, ctx.(inValue := Some(RealValue(o.partMeters[key])))))
                  && (forall k {:trigger n.partMeters[k]} :: k in o.partMeters && k != key ==> n.partMeters[k] == o.partMeters[k]))
  {
  }

  /**
   * SetEmpireMeter changes only the evaluated empire's named meter, and only
   * when the empire exists and has that meter; no meter is created and no
   * object changes.
   */
  lemma SetEmpireMeterChangesOnlyThatMeter(w: World, empire: ValueRef<int>, meter: string, value: ValueRef<real>, ctx: Context)
    ensures var r := ApplySetEmpireMeter(w, empire, meter, value, ctx);
            var id := empire.eval(w, ctx);
            && OnlyEmpireChanged(r, w, id)
            && (id !in w.empires || meter !in w.empires[id].meters ==> r == w)
            && (id in w.empires ==>
                  var e := w.empires[id];
                  var n := r.empires[id];
                  && n == e.(meters := n.meters)
                  && n.meters.Keys == e.meters.Keys
                  && (meter in e.meters ==> n.meters[meter] == value.eval(w, ctx.(inValue := Some(RealValue(e.meters[meter])))))
                  && (forall k {:trigger n.meters[k]} :: k in e.meters && k != meter ==> n.meters[k] == e.meters[k]))
  {
  }

  /**
   * SetEmpireStockpile sets the evaluated empire's stockpile of one
   * resource, with the current amount as input (zero when none is
   * recorded); other resources and other empires are unchanged.
   */
  lemma SetEmpireStockpileSetsThatResource(w: World, empire: ValueRef<int>, res: ResourceType, value: ValueRef<real>, ctx: Context)
    ensures var r := ApplySetEmpireStockpile(w, empire, res, value, ctx);
            var id := empire.eval(w, ctx);
            && OnlyEmpireChanged(r, w, id)
            && (id !in w.empires ==> r == w)
            && (id in w.empires ==>
                  var e := w.empires[id];
                  var n := r.empires[id];
                  && n == e.(stockpiles := n.stockpiles)
                  && n.stockpiles.Keys == e.stockpiles.Keys + {res}
                  && (res in e.stockpiles ==> n.stockpiles[res] == value.eval(w, ctx.(inValue := Some(RealValue(e.stockpiles[res])))))
                  && (res !in e.stockpiles ==> n.stockpiles[res] == value.eval(w, ctx.(inValue := Some(RealValue(0.0)))))
                  && (forall k {:trigger n.stockpiles[k]} :: k in e.stockpiles && k != res ==> n.stockpiles[k] == e.stockpiles[k]))
  {
  }

  /** SetEmpireCapital makes a planet target the capital of an existing empire, and otherwise changes nothing. */
  lemma SetEmpireCapitalNeedsPlanet(w: World, empire: ValueRef<int>, ctx: Context)
    ensures var r := ApplySetEmpireCapital(w, empire, ctx);
            var id := empire.eval(w, ctx);
            && OnlyEmpireChanged(r, w, id)
            && (id !in w.empires || !IsKind(w, ctx.target, PlanetObj) ==> r == w)
            && (id in w.empires && IsKind(w, ctx.target, PlanetObj) ==>
                  r.empires[id] == w.empires[id].(capitalId := ctx.target))
  {
  }

  /** SetStarType acts only on a system target, whose star type becomes the value evaluated with the current one as input. */
  lemma SetStarTypeOnlySystem(w: World, v: ValueRef<StarType>, ctx: Context)
    ensures var r := ApplySetStarType(w, v, ctx);
            && OnlyObjectChanged(r, w, ctx.target)
            && (!IsKind(w, ctx.target, SystemObj) ==> r == w)
            && (IsKind(w, ctx.target, SystemObj) ==>
                  var s := w.objects[ctx.target];
                  var n := r.objects[ctx.target];
                  n == s.(starType := n.starType)
                  && n.starType == v.eval(w, ctx.(inValue := Some(StarTypeValue(s.starType)))))
  {
  }

  /** SetAggression acts only on a fleet target, and changes only its aggression. */
  lemma SetAggressionOnlyFleet(w: World, b: bool, ctx: Context)
    ensures var r := ApplySetAggression(w, b, ctx);
            && OnlyObjectChanged(r, w, ctx.target)
            && (!IsKind(w, ctx.target, FleetObj) ==> r == w)
            && (IsKind(w, ctx.target, FleetObj) ==>
                  var n := r.objects[ctx.target];
                  n == w.objects[ctx.target].(aggressive := n.aggressive) && n.aggressive == b)
  {
  }

  /** Victory adds one win, for the reason given, to the empire owning the target; no object changes. */
  lemma VictoryRecordsOneWin(w: World, reason: string, ctx: Context)
    ensures var r := ApplyVictory(w, reason, ctx);
            && (ctx.target !in w.objects || w.objects[ctx.target].owner !in w.empires ==> r == w)
            && (ctx.target in w.objects && w.objects[ctx.target].owner in w.empires ==>
                  var owner := w.objects[ctx.target].owner;
                  var n := r.empires[owner];
                  && OnlyEmpireChanged(r, w, owner)
                  && n == w.empires[owner].(victories := n.victories)
                  && n.victories == w.empires[owner].victories + [reason])
  {
  }

  /**
   * SetOverlayTexture acts only on a system target, which takes the texture
   * and the evaluated size (1 without a size); nothing else changes.
   */
  lemma SetOverlayTextureOnlySystem(w: World, tex: string, size: Option<ValueRef<real>>, ctx: Context)
    ensures var r := ApplySetOverlayTexture(w, tex, size, ctx);
            && OnlyObjectChanged(r, w, ctx.target)
            && (!IsKind(w, ctx.target, SystemObj) ==> r == w)
            && (IsKind(w, ctx.target, SystemObj) ==>
                  var n := r.objects[ctx.target];
                  && n == w.objects[ctx.target].(overlayTexture := n.overlayTexture, overlaySize := n.overlaySize)
                  && n.overlayTexture == tex
                  && n.overlaySize == (if size.Some? then size.value.eval(w, ctx) else 1.0))
  {
  }

  /** SetTexture acts only on a planet target, and changes only its surface texture. */
  lemma SetTextureOnlyPlanet(w: World, tex: string, ctx: Context)
    ensures var r := ApplySetTexture(w, tex, ctx);
            && OnlyObjectChanged(r, w, ctx.target)
            && (!IsKind(w, ctx.target, PlanetObj) ==> r == w)
            && (IsKind(w, ctx.target, PlanetObj) ==>
                  var n := r.objects[ctx.target];
                  n == w.objects[ctx.target].(surfaceTexture := n.surfaceTexture) && n.surfaceTexture == tex)
  {
  }
}
