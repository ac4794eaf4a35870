// The file-local helpers of the effects code: splitting a ship off into a
// new fleet (CreateNewFleet, in its two forms), re-planning a fleet's route
// after it moved (UpdateFleetRoute) and naming a new system
// (GenerateSystemName).

module Helpers {
  import opened Universe

  /** What CreateNewFleet returns: the new world and the new fleet, INVALID_OBJECT_ID for none. */
  datatype Spawned = Spawned(world: World, fleet: ObjId)

  /** The fleet a new split-off fleet starts as: only `ship`, very stealthy, aggressive when the ship is armed or carries fighters. */
  function SplitFleet(env: Env, id: ObjId, s: Obj, x: real, y: real, ship: ObjId): Obj
  {
    BlankObject(FleetObj, env.fleetName(id), s.owner, x, y)
      .(meters := map[Stealth := LARGE_VALUE], ships := {ship}, aggressive := s.armed)
  }

  /**
   * CreateNewFleet(x, y, ship) as written: a new fleet at (x, y) owned by
   * the ship's owner takes the ship.  The ship's previous fleet is left
   * untouched and still lists the ship.
   */
  function CreateNewFleetAtAsWritten(w: World, env: Env, x: real, y: real, ship: ObjId): (r: Spawned)
    ensures r.world.objects.Keys == w.objects.Keys + (if IsKind(w, ship, ShipObj) then {w.nextObjectId} else {})
  {
    if !IsKind(w, ship, ShipObj) then Spawned(w, INVALID_OBJECT_ID)
    else
      var s := w.objects[ship];
      var id := w.nextObjectId;
      var w1 := AddObject(w, SplitFleet(env, id, s, x, y, ship));
      Spawned(SetObj(w1, ship, s.(fleetId := id)), id)
  }

  /**
   * CreateNewFleet(x, y, ship) as evidently intended: the ship leaves the
   * fleet it was in before the new fleet takes it, as the system variant
   * below does.
   */
  function CreateNewFleetAt(w: World, env: Env, x: real, y: real, ship: ObjId): Spawned
  {
    if !IsKind(w, ship, ShipObj) then Spawned(w, INVALID_OBJECT_ID)
    else
      var prior := w.objects[ship].fleetId;
      var w0 := if IsKind(w, prior, FleetObj) then RemoveShipFromFleet(w, prior, ship) else w;
      CreateNewFleetAtAsWritten(w0, env, x, y, ship)
  }

  /**
   * SetOwner's choice of CreateNewFleet, as written: in the ship's system
   * when it is in one, else at its position with the (x, y) overload, which
   * leaves the ship listed by its prior fleet.
   */
  function CreateNewFleetFor(w: World, env: Env, ship: ObjId): Spawned
    requires IsKind(w, ship, ShipObj)
  {
    var s := w.objects[ship];
    if IsKind(w, s.systemId, SystemObj) then CreateNewFleetInSystem(w, env, s.systemId, ship)
    else CreateNewFleetAtAsWritten(w, env, s.x, s.y, ship)
  }

  /** The same choice with the (x, y) overload as evidently intended. */
  function CreateNewFleetForIntended(w: World, env: Env, ship: ObjId): Spawned
    requires IsKind(w, ship, ShipObj)
  {
    var s := w.objects[ship];
    if IsKind(w, s.systemId, SystemObj) then CreateNewFleetInSystem(w, env, s.systemId, ship)
    else CreateNewFleetAt(w, env, s.x, s.y, ship)
  }

  /** Ship::SetSystem(INVALID_OBJECT_ID). */
  function LeaveSystem(w: World, id: ObjId): (r: World)
    requires id in w.objects
    ensures r.nextObjectId == w.nextObjectId && r.destroyRequests == w.destroyRequests && r.objects.Keys == w.objects.Keys
    ensures r.objects[id] == w.objects[id].(systemId := INVALID_OBJECT_ID)
    ensures forall k {:trigger r.objects[k]} :: k in w.objects && k != id ==> r.objects[k] == w.objects[k]
  {
    SetObj(w, id, w.objects[id].(systemId := INVALID_OBJECT_ID))
  }

  /** A ship leaves the system it is in, when that is a system. */
  function LeaveOldSystem(w: World, ship: ObjId): (r: World)
    requires IsKind(w, ship, ShipObj)
    ensures r.nextObjectId == w.nextObjectId && r.destroyRequests == w.destroyRequests && r.objects.Keys == w.objects.Keys
    ensures forall k {:trigger r.objects[k]} :: k in w.objects ==> r.objects[k].kind == w.objects[k].kind
    ensures r.objects[ship].fleetId == w.objects[ship].fleetId && r.objects[ship].owner == w.objects[ship].owner
    ensures forall k {:trigger r.objects[k]} :: k in w.objects && k != ship && k != w.objects[ship].systemId ==> r.objects[k] == w.objects[k]
    ensures var sys := w.objects[ship].systemId;
            IsKind(w, sys, SystemObj) ==> r.objects[ship].systemId == INVALID_OBJECT_ID && ship !in r.objects[sys].contents
    ensures !IsKind(w, w.objects[ship].systemId, SystemObj) ==> r == w
  {
    var s := w.objects[ship];
    if IsKind(w, s.systemId, SystemObj) then LeaveSystem(RemoveFromSystem(w, s.systemId, ship), ship) else w
  }

  /** The first step of CreateNewFleet(system, ship): a ship elsewhere leaves its old system and enters this one. */
  function MoveShipToSystem(w: World, sys: ObjId, ship: ObjId): (r: World)
    requires IsKind(w, sys, SystemObj) && IsKind(w, ship, ShipObj)
    ensures r.nextObjectId == w.nextObjectId && r.destroyRequests == w.destroyRequests && r.objects.Keys == w.objects.Keys
    ensures forall k {:trigger r.objects[k]} :: k in w.objects ==> r.objects[k].kind == w.objects[k].kind
    ensures r.objects[ship].fleetId == w.objects[ship].fleetId && r.objects[ship].systemId == sys
    ensures r.objects[ship].owner == w.objects[ship].owner
    ensures w.objects[ship].systemId != sys || ship in w.objects[sys].contents ==> ship in r.objects[sys].contents
    ensures forall k {:trigger r.objects[k]} :: k in w.objects && IsKind(w, k, FleetObj) ==> r.objects[k] == w.objects[k]
  {
    if w.objects[ship].systemId == sys then w
    else InsertInSystem(LeaveOldSystem(w, ship), sys, ship)
  }

  /** The second step: the ship leaves the fleet it was in, if that is a fleet. */
  function DetachFromFleet(w: World, ship: ObjId): (r: World)
    requires ship in w.objects
    ensures r.nextObjectId == w.nextObjectId && r.destroyRequests == w.destroyRequests && r.objects.Keys == w.objects.Keys
    ensures forall k {:trigger r.objects[k]} :: k in w.objects ==> r.objects[k].kind == w.objects[k].kind
    ensures var prior := w.objects[ship].fleetId;
            IsKind(w, prior, FleetObj) ==> r.objects[prior] == w.objects[prior].(ships := w.objects[prior].ships - {ship})
    ensures forall k {:trigger r.objects[k]} :: k in w.objects && !IsKind(w, k, FleetObj) ==> r.objects[k] == w.objects[k]
  {
    var prior := w.objects[ship].fleetId;
    if IsKind(w, prior, FleetObj) then RemoveShipFromFleet(w, prior, ship) else w
  }

  /**
   * CreateNewFleet(system, ship): move the ship into the system if it is
   * elsewhere, take it out of its old fleet, create a fleet for it at the
   * system's position and insert that fleet into the system.
   */
  function CreateNewFleetInSystem(w: World, env: Env, sys: ObjId, ship: ObjId): Spawned
  {
    if !IsKind(w, sys, SystemObj) || !IsKind(w, ship, ShipObj) then Spawned(w, INVALID_OBJECT_ID)
    else
      SpawnInSystem(DetachFromFleet(MoveShipToSystem(w, sys, ship), ship), env, sys, ship)
  }

  /** The last two steps: a fleet for the ship at the system's position, inserted into the system. */
  function SpawnInSystem(w: World, env: Env, sys: ObjId, ship: ObjId): Spawned
    requires IsKind(w, sys, SystemObj) && IsKind(w, ship, ShipObj)
  {
    var sp := CreateNewFleetAtAsWritten(w, env, w.objects[sys].x, w.objects[sys].y, ship);
    // the system is still a system unless the universe handed out a stale id
    if IsKind(sp.world, sys, SystemObj) && sp.fleet in sp.world.objects
    then Spawned(InsertInSystem(sp.world, sys, sp.fleet), sp.fleet)
    else sp
  }

  /**
   * UpdateFleetRoute: with a fleet and an existing next system, set the next
   * and previous systems and re-plan the route from where the fleet is (or
   * from the next system when it is between systems) to its final
   * destination; an empty path becomes a route to the next system alone.
   */
  function UpdateFleetRoute(w: World, env: Env, fleet: ObjId, next: ObjId, prev: ObjId): World
  {
    if !IsKind(w, fleet, FleetObj) || !IsKind(w, next, SystemObj) then w
    else
      var f := w.objects[fleet];
      var start := if f.systemId == INVALID_OBJECT_ID then next else f.systemId;
      var path := env.shortestPath(start, f.finalDestination, f.owner);
      SetObj(w, fleet, f.(nextSystem := next, prevSystem := prev, route := if path == [] then [next] else path))
  }

  // ----- GenerateSystemName -----

  /** Does an existing system already carry this name? */
  predicate NameTaken(w: World, name: string)
  {
    exists id :: id in w.objects && w.objects[id].kind == SystemObj && w.objects[id].name == name
  }

  /** The position of the first star name no system carries yet; |names| when all are taken. */
  function FirstUnusedIndex(w: World, names: seq<string>): (i: nat)
    ensures i <= |names|
    ensures forall j :: 0 <= j < i ==> NameTaken(w, names[j])
    ensures i < |names| ==> !NameTaken(w, names[i])
    decreases |names|
  {
    if names == [] then 0
    else if !NameTaken(w, names[0]) then 0
    else 1 + FirstUnusedIndex(w, names[1..])
  }

  /** The name GenerateSystemName picks: the first unused star name, or "" when every one is taken. */
  function SystemName(w: World): string
  {
    var i := FirstUnusedIndex(w, w.starNames);
    if i < |w.starNames| then w.starNames[i] else ""
  }

  // ----- properties -----

  /** The world CreateNewFleet(x, y, ship) builds as written: the new fleet added and the ship pointed at it. */
  lemma CreateNewFleetAtAsWrittenMakesFleet(w: World, env: Env, x: real, y: real, ship: ObjId)
    requires FreshIds(w) && IsKind(w, ship, ShipObj)
    ensures var r := CreateNewFleetAtAsWritten(w, env, x, y, ship);
            var id := w.nextObjectId;
            var s := w.objects[ship];
            && r.fleet == id && id !in w.objects && id != ship
            && r.world.objects == w.objects[id := SplitFleet(env, id, s, x, y, ship)][ship := s.(fleetId := id)]
            && r.world.nextObjectId == id + 1 && FreshIds(r.world) && r.world.destroyRequests == w.destroyRequests
  {
  }

  /** The split-off fleet holds exactly the ship, and the ship's prior fleet no longer lists it. */
  lemma CreateNewFleetAtSplitsShip(w: World, env: Env, x: real, y: real, ship: ObjId)
    requires FreshIds(w) && IsKind(w, ship, ShipObj)
    ensures var r := CreateNewFleetAt(w, env, x, y, ship);
            var s := w.objects[ship];
            var prior := s.fleetId;
            && r.fleet == w.nextObjectId && r.fleet !in w.objects
            && r.world.objects.Keys == w.objects.Keys + {r.fleet}
            && FreshIds(r.world) && r.world.destroyRequests == w.destroyRequests
            && IsKind(r.world, r.fleet, FleetObj)
            && r.world.objects[r.fleet].ships == {ship}
            && r.world.objects[r.fleet].owner == s.owner
            && r.world.objects[r.fleet].x == x && r.world.objects[r.fleet].y == y
            && r.world.objects[r.fleet].aggressive == s.armed
            && r.world.objects[ship] == s.(fleetId := r.fleet)
            && (IsKind(w, prior, FleetObj) ==> r.world.objects[prior] == w.objects[prior].(ships := w.objects[prior].ships - {ship}))
            && (forall k {:trigger r.world.objects[k]} :: k in w.objects && k != ship && k != prior ==> r.world.objects[k] == w.objects[k])
  {
    var s := w.objects[ship];
    var prior := s.fleetId;
    var w0 := if IsKind(w, prior, FleetObj) then RemoveShipFromFleet(w, prior, ship) else w;
    assert FreshIds(w0) && w0.objects[ship] == s && w0.nextObjectId == w.nextObjectId;
    assert w0.destroyRequests == w.destroyRequests;
    CreateNewFleetAtAsWrittenMakesFleet(w0, env, x, y, ship);
  }

  /** As written, the ship ends up listed by two fleets: its prior one and the new one. */
  lemma CreateNewFleetAtAsWrittenDuplicates(w: World, env: Env, x: real, y: real, ship: ObjId)
    requires FreshIds(w) && IsKind(w, ship, ShipObj)
    requires IsKind(w, w.objects[ship].fleetId, FleetObj) && ship in w.objects[w.objects[ship].fleetId].ships
    ensures var r := CreateNewFleetAtAsWritten(w, env, x, y, ship);
            var prior := w.objects[ship].fleetId;
            && prior != r.fleet
            && ship in r.world.objects[prior].ships
            && ship in r.world.objects[r.fleet].ships
  {
  }

  /** Splitting a ship off inside a system leaves it and its new fleet in that system, and its prior fleet without it. */
  lemma CreateNewFleetInSystemSplitsShip(w: World, env: Env, sys: ObjId, ship: ObjId)
    requires FreshIds(w) && IsKind(w, sys, SystemObj) && IsKind(w, ship, ShipObj)
    ensures var r := CreateNewFleetInSystem(w, env, sys, ship);
            var prior := w.objects[ship].fleetId;
            && r.fleet == w.nextObjectId && r.world.destroyRequests == w.destroyRequests
            && r.world.objects.Keys == w.objects.Keys + {r.fleet}
            && IsKind(r.world, r.fleet, FleetObj)
            && r.world.objects[r.fleet].ships == {ship}
            && r.world.objects[r.fleet].owner == w.objects[ship].owner
            && r.world.objects[r.fleet].systemId == sys
            && r.world.objects[ship].fleetId == r.fleet
            && r.world.objects[ship].systemId == sys
            && r.world.objects[ship].owner == w.objects[ship].owner
            && r.fleet in r.world.objects[sys].contents
            && (w.objects[ship].systemId != sys || ship in w.objects[sys].contents ==> ship in r.world.objects[sys].contents)
            && (IsKind(w, prior, FleetObj) ==> r.world.objects[prior] == w.objects[prior].(ships := w.objects[prior].ships - {ship}))
  {
    var w1 := MoveShipToSystem(w, sys, ship);
    var w2 := DetachFromFleet(w1, ship);
    assert FreshIds(w2) && IsKind(w2, sys, SystemObj) && IsKind(w2, ship, ShipObj);
    assert w2.objects[ship] == w1.objects[ship];
    assert w2.objects[sys] == w1.objects[sys];
    assert w2.nextObjectId == w.nextObjectId;
    SpawnInSystemSplitsShip(w2, env, sys, ship);
    var r := SpawnInSystem(w2, env, sys, ship);
    assert CreateNewFleetInSystem(w, env, sys, ship) == r;
    var prior := w.objects[ship].fleetId;
    if IsKind(w, prior, FleetObj) {
      assert IsKind(w1, prior, FleetObj) && w1.objects[ship].fleetId == prior && w1.objects[prior] == w.objects[prior];
      assert prior != ship && prior != sys;
      assert r.world.objects[prior] == w2.objects[prior];
    }
  }

  /**
   * As written, SetOwner's split gives the ship a fresh fleet of its own
   * either way; the prior fleet drops the ship inside a system, and keeps
   * listing it outside one.
   */
  lemma CreateNewFleetForSplitsShip(w: World, env: Env, ship: ObjId)
    requires FreshIds(w) && IsKind(w, ship, ShipObj)
    ensures var r := CreateNewFleetFor(w, env, ship);
            var prior := w.objects[ship].fleetId;
            && r.fleet == w.nextObjectId && r.fleet !in w.objects && r.world.destroyRequests == w.destroyRequests
            && r.world.objects.Keys == w.objects.Keys + {r.fleet}
            && IsKind(r.world, r.fleet, FleetObj)
            && r.world.objects[r.fleet].ships == {ship}
            && r.world.objects[r.fleet].owner == w.objects[ship].owner
            && r.world.objects[ship].fleetId == r.fleet
            && r.world.objects[ship].owner == w.objects[ship].owner
            && (IsKind(w, prior, FleetObj) && IsKind(w, w.objects[ship].systemId, SystemObj) ==>
                  r.world.objects[prior] == w.objects[prior].(ships := w.objects[prior].ships - {ship}))
            && (IsKind(w, prior, FleetObj) && !IsKind(w, w.objects[ship].systemId, SystemObj) ==>
                  r.world.objects[prior] == w.objects[prior])
  {
    var s := w.objects[ship];
    if IsKind(w, s.systemId, SystemObj) {
      CreateNewFleetInSystemSplitsShip(w, env, s.systemId, ship);
    } else {
      CreateNewFleetAtAsWrittenMakesFleet(w, env, s.x, s.y, ship);
    }
  }

  /** With the intended (x, y) overload, the ship leaves its prior fleet either way. */
  lemma CreateNewFleetForIntendedSplitsShip(w: World, env: Env, ship: ObjId)
    requires FreshIds(w) && IsKind(w, ship, ShipObj)
    ensures var r := CreateNewFleetForIntended(w, env, ship);
            var prior := w.objects[ship].fleetId;
            && r.fleet == w.nextObjectId && r.fleet !in w.objects && r.world.destroyRequests == w.destroyRequests
            && r.world.objects.Keys == w.objects.Keys + {r.fleet}
            && IsKind(r.world, r.fleet, FleetObj)
            && r.world.objects[r.fleet].ships == {ship}
            && r.world.objects[r.fleet].owner == w.objects[ship].owner
            && r.world.objects[ship].fleetId == r.fleet
            && r.world.objects[ship].owner == w.objects[ship].owner
            && (IsKind(w, prior, FleetObj) ==> r.world.objects[prior] == w.objects[prior].(ships := w.objects[prior].ships - {ship}))
  {
    var s := w.objects[ship];
    if IsKind(w, s.systemId, SystemObj) {
      CreateNewFleetInSystemSplitsShip(w, env, s.systemId, ship);
    } else {
      CreateNewFleetAtSplitsShip(w, env, s.x, s.y, ship);
    }
  }

  /** The last two steps of CreateNewFleet(system, ship), from the world where the ship is detached. */
  lemma SpawnInSystemSplitsShip(w: World, env: Env, sys: ObjId, ship: ObjId)
    requires FreshIds(w) && IsKind(w, sys, SystemObj) && IsKind(w, ship, ShipObj)
    ensures var r := SpawnInSystem(w, env, sys, ship);
            var id := w.nextObjectId;
            && r.fleet == id && r.world.destroyRequests == w.destroyRequests
            && r.world.objects.Keys == w.objects.Keys + {id}
            && IsKind(r.world, id, FleetObj)
            && r.world.objects[id].ships == {ship} && r.world.objects[id].systemId == sys
            && r.world.objects[id].owner == w.objects[ship].owner
            && r.world.objects[ship] == w.objects[ship].(fleetId := id)
            && id in r.world.objects[sys].contents
            && (ship in w.objects[sys].contents ==> ship in r.world.objects[sys].contents)
            && forall k {:trigger r.world.objects[k]} :: k in w.objects && k != ship && k != sys ==> r.world.objects[k] == w.objects[k]
  {
    var id := w.nextObjectId;
    var s := w.objects[ship];
    var sp := CreateNewFleetAtAsWritten(w, env, w.objects[sys].x, w.objects[sys].y, ship);
    var fleet := SplitFleet(env, id, s, w.objects[sys].x, w.objects[sys].y, ship);
    assert sp.world.objects == w.objects[id := fleet][ship := s.(fleetId := id)];
  }

  /** With a fleet and a next system, the fleet gets a non-empty route: the path, or the next system alone. */
  lemma UpdateFleetRouteFallback(w: World, env: Env, fleet: ObjId, next: ObjId, prev: ObjId)
    ensures var r := UpdateFleetRoute(w, env, fleet, next, prev);
            && (!IsKind(w, fleet, FleetObj) || !IsKind(w, next, SystemObj) ==> r == w)
            && (IsKind(w, fleet, FleetObj) && IsKind(w, next, SystemObj) ==>
                  var f := w.objects[fleet];
                  var start := if f.systemId == INVALID_OBJECT_ID then next else f.systemId;
                  var path := env.shortestPath(start, f.finalDestination, f.owner);
                  && r.objects.Keys == w.objects.Keys
                  && r.objects[fleet].nextSystem == next && r.objects[fleet].prevSystem == prev
                  && |r.objects[fleet].route| > 0
                  && (path == [] ==> r.objects[fleet].route == [next])
                  && (path != [] ==> r.objects[fleet].route == path)
                  && (forall k {:trigger r.objects[k]} :: k in w.objects && k != fleet ==> r.objects[k] == w.objects[k]))
  {
  }

  /** The generated name is unused (or empty), and every star name before it is taken. */
  lemma SystemNameIsFirstUnused(w: World)
    ensures var n := SystemName(w);
            && (n == "" || !NameTaken(w, n))
            && (forall j :: 0 <= j < |w.starNames| && !NameTaken(w, w.starNames[j]) ==> n == w.starNames[FirstUnusedIndex(w, w.starNames)])
            && ((forall j :: 0 <= j < |w.starNames| ==> NameTaken(w, w.starNames[j])) ==> n == "")
  {
  }

  // ----- the loops of GenerateSystemName -----

  /** The inner loop: is some system named `name`? Stops at the first one. */
  method IsDupe(w: World, name: string) returns (dupe: bool)
    ensures dupe == NameTaken(w, name)
  {
    var ids := SortedIds(w.objects.Keys);
    var k := 0;
    while k < |ids|
      invariant 0 <= k <= |ids|
      invariant forall j :: 0 <= j < k ==> !(w.objects[ids[j]].kind == SystemObj && w.objects[ids[j]].name == name)
    {
      var o := w.objects[ids[k]];
      if o.kind == SystemObj && o.name == name {
        return true;
      }
      k := k + 1;
    }
    forall id | id in w.objects ensures !(w.objects[id].kind == SystemObj && w.objects[id].name == name) {
      var j :| 0 <= j < |ids| && ids[j] == id;
    }
    return false;
  }

  /** GenerateSystemName: the outer loop over the star names, returning the first without a dupe. */
  method GenerateSystemName(w: World) returns (name: string)
    ensures name == SystemName(w)
  {
    var i := 0;
    while i < |w.starNames|
      invariant 0 <= i <= |w.starNames|
      invariant forall j :: 0 <= j < i ==> NameTaken(w, w.starNames[j])
    {
      var dupe := IsDupe(w, w.starNames[i]);
      if !dupe {
        FirstUnusedIsFirst(w, w.starNames, i);
        return w.starNames[i];
      }
      i := i + 1;
    }
    FirstUnusedIsFirst(w, w.starNames, i);
    return "";
  }

  /** The first unused index is the first index at which a name is not taken. */
  lemma {:induction false} FirstUnusedIsFirst(w: World, names: seq<string>, i: nat)
    requires i <= |names|
    requires forall j :: 0 <= j < i ==> NameTaken(w, names[j])
    requires i < |names| ==> !NameTaken(w, names[i])
    ensures FirstUnusedIndex(w, names) == i
    decreases i
  {
    if i > 0 {
      FirstUnusedIsFirst(w, names[1..], i - 1);
    }
  }
}
