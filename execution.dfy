// The single-target Execute(context) of every effect kind: what one effect
// does to the universe for one source and one target.  `ctx.target` is the
// effect target (an id that is not an object stands for no target) and
// `ctx.source` the source object.

module Execution {
  import opened Universe
  import opened Effects
  import opened Recipients
  import opened Helpers

  /** The sitrep parameter tag whose value names a predefined ship design. */
  const PREDEFINED_DESIGN_TAG: string := "predefinedshipdesign"

  /** The default and the bounds of a created field's size. */
  const DEFAULT_FIELD_SIZE: real := 10.0
  const MIN_FIELD_SIZE: real := 1.0
  const MAX_FIELD_SIZE: real := 10000.0

  /** The overlay size SetOverlayTexture uses when none is given. */
  const DEFAULT_OVERLAY_SIZE: real := 1.0

  // ----- the small rules, as functions of plain values -----

  /** SetPlanetType: the size that goes with a newly set type, given the old size. */
  function SizeAfterTypeChange(t: PlanetType, size: PlanetSize): PlanetSize
  {
    if t == PlanetType.Asteroids then PlanetSize.Asteroids
    else if t == PlanetType.GasGiant then PlanetSize.GasGiant
    else if size == PlanetSize.Asteroids then Tiny
    else if size == PlanetSize.GasGiant then Huge
    else size
  }

  /** SetPlanetSize: the type that goes with a newly set size, given the old type. */
  function TypeAfterSizeChange(size: PlanetSize, t: PlanetType): PlanetType
  {
    if size == PlanetSize.Asteroids then PlanetType.Asteroids
    else if size == PlanetSize.GasGiant then PlanetType.GasGiant
    else if t == PlanetType.Asteroids || t == PlanetType.GasGiant then Barren
    else t
  }

  /** A planet is an asteroid field exactly when it has asteroid size, and a gas giant exactly when it has gas giant size. */
  predicate Coupled(t: PlanetType, size: PlanetSize)
  {
    && (t == PlanetType.Asteroids <==> size == PlanetSize.Asteroids)
    && (t == PlanetType.GasGiant <==> size == PlanetSize.GasGiant)
  }

  /**
   * SetSpecies' focus repair: keep the current focus when it is still
   * available, else take the species' preferred focus when available, else
   * the first available focus, else none.
   */
  function RepairedFocus(current: string, foci: seq<string>, preferred: string): string
  {
    if current in foci then current
    else if preferred in foci then preferred
    else if |foci| > 0 then foci[0]
    else ""
  }

  /** CreateField's size: the given one (10 when none) clamped to [1, 10000]. */
  function ClampFieldSize(size: real): (r: real)
    ensures MIN_FIELD_SIZE <= r <= MAX_FIELD_SIZE
    ensures MIN_FIELD_SIZE <= size <= MAX_FIELD_SIZE ==> r == size
    ensures size < MIN_FIELD_SIZE ==> r == MIN_FIELD_SIZE
    ensures size > MAX_FIELD_SIZE ==> r == MAX_FIELD_SIZE
  {
    if size < MIN_FIELD_SIZE then MIN_FIELD_SIZE
    else if size > MAX_FIELD_SIZE then MAX_FIELD_SIZE
    else size
  }

  /**
   * The name a created field or system gets from a name value reference: a
   * constant name that is a string-table key is looked up, any other name is
   * used as it is.
   */
  function ScriptedName(env: Env, v: ValueRef<string>, w: World, ctx: Context): string
  {
    var n := v.eval(w, ctx);
    if v.constantExpr && env.userStringExists(n) then env.userString(n) else n
  }

  /** The system an object stands for in AddStarlanes / RemoveStarlanes: itself if a system, else the system it is in. */
  function SystemOf(w: World, id: ObjId): (r: ObjId)
    ensures r != INVALID_OBJECT_ID ==> IsKind(w, r, SystemObj)
    ensures IsKind(w, id, SystemObj) ==> r == id
    ensures !IsKind(w, id, SystemObj) && id in w.objects && IsKind(w, w.objects[id].systemId, SystemObj) ==> r == w.objects[id].systemId
  {
    if IsKind(w, id, SystemObj) then id
    else if id in w.objects && IsKind(w, w.objects[id].systemId, SystemObj) then w.objects[id].systemId
    else INVALID_OBJECT_ID
  }

  /** The systems containing at least one of `objs` (or being one). */
  function EndpointSystems(w: World, objs: set<ObjId>): (r: set<ObjId>)
    ensures forall s :: s in r ==> IsKind(w, s, SystemObj)
  {
    set o | o in objs && SystemOf(w, o) != INVALID_OBJECT_ID :: SystemOf(w, o)
  }

  /** A system is an endpoint exactly when some of `objs` is it or lies in it. */
  lemma EndpointSystemsMembers(w: World, objs: set<ObjId>)
    ensures forall s :: s in EndpointSystems(w, objs) <==> exists o :: o in objs && SystemOf(w, o) == s && s != INVALID_OBJECT_ID
  {
  }

  // ----- meters -----

  /** SetMeter: the target's meter, if it has one, becomes the value evaluated with the current value as input. */
  function ApplySetMeter(w: World, m: MeterType, v: ValueRef<real>, ctx: Context): World
  {
    if !HasMeter(w, ctx.target, m) then w
    else
      var cur := Meter(w, ctx.target, m);
      SetMeterValue(w, ctx.target, m, v.eval(w, ctx.(inValue := Some(RealValue(cur)))))
  }

  /** Ship::GetPartMeter + Meter::SetCurrent. */
  function SetPartMeterValue(w: World, ship: ObjId, key: (MeterType, string), v: real): (r: World)
    requires ship in w.objects
  {
    var o := w.objects[ship];
    SetObj(w, ship, o.(partMeters := o.partMeters[key := v]))
  }

  /** SetShipPartMeter: a ship's meter of the named part, if it has one, becomes the evaluated value. */
  function ApplySetShipPartMeter(w: World, m: MeterType, name: Option<ValueRef<string>>, value: Option<ValueRef<real>>,
                                 ctx: Context): World
  {
    if ctx.target !in w.objects || name.None? || value.None? || !IsKind(w, ctx.target, ShipObj) then w
    else
      var key := (m, name.value.eval(w, ctx));
      if key !in w.objects[ctx.target].partMeters then w
      else
        var cur := w.objects[ctx.target].partMeters[key];
        SetPartMeterValue(w, ctx.target, key, value.value.eval(w, ctx.(inValue := Some(RealValue(cur)))))
  }

  /** SetEmpireMeter: the named meter of the evaluated empire, if both exist. */
  function ApplySetEmpireMeter(w: World, empire: ValueRef<int>, meter: string, value: ValueRef<real>, ctx: Context): World
  {
    var id := empire.eval(w, ctx);
    if id !in w.empires || meter !in w.empires[id].meters then w
    else
      var e := w.empires[id];
      var v := value.eval(w, ctx.(inValue := Some(RealValue(e.meters[meter]))));
      w.(empires := w.empires[id := e.(meters := e.meters[meter := v])])
  }

  /** The amount an empire has stockpiled of a resource; nothing recorded reads as zero. */
  function Stockpile(e: Empire, res: ResourceType): real
  {
    if res in e.stockpiles then e.stockpiles[res] else 0.0
  }

  /** SetEmpireStockpile: the evaluated empire's stockpile, with the current amount as input. */
  function ApplySetEmpireStockpile(w: World, empire: ValueRef<int>, res: ResourceType, value: ValueRef<real>, ctx: Context): World
  {
    var id := empire.eval(w, ctx);
    if id !in w.empires then w
    else
      var e := w.empires[id];
      var v := value.eval(w, ctx.(inValue := Some(RealValue(Stockpile(e, res)))));
      w.(empires := w.empires[id := e.(stockpiles := e.stockpiles[res := v])])
  }

  /** SetEmpireCapital: a planet target becomes the evaluated empire's capital. */
  function ApplySetEmpireCapital(w: World, empire: ValueRef<int>, ctx: Context): World
  {
    var id := empire.eval(w, ctx);
    if id !in w.empires || !IsKind(w, ctx.target, PlanetObj) then w
    else w.(empires := w.empires[id := w.empires[id].(capitalId := ctx.target)])
  }

  // ----- planets and species -----

  function ApplySetPlanetType(w: World, v: ValueRef<PlanetType>, ctx: Context): World
  {
    if !IsKind(w, ctx.target, PlanetObj) then w
    else
      var p := w.objects[ctx.target];
      var t := v.eval(w, ctx.(inValue := Some(PlanetTypeValue(p.planetType))));
      SetObj(w, ctx.target, p.(planetType := t, planetSize := SizeAfterTypeChange(t, p.planetSize)))
  }

  function ApplySetPlanetSize(w: World, v: ValueRef<PlanetSize>, ctx: Context): World
  {
    if !IsKind(w, ctx.target, PlanetObj) then w
    else
      var p := w.objects[ctx.target];
      var size := v.eval(w, ctx.(inValue := Some(PlanetSizeValue(p.planetSize))));
      SetObj(w, ctx.target, p.(planetSize := size, planetType := TypeAfterSizeChange(size, p.planetType)))
  }

  /** The preferred focus of a species; an unknown species has none. */
  function PreferredFocus(w: World, species: string): string
  {
    if species in w.species then w.species[species].preferredFocus else ""
  }

  /**
   * SetSpecies: a planet takes the species and then repairs its focus
   * against the foci it offers with that species; a ship only takes the species.
   */
  function ApplySetSpecies(w: World, env: Env, v: ValueRef<string>, ctx: Context): World
  {
    if IsKind(w, ctx.target, PlanetObj) then
      var p := w.objects[ctx.target];
      var name := v.eval(w, ctx.(inValue := Some(StringValue(p.species))));
      var w1 := SetObj(w, ctx.target, p.(species := name));
      var foci := env.availableFoci(w1, ctx.target);
      SetObj(w1, ctx.target, p.(species := name, focus := RepairedFocus(p.focus, foci, PreferredFocus(w, name))))
    else if IsKind(w, ctx.target, ShipObj) then
      var s := w.objects[ctx.target];
      SetObj(w, ctx.target, s.(species := v.eval(w, ctx.(inValue := Some(StringValue(s.species))))))
    else w
  }

  // ----- ownership -----

  /**
   * The fleet split of SetOwner on a ship already given its new owner, as
   * written: a ship whose fleet has another owner moves into a new fleet (in
   * its system, or at its position outside any), and the old fleet is
   * handled by AdoptOldFleet.
   */
  function SplitOffShip(w: World, env: Env, ship: ObjId, newOwner: int): World
    requires IsKind(w, ship, ShipObj)
  {
    var fleet := w.objects[ship].fleetId;
    if !IsKind(w, fleet, FleetObj) || w.objects[fleet].owner == newOwner then w
    else AdoptOldFleet(CreateNewFleetFor(w, env, ship), fleet)
  }

  /** The same split with the evidently intended CreateNewFleet(x, y, ship) outside a system. */
  function SplitOffShipIntended(w: World, env: Env, ship: ObjId, newOwner: int): World
    requires IsKind(w, ship, ShipObj)
  {
    var fleet := w.objects[ship].fleetId;
    if !IsKind(w, fleet, FleetObj) || w.objects[fleet].owner == newOwner then w
    else AdoptOldFleet(CreateNewFleetForIntended(w, env, ship), fleet)
  }

  /**
   * After the split: the new fleet takes over the old fleet's next and
   * previous systems, and an old fleet left empty is requested destroyed,
   * by no particular source.
   */
  function AdoptOldFleet(sp: Spawned, fleet: ObjId): World
  {
    var w1 := sp.world;
    if fleet !in w1.objects then w1
    else
      var f := w1.objects[fleet];
      var w2 := if sp.fleet in w1.objects
                then SetObj(w1, sp.fleet, w1.objects[sp.fleet].(nextSystem := f.nextSystem, prevSystem := f.prevSystem))
                else w1;
      if fleet in w2.objects && w2.objects[fleet].ships == {}
      then RequestDestroy(w2, fleet, INVALID_OBJECT_ID)
      else w2
  }

  /** SetOwner: a different evaluated owner is set, and a ship is split off from a fleet of another owner. */
  function ApplySetOwner(w: World, env: Env, v: ValueRef<int>, ctx: Context): World
  {
    if ctx.target !in w.objects then w
    else
      var o := w.objects[ctx.target];
      var id := v.eval(w, ctx.(inValue := Some(IntValue(o.owner))));
      if id == o.owner then w
      else
        var w1 := SetObj(w, ctx.target, o.(owner := id));
        if o.kind == ShipObj then SplitOffShip(w1, env, ctx.target, id) else w1
  }

  // ----- creation -----

  /** CreateField's new field, before it is placed in a system and named. */
  function NewField(fieldType: string, x: real, y: real, size: real): (f: Obj)
    ensures f.kind == FieldObj && f.fieldType == fieldType && f.meters == map[Size := size]
    ensures f.x == x && f.y == y && f.owner == ALL_EMPIRES && f.systemId == INVALID_OBJECT_ID
  {
    BlankObject(FieldObj, "", ALL_EMPIRES, x, y).(fieldType := fieldType, meters := map[Size := size])
  }

  /** Rename a freshly created object, if it exists. */
  function Rename(w: World, id: ObjId, name: string): (r: World)
    ensures r.nextObjectId == w.nextObjectId && r.objects.Keys == w.objects.Keys
    ensures id in w.objects ==> r.objects[id] == w.objects[id].(name := name)
    ensures forall k {:trigger r.objects[k]} :: k in w.objects && k != id ==> r.objects[k] == w.objects[k]
  {
    if id in w.objects then SetObj(w, id, w.objects[id].(name := name)) else w
  }

  /** SystemObj objects carry their own id as their system id. */
  function NewSystem(w: World, st: StarType, name: string, x: real, y: real): Obj
  {
    BlankObject(SystemObj, name, ALL_EMPIRES, x, y).(starType := st, systemId := w.nextObjectId)
  }

  /**
   * CreateField before its after-effects: a new field of the given type with
   * the clamped size, at the given position or the target's, inserted into
   * the target when that is a system at the field's position, and named.
   */
  function PlaceField(w: World, env: Env, typeName: string, fx: Option<ValueRef<real>>, fy: Option<ValueRef<real>>,
                      fs: Option<ValueRef<real>>, fn: Option<ValueRef<string>>, ctx: Context): World
    requires ctx.target in w.objects
  {
    var w2 := AddField(w, typeName, fx, fy, fs, ctx);
    var name := if fn.Some? then ScriptedName(env, fn.value, w2, ctx) else env.userString(typeName);
    Rename(w2, w.nextObjectId, name)
  }

  /** The unnamed field added to the universe and, when it stands at the target system, inserted into it. */
  function AddField(w: World, typeName: string, fx: Option<ValueRef<real>>, fy: Option<ValueRef<real>>,
                    fs: Option<ValueRef<real>>, ctx: Context): (r: World)
    requires ctx.target in w.objects
    ensures r.nextObjectId == w.nextObjectId + 1
    ensures r.objects.Keys == w.objects.Keys + {w.nextObjectId}
    ensures var f := r.objects[w.nextObjectId];
            && f.kind == FieldObj && f.fieldType == typeName
            && f.meters == map[Size := ClampFieldSize(if fs.Some? then fs.value.eval(w, ctx) else DEFAULT_FIELD_SIZE)]
    ensures FreshIds(w) ==> forall k {:trigger r.objects[k]} :: k in w.objects && k != ctx.target ==> r.objects[k] == w.objects[k]
    ensures FreshIds(w) ==>
              var fld := FieldFor(w, typeName, fx, fy, fs, ctx);
              var t := w.objects[ctx.target];
              var at := IsKind(w, ctx.target, SystemObj) && (fx.None? || fld.x == t.x) && (fy.None? || fld.y == t.y);
              && (at ==> w.nextObjectId in r.objects[ctx.target].contents && r.objects[w.nextObjectId].systemId == ctx.target)
              && (!at ==> r.objects[ctx.target] == t && r.objects[w.nextObjectId] == fld)
  {
    var field := FieldFor(w, typeName, fx, fy, fs, ctx);
    var w1 := AddObject(w, field);
    SettleField(w1, ctx.target, w.nextObjectId, fx.None? || field.x == w1.objects[ctx.target].x,
                fy.None? || field.y == w1.objects[ctx.target].y)
  }

  /** The field CreateField makes: the given type, the clamped size, the given position or the target's. */
  function FieldFor(w: World, typeName: string, fx: Option<ValueRef<real>>, fy: Option<ValueRef<real>>,
                    fs: Option<ValueRef<real>>, ctx: Context): (f: Obj)
    requires ctx.target in w.objects
    ensures f.kind == FieldObj && f.fieldType == typeName
    ensures f.meters == map[Size := ClampFieldSize(if fs.Some? then fs.value.eval(w, ctx) else DEFAULT_FIELD_SIZE)]
    ensures f.x == (if fx.Some? then fx.value.eval(w, ctx) else w.objects[ctx.target].x)
    ensures f.y == (if fy.Some? then fy.value.eval(w, ctx) else w.objects[ctx.target].y)
    ensures f.systemId == INVALID_OBJECT_ID
  {
    var t := w.objects[ctx.target];
    NewField(typeName, if fx.Some? then fx.value.eval(w, ctx) else t.x, if fy.Some? then fy.value.eval(w, ctx) else t.y,
             ClampFieldSize(if fs.Some? then fs.value.eval(w, ctx) else DEFAULT_FIELD_SIZE))
  }

  /** The new field goes into the target when that is a system and the field stands at its position on both axes. */
  function SettleField(w: World, target: ObjId, id: ObjId, atX: bool, atY: bool): (r: World)
    requires target in w.objects && id in w.objects
    ensures r.nextObjectId == w.nextObjectId && r.objects.Keys == w.objects.Keys
    ensures var f := r.objects[id];
            f.kind == w.objects[id].kind && f.fieldType == w.objects[id].fieldType && f.meters == w.objects[id].meters
    ensures forall k {:trigger r.objects[k]} :: k in w.objects && k != target && k != id ==> r.objects[k] == w.objects[k]
    ensures IsKind(w, target, SystemObj) && atX && atY ==> id in r.objects[target].contents && r.objects[id].systemId == target
    ensures !(IsKind(w, target, SystemObj) && atX && atY) ==> r == w
  {
    if IsKind(w, target, SystemObj) && atY && atX then InsertInSystem(w, target, id) else w
  }

  /**
   * CreateSystem before its after-effects: a new system of the given star
   * type, or of one drawn at random, at the given position or the origin,
   * named by script or by the first unused star name.
   */
  function PlaceSystem(w: World, env: Env, st: Option<ValueRef<StarType>>, sx: Option<ValueRef<real>>, sy: Option<ValueRef<real>>,
                       sn: Option<ValueRef<string>>, ctx: Context): World
  {
    var w0 := if st.Some? then w else DrawRandom(w);
    var starType := if st.Some? then st.value.eval(w, ctx)
                    else StarTypeOf(env.random(w.randomDraws, NUM_STAR_TYPES) % NUM_STAR_TYPES);
    var x := if sx.Some? then sx.value.eval(w0, ctx) else 0.0;
    var y := if sy.Some? then sy.value.eval(w0, ctx) else 0.0;
    var name := if sn.Some? then ScriptedName(env, sn.value, w0, ctx) else SystemName(w0);
    AddObject(w0, NewSystem(w0, starType, name, x, y))
  }

  // ----- the remaining single-target effects -----

  /** Destroy: a request to destroy the target, naming the source object (if any) as the destroyer. */
  function ApplyDestroy(w: World, ctx: Context): World
  {
    if ctx.target !in w.objects then w
    else RequestDestroy(w, ctx.target, SourceId(w, ctx.source))
  }

  /** SetStarType: a system target takes the star type evaluated with its current one as input. */
  function ApplySetStarType(w: World, v: ValueRef<StarType>, ctx: Context): World
  {
    if !IsKind(w, ctx.target, SystemObj) then w
    else
      var s := w.objects[ctx.target];
      SetObj(w, ctx.target, s.(starType := v.eval(w, ctx.(inValue := Some(StarTypeValue(s.starType))))))
  }

  /** SetAggression: a fleet target becomes aggressive or passive. */
  function ApplySetAggression(w: World, b: bool, ctx: Context): World
  {
    if !IsKind(w, ctx.target, FleetObj) then w
    else SetObj(w, ctx.target, w.objects[ctx.target].(aggressive := b))
  }

  /** Victory: the empire owning the target, if it exists, wins for the given reason. */
  function ApplyVictory(w: World, reason: string, ctx: Context): World
  {
    if ctx.target !in w.objects || w.objects[ctx.target].owner !in w.empires then w
    else
      var owner := w.objects[ctx.target].owner;
      var em := w.empires[owner];
      w.(empires := w.empires[owner := em.(victories := em.victories + [reason])])
  }

  /** SetOverlayTexture: a system target takes the texture and the evaluated size (1 when none). */
  function ApplySetOverlayTexture(w: World, tex: string, size: Option<ValueRef<real>>, ctx: Context): World
  {
    if ctx.target !in w.objects then w
    else
      var sz := if size.Some? then size.value.eval(w, ctx) else DEFAULT_OVERLAY_SIZE;
      if !IsKind(w, ctx.target, SystemObj) then w
      else SetObj(w, ctx.target, w.objects[ctx.target].(overlayTexture := tex, overlaySize := sz))
  }

  /** SetTexture: a planet target takes the surface texture. */
  function ApplySetTexture(w: World, tex: string, ctx: Context): World
  {
    if !IsKind(w, ctx.target, PlanetObj) then w
    else SetObj(w, ctx.target, w.objects[ctx.target].(surfaceTexture := tex))
  }

  // ----- the dispatcher -----

  /** Execute(context) of one effect. */
  function Apply(w: World, env: Env, e: Effect, ctx: Context): World
    decreases e
  {
    match e
    case NoOp => w
    case SetMeter(m, v, _) => ApplySetMeter(w, m, v, ctx)
    case SetShipPartMeter(m, name, value) => ApplySetShipPartMeter(w, m, name, value, ctx)
    case SetEmpireMeter(empire, meter, value) => ApplySetEmpireMeter(w, empire, meter, value, ctx)
    case SetEmpireStockpile(empire, res, value) => ApplySetEmpireStockpile(w, empire, res, value, ctx)
    case SetEmpireCapital(empire) => ApplySetEmpireCapital(w, empire, ctx)
    case SetPlanetType(v) => ApplySetPlanetType(w, v, ctx)
    case SetPlanetSize(v) => ApplySetPlanetSize(w, v, ctx)
    case SetSpecies(v) => ApplySetSpecies(w, env, v, ctx)
    case SetOwner(v) => ApplySetOwner(w, env, v, ctx)
    case CreateField(ft, fx, fy, fs, fn, after) =>
      if ctx.target !in w.objects || ft.None? then w
      else
        var typeName := ft.value.eval(w, ctx);
        if typeName !in w.fieldTypes then w
        else ApplyList(PlaceField(w, env, typeName, fx, fy, fs, fn, ctx), env, after, ctx.(target := w.nextObjectId))
    case CreateSystem(st, sx, sy, sn, after) =>
      var w0 := if st.Some? then w else DrawRandom(w);
      ApplyList(PlaceSystem(w, env, st, sx, sy, sn, ctx), env, after, ctx.(target := w0.nextObjectId))
    case Destroy => ApplyDestroy(w, ctx)
    case AddSpecial(name, capacity) => ApplyAddSpecial(w, name, capacity, ctx)
    case RemoveSpecial(name) => ApplyRemoveSpecial(w, name, ctx)
    case AddStarlanes(c) => ApplyAddStarlanes(w, c, ctx)
    case RemoveStarlanes(c) => ApplyRemoveStarlanes(w, c, ctx)
    case SetStarType(v) => ApplySetStarType(w, v, ctx)
    case SetDestination(c) => ApplySetDestination(w, env, c, ctx)
    case SetAggression(b) => ApplySetAggression(w, b, ctx)
    case Victory(reason) => ApplyVictory(w, reason, ctx)
    case GenerateSitRepMessage(msg, icon, params, recipient, aff, cond, lbl, lookup) =>
      ApplySitRep(w, msg, icon, params, recipient, aff, cond, lbl, lookup, ctx)
    case SetOverlayTexture(tex, size) => ApplySetOverlayTexture(w, tex, size, ctx)
    case SetTexture(tex) => ApplySetTexture(w, tex, ctx)
    case SetVisibility(vis, aff, empire, objs) => ApplySetVisibility(w, vis, aff, empire, objs, ctx)
    case Conditional(c, t, f) =>
      if ctx.target !in w.objects then w
      else if c.None? || c.value.test(w, ctx, ctx.target) then ApplyList(w, env, t, ctx)
      else ApplyList(w, env, f, ctx)
  }

  /** The effects of a list executed one after the other on the same context. */
  function ApplyList(w: World, env: Env, es: seq<Effect>, ctx: Context): World
    decreases es
  {
    if es == [] then w else ApplyList(Apply(w, env, es[0], ctx), env, es[1..], ctx)
  }

  // ----- specials and starlanes -----

  /** AddSpecial: the named special (the empty name when none) with the evaluated capacity, or its current one (zero when new). */
  function ApplyAddSpecial(w: World, name: Option<ValueRef<string>>, capacity: Option<ValueRef<real>>, ctx: Context): World
  {
    if ctx.target !in w.objects then w
    else
      var o := w.objects[ctx.target];
      var n := if name.Some? then name.value.eval(w, ctx) else "";
      var initial := if n in o.specials then o.specials[n] else 0.0;
      var cap := if capacity.Some? then capacity.value.eval(w, ctx.(inValue := Some(RealValue(initial)))) else initial;
      SetObj(w, ctx.target, o.(specials := o.specials[n := cap]))
  }

  /** RemoveSpecial: the named special is no longer attached to the target. */
  function ApplyRemoveSpecial(w: World, name: Option<ValueRef<string>>, ctx: Context): World
  {
    if ctx.target !in w.objects then w
    else
      var o := w.objects[ctx.target];
      var n := if name.Some? then name.value.eval(w, ctx) else "";
      SetObj(w, ctx.target, o.(specials := o.specials - {n}))
  }

  /** The system of the target, the endpoint systems of the matches, or nothing to do. */
  function LaneEnds(w: World, c: Condition, ctx: Context): Option<(ObjId, set<ObjId>)>
  {
    var t := SystemOf(w, ctx.target);
    if ctx.target !in w.objects || t == INVALID_OBJECT_ID then None
    else
      var matches := Matches(w, c, ctx);
      if matches == {} then None else Some((t, EndpointSystems(w, matches)))
  }

  /** AddStarlanes: lanes both ways between the target's system and every endpoint system. */
  function ApplyAddStarlanes(w: World, c: Condition, ctx: Context): World
  {
    match LaneEnds(w, c, ctx)
    case None => w
    case Some((t, ends)) => w.(objects := LinkLanes(w.objects, t, ends))
  }

  /** The objects with a lane added from `t` to every system of `ends` and back. */
  function LinkLanes(objs: map<ObjId, Obj>, t: ObjId, ends: set<ObjId>): map<ObjId, Obj>
  {
    map k | k in objs ::
      if k == t then objs[k].(lanes := objs[k].lanes + ends)
      else if k in ends then objs[k].(lanes := objs[k].lanes + {t})
      else objs[k]
  }

  /** RemoveStarlanes: no lane either way between the target's system and any endpoint system. */
  function ApplyRemoveStarlanes(w: World, c: Condition, ctx: Context): World
  {
    match LaneEnds(w, c, ctx)
    case None => w
    case Some((t, ends)) => w.(objects := UnlinkLanes(w.objects, t, ends))
  }

  /** The objects with every lane between `t` and a system of `ends` removed, both ways. */
  function UnlinkLanes(objs: map<ObjId, Obj>, t: ObjId, ends: set<ObjId>): map<ObjId, Obj>
  {
    map k | k in objs ::
      if k == t then objs[k].(lanes := objs[k].lanes - ends)
      else if k in ends then objs[k].(lanes := objs[k].lanes - {t})
      else objs[k]
  }

  // ----- fleets -----

  /**
   * SetDestination: a fleet target picks one of the matching objects at
   * random (the matches in ascending id order) and, when that object is in a
   * system, the fleet has a start system, a path there exists and the fleet
   * can travel it, takes that path as its route.
   */
  function ApplySetDestination(w: World, env: Env, c: Condition, ctx: Context): World
  {
    if !IsKind(w, ctx.target, FleetObj) then w
    else
      var matches := Matches(w, c, ctx);
      if matches == {} then w
      else
        var dest := PickDestination(w, env, matches);
        RouteFleet(DrawRandom(w), env, ctx.target, w.objects[dest].systemId)
  }

  /** The "random" pick among the matches, by position in ascending id order. */
  function PickDestination(w: World, env: Env, matches: set<ObjId>): (d: ObjId)
    requires matches != {}
    ensures d in matches
  {
    var ids := SortedIds(matches);
    ids[env.random(w.randomDraws, |ids|) % |ids|]
  }

  /**
   * The rest of SetDestination once the destination is picked: give up when
   * it is in no system, when the fleet has no system to start from, or when
   * the path is empty or out of range; otherwise the path becomes the route.
   */
  function RouteFleet(w: World, env: Env, fleet: ObjId, destSystem: ObjId): (r: World)
    requires IsKind(w, fleet, FleetObj)
    ensures OnlyObjectsDiffer(r, w) && r.objects.Keys == w.objects.Keys
    ensures forall k {:trigger r.objects[k]} :: k in w.objects && k != fleet ==> r.objects[k] == w.objects[k]
    ensures r.objects[fleet] == w.objects[fleet].(route := r.objects[fleet].route)
    ensures var f := w.objects[fleet];
            r.objects[fleet].route != f.route ==>
              && destSystem != INVALID_OBJECT_ID
              && r.objects[fleet].route != []
              && env.routeReachable(fleet, r.objects[fleet].route)
              && r.objects[fleet].route == env.shortestPath(
                   if f.systemId == INVALID_OBJECT_ID then f.nextSystem else f.systemId, destSystem, f.owner)
  {
    var f := w.objects[fleet];
    var start := if f.systemId == INVALID_OBJECT_ID then f.nextSystem else f.systemId;
    if destSystem == INVALID_OBJECT_ID || start == INVALID_OBJECT_ID then w
    else
      var path := env.shortestPath(start, destSystem, f.owner);
      if path == [] || !env.routeReachable(fleet, path) then w
      else SetObj(w, fleet, f.(route := path))
  }

  // ----- sitreps and visibility -----

  /** The sitrep parameters, each value evaluated in the context. */
  function SitRepParameters(w: World, params: seq<(string, ValueRef<string>)>, ctx: Context): (r: seq<(string, string)>)
    ensures |r| == |params|
    ensures forall i :: 0 <= i < |params| ==> r[i] == (params[i].0, params[i].1.eval(w, ctx))
  {
    seq(|params|, i requires 0 <= i < |params| => (params[i].0, params[i].1.eval(w, ctx)))
  }

  /** The predefined designs the parameters tagged as such name. */
  function ReferencedDesigns(w: World, params: seq<(string, ValueRef<string>)>, ctx: Context): set<int>
  {
    set i | 0 <= i < |params| && params[i].0 == PREDEFINED_DESIGN_TAG && params[i].1.eval(w, ctx) in w.predefinedDesigns
      :: w.predefinedDesigns[params[i].1.eval(w, ctx)]
  }

  /**
   * GenerateSitRepMessage: every existing recipient empire gets the sitrep
   * for the next turn and learns the designs the parameters reference.
   */
  function ApplySitRep(w: World, msg: string, icon: string, params: seq<(string, ValueRef<string>)>,
                       recipient: Option<ValueRef<int>>, aff: Affiliation, cond: Option<Condition>,
                       lbl: string, lookup: bool, ctx: Context): World
  {
    var id := if recipient.Some? then recipient.value.eval(w, ctx) else ALL_EMPIRES;
    var seen := if cond.Some? then Matches(w, cond.value, ctx) else {};
    var recipients := SitrepRecipients(w, id, aff, seen);
    var entry := SitRep(msg, w.currentTurn + 1, icon, SitRepParameters(w, params, ctx), lbl, lookup);
    var designs := ReferencedDesigns(w, params, ctx);
    w.(empires := map e | e in w.empires :: if e in recipients then w.empires[e].(sitReps := w.empires[e].sitReps + [entry]) else w.empires[e],
       designKnowledge := w.designKnowledge + set d, e | d in designs && e in recipients && e in w.empires :: (d, e))
  }

  /** SetVisibility: each existing empire acted for gets the visibility of the target, or of every match. */
  function ApplySetVisibility(w: World, vis: Visibility, aff: Affiliation, empire: Option<ValueRef<int>>,
                              objs: Option<Condition>, ctx: Context): World
  {
    if ctx.target !in w.objects || vis == InvalidVisibility then w
    else
      var id := if empire.Some? then empire.value.eval(w, ctx) else ALL_EMPIRES;
      var empires := VisibilityRecipients(w, id, aff);
      var targets := if objs.None? then {ctx.target} else Matches(w, objs.value, ctx);
      w.(effectVisibility := w.effectVisibility + set e, o | e in empires && e in w.empires && o in targets :: (e, o, vis))
  }
}
