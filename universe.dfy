// The part of FreeOrion's universe that the effects engine reads and writes:
// objects with meters, empires with their meters and sitreps, diplomacy, the
// species registry, and the requests an effects pass files for later
// (destroy requests, effect-derived visibility).  Value references and
// conditions are opaque evaluators over this state.

module Universe {

  datatype Option<T> = None | Some(value: T)

  type ObjId = int

  /** The id no object has (INVALID_OBJECT_ID). */
  const INVALID_OBJECT_ID: int := -1
  /** The empire id that stands for "no empire" or "every empire" (ALL_EMPIRES). */
  const ALL_EMPIRES: int := -1
  /** Meter::LARGE_VALUE, the stealth given to a freshly split-off fleet. */
  const LARGE_VALUE: real := 65536.0
  /** The number of real star types, STAR_BLUE .. STAR_NONE. */
  const NUM_STAR_TYPES: nat := 8

  datatype ObjectType = BuildingObj | ShipObj | FleetObj | PlanetObj | SystemObj | FieldObj

  datatype MeterType =
    | TargetPopulation | TargetIndustry | TargetResearch | TargetTrade | TargetConstruction | TargetHappiness
    | MaxCapacity | MaxFuel | MaxShield | MaxStructure | MaxDefense | MaxSupply | MaxTroops
    | Population | Industry | Research | Trade | Construction | Happiness
    | Capacity | Fuel | Shield | Structure | Defense | Supply | Troops
    | RebelTroops | Size | Stealth | Detection | Speed
    | SecondaryStat | MaxSecondaryStat

  datatype PlanetType =
    | Swamp | Toxic | Inferno | Radiated | Barren | Tundra | Desert | Terran | Ocean
    | Asteroids | GasGiant | InvalidPlanetType

  datatype PlanetSize =
    | NoWorld | Tiny | Small | Medium | Large | Huge | Asteroids | GasGiant | InvalidPlanetSize

  datatype StarType = Blue | White | Yellow | Orange | Red | Neutron | BlackHole | NoStar | InvalidStarType

  /** StarType(i) for the enumerators STAR_BLUE = 0 .. STAR_NONE = 7. */
  function StarTypeOf(i: nat): (t: StarType)
    requires i < NUM_STAR_TYPES
    ensures t != InvalidStarType
  {
    [Blue, White, Yellow, Orange, Red, Neutron, BlackHole, NoStar][i]
  }

  datatype Visibility = InvalidVisibility | NoVisibility | BasicVisibility | PartialVisibility | FullVisibility

  /** The order of the Visibility enumerators. */
  function VisRank(v: Visibility): int
  {
    match v
    case InvalidVisibility => -1
    case NoVisibility => 0
    case BasicVisibility => 1
    case PartialVisibility => 2
    case FullVisibility => 3
  }

  datatype Affiliation = AffilSelf | AffilEnemy | AffilAlly | AffilAny | AffilNone | AffilCanSee | AffilHuman

  datatype DiplomaticStatus = AtWar | AtPeace

  datatype ResourceType = Food | Minerals | Industry | Trade | Research

  /** The EffectsCauseType enumerator of an accounting record, kept as its code. */
  type CauseType = int

  /** An object of the universe; fields that do not apply to its kind keep a default value. */
  datatype Obj = Obj(
    kind: ObjectType,
    name: string,
    owner: int,
    x: real,
    y: real,
    systemId: ObjId,
    meters: map<MeterType, real>,
    specials: map<string, real>,
    // ships
    fleetId: ObjId,
    partMeters: map<(MeterType, string), real>,
    armed: bool,            // armed or carrying fighters: a fleet holding only this ship is aggressive
    // planets and ships
    species: string,
    // planets
    planetType: PlanetType,
    planetSize: PlanetSize,
    focus: string,
    surfaceTexture: string,
    // systems
    starType: StarType,
    lanes: set<ObjId>,
    contents: set<ObjId>,
    overlayTexture: string,
    overlaySize: real,
    // fleets
    ships: set<ObjId>,
    aggressive: bool,
    nextSystem: ObjId,
    prevSystem: ObjId,
    route: seq<ObjId>,
    finalDestination: ObjId,
    // fields
    fieldType: string
  )

  /** A sitrep entry as handed to an empire: template, turn, icon, parameters, label, lookup flag. */
  datatype SitRep = SitRep(template: string, turn: int, icon: string,
                           parameters: seq<(string, string)>, entryLabel: string, stringtableLookup: bool)

  datatype Empire = Empire(
    meters: map<string, real>,
    stockpiles: map<ResourceType, real>,
    capitalId: ObjId,
    sitReps: seq<SitRep>,
    victories: seq<string>
  )

  datatype Species = Species(preferredFocus: string)

  /** A request filed by Destroy: (object to destroy, object that destroyed it). */
  type DestroyRequest = (ObjId, ObjId)

  datatype World = World(
    objects: map<ObjId, Obj>,
    empires: map<int, Empire>,
    diplomacy: map<(int, int), DiplomaticStatus>,
    visibility: map<(ObjId, int), Visibility>,
    species: map<string, Species>,
    fieldTypes: set<string>,
    predefinedDesigns: map<string, int>,
    starNames: seq<string>,
    currentTurn: int,
    nextObjectId: ObjId,
    destroyRequests: seq<DestroyRequest>,
    effectVisibility: set<(int, ObjId, Visibility)>,
    designKnowledge: set<(int, int)>,
    randomDraws: nat
  )

  /**
   * Services the engine calls but that are not part of this model: path
   * finding (ShortestPath), whether a fleet's ETA along a route is finite,
   * the foci a planet offers (Planet::AvailableFoci), fleet naming, random
   * numbers (the n-th draw of a range of a given size) and the string table.
   */
  datatype Env = Env(
    shortestPath: (ObjId, ObjId, int) -> seq<ObjId>,
    routeReachable: (ObjId, seq<ObjId>) -> bool,
    availableFoci: (World, ObjId) -> seq<string>,
    fleetName: ObjId -> string,
    random: (nat, nat) -> nat,
    userString: string -> string,
    userStringExists: string -> bool
  )

  /** A value a value-reference can produce or receive as its "Value" input. */
  datatype Value =
    | RealValue(r: real)
    | IntValue(i: int)
    | StringValue(s: string)
    | PlanetTypeValue(pt: PlanetType)
    | PlanetSizeValue(ps: PlanetSize)
    | StarTypeValue(st: StarType)

  /** The ScriptingContext of an evaluation: source, effect target and the current value. */
  datatype Context = Context(source: ObjId, target: ObjId, inValue: Option<Value>)

  datatype OpType = Plus | Minus | Times | Divide | Negate | Exponentiate | OtherOp

  /** The operation node of a value reference, when it is one: operator and evaluated right-hand side. */
  datatype Operation<T> = Operation(opType: OpType, rhs: T)

  /**
   * ValueRef<T>: an evaluator plus the static facts the engine consults
   * (TargetInvariant, SimpleIncrement, ConstantExpr) and, when the node is an
   * Operation, its operator and right-hand side.
   */
  datatype ValueRef<T> = ValueRef(
    eval: (World, Context) -> T,
    targetInvariant: bool,
    simpleIncrement: bool,
    constantExpr: bool,
    operation: Option<Operation<T>>
  )

  /** A condition: does a candidate object match in a context. */
  datatype Condition = Condition(test: (World, Context, ObjId) -> bool)

  // ----- object access -----

  /** Every object id is a valid id below the next id the universe hands out. */
  predicate FreshIds(w: World)
  {
    w.nextObjectId >= 0 && forall id :: id in w.objects ==> 0 <= id < w.nextObjectId
  }

  /** A newly created object of a kind, before the creator sets its kind-specific fields. */
  function BlankObject(kind: ObjectType, name: string, owner: int, x: real, y: real): (o: Obj)
    ensures o.kind == kind && o.owner == owner && o.x == x && o.y == y
  {
    Obj(kind, name, owner, x, y, INVALID_OBJECT_ID, map[], map[],
        INVALID_OBJECT_ID, map[], false,
        "",
        InvalidPlanetType, InvalidPlanetSize, "", "",
        InvalidStarType, {}, {}, "", 0.0,
        {}, false, INVALID_OBJECT_ID, INVALID_OBJECT_ID, [], INVALID_OBJECT_ID,
        "")
  }

  /** Every part of the universe but its objects is the same in `r` as in `w`. */
  predicate OnlyObjectsDiffer(r: World, w: World)
  {
    && r.empires == w.empires && r.diplomacy == w.diplomacy && r.visibility == w.visibility
    && r.species == w.species && r.fieldTypes == w.fieldTypes && r.predefinedDesigns == w.predefinedDesigns
    && r.starNames == w.starNames && r.currentTurn == w.currentTurn && r.nextObjectId == w.nextObjectId
    && r.destroyRequests == w.destroyRequests && r.effectVisibility == w.effectVisibility
    && r.designKnowledge == w.designKnowledge && r.randomDraws == w.randomDraws
  }

  /** Universe::Create*: store a new object under the next id. */
  function AddObject(w: World, o: Obj): (r: World)
    ensures r.objects == w.objects[w.nextObjectId := o]
    ensures r.nextObjectId == w.nextObjectId + 1 && r.destroyRequests == w.destroyRequests
    ensures r.empires == w.empires && r.randomDraws == w.randomDraws && r.starNames == w.starNames
    ensures FreshIds(w) ==> FreshIds(r) && w.nextObjectId !in w.objects
  {
    w.(objects := w.objects[w.nextObjectId := o], nextObjectId := w.nextObjectId + 1)
  }

  predicate IsKind(w: World, id: ObjId, k: ObjectType)
  {
    id in w.objects && w.objects[id].kind == k
  }

  predicate HasMeter(w: World, id: ObjId, m: MeterType)
  {
    id in w.objects && m in w.objects[id].meters
  }

  function Meter(w: World, id: ObjId, m: MeterType): real
    requires HasMeter(w, id, m)
  {
    w.objects[id].meters[m]
  }

  function SetObj(w: World, id: ObjId, o: Obj): (r: World)
    ensures r.objects == w.objects[id := o] && OnlyObjectsDiffer(r, w)
  {
    w.(objects := w.objects[id := o])
  }

  /** Universe::Destroy is deferred: the object is queued with the object destroying it. */
  function RequestDestroy(w: World, id: ObjId, destroyer: ObjId): (r: World)
    ensures r.destroyRequests == w.destroyRequests + [(id, destroyer)]
    ensures r.objects == w.objects && r.nextObjectId == w.nextObjectId && r.randomDraws == w.randomDraws
    ensures r.empires == w.empires && r.effectVisibility == w.effectVisibility
  {
    w.(destroyRequests := w.destroyRequests + [(id, destroyer)])
  }

  /** One draw taken from the random number generator. */
  function DrawRandom(w: World): (r: World)
    ensures r.randomDraws == w.randomDraws + 1
    ensures r.objects == w.objects && r.nextObjectId == w.nextObjectId && r.destroyRequests == w.destroyRequests
    ensures r.empires == w.empires && r.effectVisibility == w.effectVisibility && r.starNames == w.starNames
  {
    w.(randomDraws := w.randomDraws + 1)
  }

  /** Meter::SetCurrent on meter `m` of object `id`. */
  function SetMeterValue(w: World, id: ObjId, m: MeterType, v: real): (r: World)
    requires id in w.objects
    ensures r.objects.Keys == w.objects.Keys && HasMeter(r, id, m) && Meter(r, id, m) == v
    ensures forall k {:trigger r.objects[k]} :: k in w.objects && k != id ==> r.objects[k] == w.objects[k]
  {
    var o := w.objects[id];
    SetObj(w, id, o.(meters := o.meters[m := v]))
  }

  /** The source object of a context: its id if such an object exists, else no object. */
  function SourceId(w: World, id: ObjId): (r: ObjId)
    ensures r == INVALID_OBJECT_ID || r in w.objects
  {
    if id in w.objects then id else INVALID_OBJECT_ID
  }

  /** Universe-wide evaluation of a condition: every object matching in the context. */
  function Matches(w: World, c: Condition, ctx: Context): (r: set<ObjId>)
    ensures forall id {:trigger id in r} :: id in r <==> id in w.objects && c.test(w, ctx, id)
  {
    set id | id in w.objects && c.test(w, ctx, id)
  }

  function VisibilityOf(w: World, obj: ObjId, empire: int): Visibility
  {
    if (obj, empire) in w.visibility then w.visibility[(obj, empire)] else NoVisibility
  }

  /** Diplomatic status between two empires; the pair is stored with the smaller id first. */
  function StatusOf(w: World, a: int, b: int): Option<DiplomaticStatus>
  {
    var key := if a <= b then (a, b) else (b, a);
    if key in w.diplomacy then Some(w.diplomacy[key]) else None
  }

  // ----- System::Insert / System::Remove / Fleet::RemoveShip -----

  /** System::Insert: the system lists the object, which takes the system's id and position. */
  function InsertInSystem(w: World, sys: ObjId, id: ObjId): (r: World)
    requires IsKind(w, sys, SystemObj) && id in w.objects
    ensures r.objects.Keys == w.objects.Keys
    ensures OnlyObjectsDiffer(r, w)
    ensures id in r.objects[sys].contents && r.objects[id].systemId == sys
    ensures id != sys ==> r.objects[id] == w.objects[id].(systemId := sys, x := w.objects[sys].x, y := w.objects[sys].y)
    ensures forall k {:trigger r.objects[k]} :: k in w.objects ==> r.objects[k].kind == w.objects[k].kind
    ensures forall k {:trigger r.objects[k]} :: k in w.objects && k != sys && k != id ==> r.objects[k] == w.objects[k]
  {
    var s := w.objects[sys];
    var w1 := SetObj(w, sys, s.(contents := s.contents + {id}));
    var o := w1.objects[id];
    SetObj(w1, id, o.(systemId := sys, x := s.x, y := s.y))
  }

  /** System::Remove: the system no longer lists the object. */
  function RemoveFromSystem(w: World, sys: ObjId, id: ObjId): (r: World)
    requires IsKind(w, sys, SystemObj)
    ensures r.objects.Keys == w.objects.Keys
    ensures OnlyObjectsDiffer(r, w)
    ensures id !in r.objects[sys].contents
    ensures r.objects[sys].kind == SystemObj
    ensures forall k {:trigger r.objects[k]} :: k in w.objects && k != sys ==> r.objects[k] == w.objects[k]
  {
    var s := w.objects[sys];
    SetObj(w, sys, s.(contents := s.contents - {id}))
  }

  /** Fleet::RemoveShip: the fleet no longer lists the ship. */
  function RemoveShipFromFleet(w: World, fleet: ObjId, ship: ObjId): (r: World)
    requires IsKind(w, fleet, FleetObj)
    ensures r.objects.Keys == w.objects.Keys
    ensures OnlyObjectsDiffer(r, w)
    ensures r.objects[fleet] == w.objects[fleet].(ships := w.objects[fleet].ships - {ship})
    ensures forall k {:trigger r.objects[k]} :: k in w.objects && k != fleet ==> r.objects[k] == w.objects[k]
  {
    var f := w.objects[fleet];
    SetObj(w, fleet, f.(ships := f.ships - {ship}))
  }

  // ----- ascending order of ids (std::map / std::set iteration order) -----

  predicate StrictlyIncreasing(s: seq<int>)
  {
    forall i, j :: 0 <= i < j < |s| ==> s[i] < s[j]
  }

  /** Set extensionality, in the forms the proofs below use it. */
  lemma SetsDiffer(s: set<int>, t: set<int>)
    requires s != t
    ensures exists x :: (x in s) != (x in t)
  {
    if forall x :: (x in s) == (x in t) {
      assert false;
    }
  }

  lemma SetExt(s: set<int>, t: set<int>)
    requires forall x :: x in s <==> x in t
    ensures s == t
  {
    if s != t {
      SetsDiffer(s, t);
    }
  }

  /** Map extensionality. */
  lemma MapsDiffer<V>(a: map<int, V>, b: map<int, V>)
    requires a != b
    ensures a.Keys != b.Keys || exists k :: k in a && k in b && a[k] != b[k]
  {
    if a.Keys == b.Keys && forall k :: k in a ==> a[k] == b[k] {
      assert false;
    }
  }

  lemma MapExt<V>(a: map<int, V>, b: map<int, V>)
    requires forall k :: k in a <==> k in b
    requires forall k :: k in a ==> a[k] == b[k]
    ensures a == b
  {
    if a != b {
      MapsDiffer(a, b);
      if a.Keys != b.Keys {
        SetsDiffer(a.Keys, b.Keys);
      }
    }
  }

  lemma {:induction false} MinimumExists(s: set<int>)
    requires s != {}
    ensures exists m :: m in s && forall y :: y in s ==> m <= y
    decreases |s|
  {
    SetsDiffer(s, {});
    var x :| (x in s) != (x in {});
    var rest := s - {x};
    if rest == {} {
      forall y | y in s ensures x <= y {
        assert y !in rest;
      }
    } else {
      assert |rest| == |s| - 1;
      MinimumExists(rest);
      var m :| m in rest && forall y :: y in rest ==> m <= y;
      var least := if x < m then x else m;
      forall y | y in s ensures least <= y {
        if y != x { assert y in rest; }
      }
      assert least in s;
    }
  }

  function Minimum(s: set<int>): (m: int)
    requires s != {}
    ensures m in s && forall y :: y in s ==> m <= y
  {
    MinimumExists(s);
    var m :| m in s && forall y :: y in s ==> m <= y;
    m
  }

  /** The elements of a set of ids in ascending order. */
  function SortedIds(s: set<int>): (r: seq<int>)
    ensures StrictlyIncreasing(r)
    ensures |r| == |s|
    ensures forall x :: x in r <==> x in s
    decreases |s|
  {
    if s == {} then []
    else
      var m := Minimum(s);
      [m] + SortedIds(s - {m})
  }
}
