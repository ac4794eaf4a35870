// The batch side of the effects engine, as functions of the universe: an
// effect executed on a list of targets for one source (Execute(context,
// targets), with the meter fast paths and Conditional's split of the
// targets), the per-pass dispatch of Execute(targets_causes, accounting,
// flags) with the accounting ledger of SetMeter, and a whole effects group.

module Batch {
  import opened Universe
  import opened Effects
  import opened Execution

  /** The context of one target: the entry's source object, that target, no current value. */
  function TargetContext(src: ObjId, t: ObjId): Context
  {
    Context(src, t, None)
  }

  /** The context a batch starts from: the source object alone, no target. */
  function SourceContext(src: ObjId): Context
  {
    Context(src, INVALID_OBJECT_ID, None)
  }

  // ----- EffectBase::Execute(context, targets) -----

  /** The single-target Execute once per target, in the order of the targets. */
  function BaseBatch(w: World, env: Env, e: Effect, src: ObjId, ts: seq<ObjId>): World
    decreases |ts|
  {
    if ts == [] then w
    else BaseBatch(Apply(w, env, e, TargetContext(src, ts[0])), env, e, src, ts[1..])
  }

  // ----- SetMeter::Execute(context, targets) -----

  /** The target-invariant fast path: every target that has meter `m` gets `val`. */
  function AssignAll(w: World, m: MeterType, val: real, ts: seq<ObjId>): World
    decreases |ts|
  {
    if ts == [] then w
    else
      var t := ts[0];
      AssignAll(if HasMeter(w, t, m) then SetMeterValue(w, t, m, val) else w, m, val, ts[1..])
  }

  /** The simple-increment fast path: every target that has meter `m` gets `delta` added (AddToCurrent). */
  function IncrementAll(w: World, m: MeterType, delta: real, ts: seq<ObjId>): World
    decreases |ts|
  {
    if ts == [] then w
    else
      var t := ts[0];
      IncrementAll(if HasMeter(w, t, m) then SetMeterValue(w, t, m, Meter(w, t, m) + delta) else w, m, delta, ts[1..])
  }

  /** The increment of a simple-increment operation: the right-hand side for PLUS, its negation for MINUS, none otherwise. */
  function IncrementOf(op: Operation<real>): (d: Option<real>)
    ensures op.opType == Plus ==> d == Some(op.rhs)
    ensures op.opType == Minus ==> d == Some(-op.rhs)
    ensures op.opType != Plus && op.opType != Minus ==> d == None
  {
    if op.opType == Plus then Some(op.rhs)
    else if op.opType == Minus then Some(-op.rhs)
    else None
  }

  /**
   * SetMeter on a list of targets: a target-invariant value is evaluated
   * once, without a target; a simple increment is applied as a constant
   * (PLUS or MINUS); a value that is no operation, any other operator, or a
   * value depending on the target falls back to the per-target execution.
   */
  function SetMeterBatch(w: World, env: Env, m: MeterType, v: ValueRef<real>, lbl: string, src: ObjId, ts: seq<ObjId>): World
  {
    if ts == [] then w
    else if v.targetInvariant then AssignAll(w, m, v.eval(w, SourceContext(src)), ts)
    else if v.simpleIncrement then
      if v.operation.None? then BaseBatch(w, env, SetMeter(m, v, lbl), src, ts)
      else
        match IncrementOf(v.operation.value)
        case Some(d) => IncrementAll(w, m, d, ts)
        case None => BaseBatch(w, env, SetMeter(m, v, lbl), src, ts)
    else BaseBatch(w, env, SetMeter(m, v, lbl), src, ts)
  }

  // ----- SetShipPartMeter::Execute(context, targets) -----

  /** Can meter `key` of object `t` be set: is it a ship with such a part meter? */
  predicate HasPartMeter(w: World, t: ObjId, key: (MeterType, string))
  {
    IsKind(w, t, ShipObj) && key in w.objects[t].partMeters
  }

  /** The target-invariant fast path for a part meter: every ship with it gets `val`. */
  function AssignPartAll(w: World, key: (MeterType, string), val: real, ts: seq<ObjId>): World
    decreases |ts|
  {
    if ts == [] then w
    else
      var t := ts[0];
      AssignPartAll(if HasPartMeter(w, t, key) then SetPartMeterValue(w, t, key, val) else w, key, val, ts[1..])
  }

  /** The simple-increment fast path for a part meter. */
  function IncrementPartAll(w: World, key: (MeterType, string), delta: real, ts: seq<ObjId>): World
    decreases |ts|
  {
    if ts == [] then w
    else
      var t := ts[0];
      var w1 := if HasPartMeter(w, t, key) then SetPartMeterValue(w, t, key, w.objects[t].partMeters[key] + delta) else w;
      IncrementPartAll(w1, key, delta, ts[1..])
  }

  /**
   * SetShipPartMeter on a list of targets.  Unlike SetMeter, a simple
   * increment that is no operation, or has another operator, does nothing
   * at all instead of falling back to the per-target execution.
   */
  function ShipPartBatch(w: World, env: Env, m: MeterType, name: Option<ValueRef<string>>, value: Option<ValueRef<real>>,
                         src: ObjId, ts: seq<ObjId>): World
  {
    if ts == [] || name.None? || value.None? then w
    else
      var key := (m, name.value.eval(w, SourceContext(src)));
      var v := value.value;
      if v.targetInvariant then AssignPartAll(w, key, v.eval(w, SourceContext(src)), ts)
      else if v.simpleIncrement then
        if v.operation.None? then w
        else
          match IncrementOf(v.operation.value)
          case Some(d) => IncrementPartAll(w, key, d, ts)
          case None => w
      else BaseBatch(w, env, SetShipPartMeter(m, name, value), src, ts)
  }

  // ----- Conditional -----

  /**
   * Condition::Eval(context, matches, non_matches, MATCHES) on all the
   * targets: the matches and the rest, each in the order of the targets;
   * without a condition every target matches.
   */
  function Partition(w: World, c: Option<Condition>, ctx: Context, ts: seq<ObjId>): (r: (seq<ObjId>, seq<ObjId>))
    ensures multiset(r.0) + multiset(r.1) == multiset(ts)
    ensures forall x :: x in r.0 ==> c.None? || c.value.test(w, ctx, x)
    ensures forall x :: x in r.1 ==> c.Some? && !c.value.test(w, ctx, x)
    ensures c.None? ==> r.0 == ts && r.1 == []
    decreases |ts|
  {
    if ts == [] then ([], [])
    else
      var p := Partition(w, c, ctx, ts[1..]);
      assert ts == [ts[0]] + ts[1..];
      if c.None? || c.value.test(w, ctx, ts[0]) then ([ts[0]] + p.0, p.1) else (p.0, [ts[0]] + p.1)
  }

  /** A size of effect trees: it bounds the recursion through Conditional branches, and filtering does not increase it. */
  function EffectSize(e: Effect): (n: nat)
    ensures n >= 1
    decreases e
  {
    match e
    case Conditional(_, t, f) => 1 + ListSize(t) + ListSize(f)
    case _ => 1
  }

  function ListSize(es: seq<Effect>): nat
    decreases es
  {
    if es == [] then 0 else EffectSize(es[0]) + ListSize(es[1..])
  }

  /**
   * Execute(context, targets) of any effect: the meter effects take their
   * fast paths; a Conditional runs its branches on its split of the
   * targets; every other effect runs once per target.
   */
  function OnTargets(w: World, env: Env, e: Effect, src: ObjId, ts: seq<ObjId>): World
    decreases EffectSize(e), 1
  {
    if e.SetMeter? then SetMeterBatch(w, env, e.meter, e.value, e.accountingLabel, src, ts)
    else if e.SetShipPartMeter? then ShipPartBatch(w, env, e.partMeter, e.partName, e.partValue, src, ts)
    else if e.Conditional? then CondOnTargets(w, env, e.condition, e.trueEffects, e.falseEffects, src, ts)
    else BaseBatch(w, env, e, src, ts)
  }

  /**
   * Conditional::Execute(context, targets): nothing without targets;
   * otherwise the targets are split once, the true effects run on the
   * matches, then the false effects on the rest, each branch only when it
   * and its targets are non-empty.
   */
  function CondOnTargets(w: World, env: Env, c: Option<Condition>, t: seq<Effect>, f: seq<Effect>, src: ObjId, ts: seq<ObjId>): World
    decreases ListSize(t) + ListSize(f) + 1, 0
  {
    if ts == [] then w
    else
      var p := Partition(w, c, SourceContext(src), ts);
      var w1 := if p.0 != [] && t != [] then ListOnTargets(w, env, t, src, p.0) else w;
      if p.1 != [] && f != [] then ListOnTargets(w1, env, f, src, p.1) else w1
  }

  /** The effects of a branch, each on the same targets, one after the other. */
  function ListOnTargets(w: World, env: Env, es: seq<Effect>, src: ObjId, ts: seq<ObjId>): World
    decreases ListSize(es), 2
  {
    if es == [] then w else ListOnTargets(OnTargets(w, env, es[0], src, ts), env, es[1..], src, ts)
  }

  // ----- Conditional on a filtered pass -----

  lemma {:induction false} FilteredNotLarger(es: seq<Effect>, f: PassFlags)
    ensures ListSize(Filtered(es, f)) <= ListSize(es)
    decreases es
  {
    if es != [] {
      FilteredNotLarger(es[1..], f);
      if PassesFilter(es[0], f) {
        assert ([es[0]] + Filtered(es[1..], f))[1..] == Filtered(es[1..], f);
      }
    }
  }

  /**
   * Conditional::Execute(context, targets, accounting, flags): both branches
   * are filtered for the pass first; the survivors run on the matches and
   * the rest as in OnTargets, except that a nested Conditional recurses with
   * the same flags.
   */
  function CondFiltered(w: World, env: Env, c: Option<Condition>, t: seq<Effect>, f: seq<Effect>,
                        src: ObjId, ts: seq<ObjId>, flags: PassFlags): World
    decreases ListSize(t) + ListSize(f), 1
  {
    FilteredNotLarger(t, flags);
    FilteredNotLarger(f, flags);
    var p := Partition(w, c, SourceContext(src), ts);
    var w1 := if p.0 != [] && t != [] then RunFiltered(w, env, Filtered(t, flags), src, p.0, flags) else w;
    if p.1 != [] && f != [] then RunFiltered(w1, env, Filtered(f, flags), src, p.1, flags) else w1
  }

  /** The loop over a filtered branch. */
  function RunFiltered(w: World, env: Env, es: seq<Effect>, src: ObjId, ts: seq<ObjId>, flags: PassFlags): World
    decreases ListSize(es), 0
  {
    if es == [] then w
    else
      var e := es[0];
      var w1 := if e.Conditional? then
                  assert ListSize(es) == 1 + ListSize(e.trueEffects) + ListSize(e.falseEffects) + ListSize(es[1..]);
                  CondFiltered(w, env, e.condition, e.trueEffects, e.falseEffects, src, ts, flags)
                else OnTargets(w, env, e, src, ts);
      RunFiltered(w1, env, es[1..], src, ts, flags)
  }

  // ----- Execute(targets_causes, accounting, flags) -----

  /** One record of the accounting map: why a meter moved, by how much, and to what. */
  datatype AccountingInfo = AccountingInfo(
    causeType: CauseType,
    specificCause: string,
    customLabel: string,
    sourceId: ObjId,
    meterChange: real,
    runningTotal: real
  )

  /** The accounting map: per object and meter, the records in the order the effects ran. */
  type Ledger = map<ObjId, map<MeterType, seq<AccountingInfo>>>

  /** What the engine updates: the universe and the accounting map. */
  datatype State = State(world: World, ledger: Ledger)

  /** The records of one meter of one object; none when nothing was recorded. */
  function Records(l: Ledger, id: ObjId, m: MeterType): seq<AccountingInfo>
  {
    if id in l && m in l[id] then l[id][m] else []
  }

  /** (*accounting_map)[id][m].push_back(info). */
  function Record(l: Ledger, id: ObjId, m: MeterType, info: AccountingInfo): (r: Ledger)
    ensures Records(r, id, m) == Records(l, id, m) + [info]
    ensures forall k, mm :: (k != id || mm != m) ==> Records(r, k, mm) == Records(l, k, mm)
  {
    var inner := if id in l then l[id] else map[];
    l[id := inner[m := Records(l, id, m) + [info]]]
  }

  /** The target-independent part of SetMeter's records: the cause, the label (the effect's own unless empty), the source. */
  function InfoFor(entry: TargetsEntry, lbl: string): (info: AccountingInfo)
    ensures info.customLabel == (if lbl == "" then entry.cause.customLabel else lbl)
    ensures info.sourceId == entry.sourceId && info.causeType == entry.cause.causeType
    ensures info.specificCause == entry.cause.specificCause
  {
    AccountingInfo(entry.cause.causeType, entry.cause.specificCause,
                   if lbl == "" then entry.cause.customLabel else lbl, entry.sourceId, 0.0, 0.0)
  }

  /**
   * SetMeter with accounting on one target: a target without the meter is
   * skipped; otherwise it is executed on its own, and one record of the
   * change and the new value joins the records of that meter of that target.
   */
  function AccountedStep(s: State, m: MeterType, v: ValueRef<real>, info: AccountingInfo, src: ObjId, t: ObjId): (r: State)
    ensures r.world == ApplySetMeter(s.world, m, v, TargetContext(src, t))
    ensures r.world.objects.Keys == s.world.objects.Keys
    ensures forall k {:trigger r.world.objects[k]} :: k in s.world.objects && k != t ==> r.world.objects[k] == s.world.objects[k]
    ensures !HasMeter(s.world, t, m) ==> r == s
    ensures HasMeter(s.world, t, m) ==>
              && HasMeter(r.world, t, m)
              && Records(r.ledger, t, m)
                 == Records(s.ledger, t, m) + [info.(meterChange := Meter(r.world, t, m) - Meter(s.world, t, m),
                                                     runningTotal := Meter(r.world, t, m))]
    ensures forall k, mm :: (k != t || mm != m) ==> Records(r.ledger, k, mm) == Records(s.ledger, k, mm)
  {
    if !HasMeter(s.world, t, m) then s
    else
      var before := Meter(s.world, t, m);
      var w1 := ApplySetMeter(s.world, m, v, TargetContext(src, t));
      var after := Meter(w1, t, m);
      State(w1, Record(s.ledger, t, m, info.(meterChange := after - before, runningTotal := after)))
  }

  lemma AccountedStepUnfold(s: State, m: MeterType, v: ValueRef<real>, info: AccountingInfo, src: ObjId, t: ObjId,
                            w1: World, before: real, after: real)
    requires HasMeter(s.world, t, m)
    requires before == Meter(s.world, t, m) && w1 == ApplySetMeter(s.world, m, v, TargetContext(src, t)) && after == Meter(w1, t, m)
    ensures AccountedStep(s, m, v, info, src, t)
         == State(w1, Record(s.ledger, t, m, info.(meterChange := after - before, runningTotal := after)))
  {
  }

  /** SetMeter with accounting: the targets one at a time. */
  function AccountedTargets(s: State, m: MeterType, v: ValueRef<real>, info: AccountingInfo, src: ObjId, ts: seq<ObjId>): State
    decreases |ts|
  {
    if ts == [] then s
    else AccountedTargets(AccountedStep(s, m, v, info, src, ts[0]), m, v, info, src, ts[1..])
  }

  /**
   * The flags on which each kind's Execute(targets_causes, ...) returns at
   * once: the meter effects on appearance and sitrep passes (SetEmpireMeter
   * also when empire meters are excluded), the sitrep effect on meter and
   * appearance passes, the texture effects on meter and sitrep passes,
   * every other effect on any restricted pass, and a Conditional never.
   */
  predicate Skipped(e: Effect, flags: PassFlags)
  {
    match e
    case SetMeter(_, _, _) => flags.onlyAppearance || flags.onlySitrep
    case SetShipPartMeter(_, _, _) => flags.onlyAppearance || flags.onlySitrep
    case SetEmpireMeter(_, _, _) => flags.onlyAppearance || flags.onlySitrep || !flags.includeEmpireMeter
    case GenerateSitRepMessage(_, _, _, _, _, _, _, _) => flags.onlyAppearance || flags.onlyMeter
    case SetOverlayTexture(_, _) => flags.onlySitrep || flags.onlyMeter
    case SetTexture(_) => flags.onlySitrep || flags.onlyMeter
    case Conditional(_, _, _) => false
    case _ => flags.onlyAppearance || flags.onlyMeter || flags.onlySitrep
  }

  /**
   * One (source, targets, cause) entry of any effect but a Conditional: the
   * source object as the universe has it now; SetMeter with accounting goes
   * target by target; the rest run as OnTargets.
   */
  function EntryStep(s: State, env: Env, e: Effect, entry: TargetsEntry, accounting: bool): State
  {
    var src := SourceId(s.world, entry.sourceId);
    if e.SetMeter? then
      if accounting then AccountedTargets(s, e.meter, e.value, InfoFor(entry, e.accountingLabel), src, entry.targets)
      else State(SetMeterBatch(s.world, env, e.meter, e.value, e.accountingLabel, src, entry.targets), s.ledger)
    else State(OnTargets(s.world, env, e, src, entry.targets), s.ledger)
  }

  /** The loop over the entries of targets_causes. */
  function EntriesPass(s: State, env: Env, e: Effect, entries: seq<TargetsEntry>, accounting: bool): State
    decreases |entries|
  {
    if entries == [] then s
    else EntriesPass(EntryStep(s, env, e, entries[0], accounting), env, e, entries[1..], accounting)
  }

  /** Conditional's own loop over the entries: its filtered branches for each source and its targets. */
  function ConditionalEntries(w: World, env: Env, c: Option<Condition>, t: seq<Effect>, f: seq<Effect>,
                              entries: seq<TargetsEntry>, flags: PassFlags): World
    decreases |entries|
  {
    if entries == [] then w
    else
      var src := SourceId(w, entries[0].sourceId);
      ConditionalEntries(CondFiltered(w, env, c, t, f, src, entries[0].targets, flags), env, c, t, f, entries[1..], flags)
  }

  /** One step of ConditionalEntries from position `i` of the entries. */
  lemma ConditionalEntriesStep(w: World, env: Env, c: Option<Condition>, t: seq<Effect>, f: seq<Effect>,
                               entries: seq<TargetsEntry>, i: nat, flags: PassFlags, w1: World)
    requires i < |entries|
    requires w1 == CondFiltered(w, env, c, t, f, SourceId(w, entries[i].sourceId), entries[i].targets, flags)
    ensures ConditionalEntries(w, env, c, t, f, entries[i..], flags) == ConditionalEntries(w1, env, c, t, f, entries[i + 1..], flags)
  {
    assert entries[i..][0] == entries[i] && entries[i..][1..] == entries[i + 1..];
  }

  /**
   * Execute(targets_causes, accounting_map, flags) of one effect: a
   * Conditional is never skipped and never records accounting; every other
   * kind returns at once on the flags it skips.
   */
  function EffectPass(s: State, env: Env, e: Effect, entries: seq<TargetsEntry>, accounting: bool, flags: PassFlags): State
  {
    if e.Conditional? then State(ConditionalEntries(s.world, env, e.condition, e.trueEffects, e.falseEffects, entries, flags), s.ledger)
    else if Skipped(e, flags) then s
    else EntriesPass(s, env, e, entries, accounting)
  }

  /** EffectsGroup::Execute: every effect of the group in turn, on all the entries. */
  function GroupPass(s: State, env: Env, es: seq<Effect>, entries: seq<TargetsEntry>, accounting: bool, flags: PassFlags): State
    decreases |es|
  {
    if es == [] then s
    else GroupPass(EffectPass(s, env, es[0], entries, accounting, flags), env, es[1..], entries, accounting, flags)
  }
}
