// What the batch paths promise: the pass flags skip exactly what
// GetFilteredEffects filters out, the meter fast paths agree with the
// general per-target path when their value is honest about its flags (and
// can disagree otherwise), SetMeter's accounting records each change once,
// and a full pass runs a Conditional as its two-argument Execute does.

module BatchRules {
  import opened Universe
  import opened Effects
  import opened Execution
  import opened Batch

  // ----- the per-kind skip checks and GetFilteredEffects -----

  /**
   * For every kind but Conditional, the early return of
   * Execute(targets_causes, ..., flags) happens exactly when
   * GetFilteredEffects would drop the effect from the pass.
   */
  lemma SkipAgreesWithFilter(e: Effect, flags: PassFlags)
    requires !e.Conditional?
    ensures Skipped(e, flags) <==> !PassesFilter(e, flags)
  {
  }

  /** A skipped effect leaves the universe and the accounting map alone. */
  lemma SkippedEffectChangesNothing(s: State, env: Env, e: Effect, entries: seq<TargetsEntry>, accounting: bool, flags: PassFlags)
    requires !e.Conditional? && !PassesFilter(e, flags)
    ensures EffectPass(s, env, e, entries, accounting, flags) == s
  {
    SkipAgreesWithFilter(e, flags);
  }

  /** Is the pass restricted to effects with aspect `a`? */
  predicate Restricts(flags: PassFlags, a: Aspect)
  {
    match a
    case MeterAspect => flags.onlyMeter
    case AppearanceAspect => flags.onlyAppearance
    case SitrepAspect => flags.onlySitrep
  }

  /** Branches without the pass's aspect are filtered down to nothing and run nothing, whatever the targets. */
  lemma CondFilteredOfEmpty(w: World, env: Env, c: Option<Condition>, t: seq<Effect>, f: seq<Effect>,
                            src: ObjId, ts: seq<ObjId>, flags: PassFlags, a: Aspect)
    requires Restricts(flags, a) && !AnyHasAspect(t, a) && !AnyHasAspect(f, a)
    ensures CondFiltered(w, env, c, t, f, src, ts, flags) == w
  {
    FilteredEmptyWithoutAspect(t, flags);
    FilteredEmptyWithoutAspect(f, flags);
  }

  /** A Conditional whose branches lack the pass's aspect: no entry changes the universe. */
  lemma {:induction false} EmptyConditionalPass(w: World, env: Env, c: Option<Condition>, t: seq<Effect>, f: seq<Effect>,
                                                entries: seq<TargetsEntry>, flags: PassFlags, a: Aspect)
    requires Restricts(flags, a) && !AnyHasAspect(t, a) && !AnyHasAspect(f, a)
    ensures ConditionalEntries(w, env, c, t, f, entries, flags) == w
    decreases |entries|
  {
    if entries != [] {
      CondFilteredOfEmpty(w, env, c, t, f, SourceId(w, entries[0].sourceId), entries[0].targets, flags, a);
      EmptyConditionalPass(w, env, c, t, f, entries[1..], flags, a);
    }
  }

  /**
   * A group none of whose effects has the aspect a pass is restricted to
   * changes nothing on that pass: every effect returns at once or finds
   * nothing to run.  This is what entitles a caller to skip a group whose
   * HasMeterEffects, HasAppearanceEffects or HasSitrepEffects answers
   * false.
   */
  lemma {:induction false} GroupWithoutAspectChangesNothing(s: State, env: Env, es: seq<Effect>, entries: seq<TargetsEntry>,
                                                            accounting: bool, flags: PassFlags, a: Aspect)
    requires Restricts(flags, a) && !AnyHasAspect(es, a)
    ensures GroupPass(s, env, es, entries, accounting, flags) == s
    decreases |es|
  {
    if es != [] {
      var e := es[0];
      assert !HasAspect(e, a) && !AnyHasAspect(es[1..], a);
      match e {
        case Conditional(c, t, f) =>
          EmptyConditionalPass(s.world, env, c, t, f, entries, flags, a);
        case _ =>
          SkippedEffectChangesNothing(s, env, e, entries, accounting, flags);
      }
      GroupWithoutAspectChangesNothing(s, env, es[1..], entries, accounting, flags, a);
    }
  }

  // ----- the meter fast paths -----

  /** SetMeter's single-target Execute. */
  lemma SetMeterStep(w: World, env: Env, m: MeterType, v: ValueRef<real>, lbl: string, ctx: Context)
    ensures Apply(w, env, SetMeter(m, v, lbl), ctx) == ApplySetMeter(w, m, v, ctx)
  {
  }

  /** A value that adds `delta` to the current value it is given, whatever the universe and the context. */
  ghost predicate AddsConstant(v: ValueRef<real>, delta: real)
  {
    forall w: World, s: ObjId, t: ObjId, x: real :: v.eval(w, Context(s, t, Some(RealValue(x)))) == x + delta
  }

  lemma {:induction false} IncrementAllIsGeneralPath(w: World, env: Env, m: MeterType, v: ValueRef<real>, lbl: string,
                                                     src: ObjId, ts: seq<ObjId>, delta: real)
    requires AddsConstant(v, delta)
    ensures IncrementAll(w, m, delta, ts) == BaseBatch(w, env, SetMeter(m, v, lbl), src, ts)
    decreases |ts|
  {
    if ts != [] {
      var t := ts[0];
      SetMeterStep(w, env, m, v, lbl, TargetContext(src, t));
      var w1 := if HasMeter(w, t, m) then SetMeterValue(w, t, m, Meter(w, t, m) + delta) else w;
      if HasMeter(w, t, m) {
        assert v.eval(w, Context(src, t, Some(RealValue(Meter(w, t, m))))) == Meter(w, t, m) + delta;
      }
      assert Apply(w, env, SetMeter(m, v, lbl), TargetContext(src, t)) == w1;
      IncrementAllIsGeneralPath(w1, env, m, v, lbl, src, ts[1..], delta);
    }
  }

  /**
   * The simple-increment fast path of SetMeter (PLUS or MINUS a constant)
   * ends where executing each target on its own ends, provided the value
   * really is that increment of the current value.
   */
  lemma IncrementFastPathAgrees(w: World, env: Env, m: MeterType, v: ValueRef<real>, lbl: string, src: ObjId, ts: seq<ObjId>)
    requires !v.targetInvariant && v.simpleIncrement && v.operation.Some?
    requires IncrementOf(v.operation.value).Some? && AddsConstant(v, IncrementOf(v.operation.value).value)
    ensures SetMeterBatch(w, env, m, v, lbl, src, ts) == BaseBatch(w, env, SetMeter(m, v, lbl), src, ts)
  {
    if ts != [] {
      IncrementAllIsGeneralPath(w, env, m, v, lbl, src, ts, IncrementOf(v.operation.value).value);
    }
  }

  /** A value that depends neither on the target nor on the current value it is given. */
  ghost predicate IgnoresTarget(v: ValueRef<real>, src: ObjId)
  {
    forall w: World, t: ObjId, iv: Option<Value> :: v.eval(w, Context(src, t, iv)) == v.eval(w, SourceContext(src))
  }

  /** A value that does not read meter `m` of any object. */
  ghost predicate BlindTo(v: ValueRef<real>, m: MeterType, src: ObjId)
  {
    forall w: World, k: ObjId, x: real ::
      HasMeter(w, k, m) ==> v.eval(SetMeterValue(w, k, m, x), SourceContext(src)) == v.eval(w, SourceContext(src))
  }

  lemma {:induction false} AssignAllIsGeneralPath(w: World, env: Env, m: MeterType, v: ValueRef<real>, lbl: string,
                                                  src: ObjId, ts: seq<ObjId>)
    requires IgnoresTarget(v, src) && BlindTo(v, m, src)
    ensures AssignAll(w, m, v.eval(w, SourceContext(src)), ts) == BaseBatch(w, env, SetMeter(m, v, lbl), src, ts)
    decreases |ts|
  {
    if ts != [] {
      var t := ts[0];
      var val := v.eval(w, SourceContext(src));
      SetMeterStep(w, env, m, v, lbl, TargetContext(src, t));
      var w1 := if HasMeter(w, t, m) then SetMeterValue(w, t, m, val) else w;
      if HasMeter(w, t, m) {
        assert v.eval(w, Context(src, t, Some(RealValue(Meter(w, t, m))))) == val;
        assert v.eval(w1, SourceContext(src)) == val;
      }
      assert Apply(w, env, SetMeter(m, v, lbl), TargetContext(src, t)) == w1;
      AssignAllIsGeneralPath(w1, env, m, v, lbl, src, ts[1..]);
    }
  }

  /**
   * The target-invariant fast path of SetMeter (one evaluation without a
   * target, assigned to every target) ends where executing each target on
   * its own ends, provided the value ignores the target and does not read
   * the meter being set.
   */
  lemma TargetInvariantFastPathAgrees(w: World, env: Env, m: MeterType, v: ValueRef<real>, lbl: string, src: ObjId, ts: seq<ObjId>)
    requires v.targetInvariant && IgnoresTarget(v, src) && BlindTo(v, m, src)
    ensures SetMeterBatch(w, env, m, v, lbl, src, ts) == BaseBatch(w, env, SetMeter(m, v, lbl), src, ts)
  {
    if ts != [] {
      AssignAllIsGeneralPath(w, env, m, v, lbl, src, ts);
    }
  }

  /** "The source's meter m, plus one", flagged target-invariant: it ignores the target but reads meter m. */
  function SourceMeterPlusOne(m: MeterType): (v: ValueRef<real>)
    ensures v.targetInvariant
  {
    ValueRef((w: World, c: Context) => (if HasMeter(w, c.source, m) then Meter(w, c.source, m) else 0.0) + 1.0,
             true, false, false, None)
  }

  /** The value ignores the target and the current value it is given. */
  lemma SourceMeterPlusOneIgnoresTarget(m: MeterType, a: ObjId)
    ensures IgnoresTarget(SourceMeterPlusOne(m), a)
  {
  }

  /** Assigning to two targets that have the meter. */
  lemma AssignTwo(w: World, m: MeterType, x: real, a: ObjId, b: ObjId)
    requires a != b && HasMeter(w, a, m) && HasMeter(w, b, m)
    ensures AssignAll(w, m, x, [a, b]) == SetMeterValue(SetMeterValue(w, a, m, x), b, m, x)
  {
    assert [a, b][1..] == [b] && [b][1..] == [];
    var w1 := SetMeterValue(w, a, m, x);
    assert HasMeter(w1, b, m);
    assert AssignAll(w1, m, x, [b]) == SetMeterValue(w1, b, m, x);
  }

  /** On the fast path, both targets get the source's meter as it was, plus one. */
  lemma FastPathUsesValueBefore(w: World, env: Env, m: MeterType, lbl: string, a: ObjId, b: ObjId)
    requires HasMeter(w, a, m) && Meter(w, a, m) == 0.0
    ensures SetMeterBatch(w, env, m, SourceMeterPlusOne(m), lbl, a, [a, b]) == AssignAll(w, m, 1.0, [a, b])
  {
    assert SourceMeterPlusOne(m).eval(w, SourceContext(a)) == 1.0;
  }

  /** On the per-target path, the second target sees the source's meter already set. */
  lemma GeneralPathUsesValueAfter(w: World, env: Env, m: MeterType, lbl: string, a: ObjId, b: ObjId)
    requires a != b && HasMeter(w, a, m) && HasMeter(w, b, m) && Meter(w, a, m) == 0.0
    ensures BaseBatch(w, env, SetMeter(m, SourceMeterPlusOne(m), lbl), a, [a, b])
         == SetMeterValue(SetMeterValue(w, a, m, 1.0), b, m, 2.0)
  {
    var v := SourceMeterPlusOne(m);
    var e := SetMeter(m, v, lbl);
    SetMeterStep(w, env, m, v, lbl, TargetContext(a, a));
    var w1 := SetMeterValue(w, a, m, 1.0);
    assert Apply(w, env, e, TargetContext(a, a)) == w1;
    SetMeterStep(w1, env, m, v, lbl, TargetContext(a, b));
    var w2 := SetMeterValue(w1, b, m, 2.0);
    assert Apply(w1, env, e, TargetContext(a, b)) == w2;
    assert BaseBatch(w1, env, e, a, [b]) == w2 by { assert [b][1..] == []; }
    assert BaseBatch(w, env, e, a, [a, b]) == BaseBatch(w1, env, e, a, [b]) by { assert [a, b][1..] == [b]; }
  }

  /**
   * Ignoring the target is not enough for the fast path to agree: with the
   * source among the targets and a value reading the meter being set, the
   * two paths give the second target different values.
   */
  lemma TargetInvariantFastPathCanDiffer(w: World, env: Env, m: MeterType, lbl: string, a: ObjId, b: ObjId)
    requires a != b && HasMeter(w, a, m) && HasMeter(w, b, m) && Meter(w, a, m) == 0.0
    ensures IgnoresTarget(SourceMeterPlusOne(m), a)
    ensures SetMeterBatch(w, env, m, SourceMeterPlusOne(m), lbl, a, [a, b])
         != BaseBatch(w, env, SetMeter(m, SourceMeterPlusOne(m), lbl), a, [a, b])
  {
    SourceMeterPlusOneIgnoresTarget(m, a);
    FastPathUsesValueBefore(w, env, m, lbl, a, b);
    AssignTwo(w, m, 1.0, a, b);
    GeneralPathUsesValueAfter(w, env, m, lbl, a, b);
    var w1 := SetMeterValue(w, a, m, 1.0);
    assert Meter(SetMeterValue(w1, b, m, 1.0), b, m) != Meter(SetMeterValue(w1, b, m, 2.0), b, m);
  }

  /**
   * SetShipPartMeter's quirk: a simple increment that is no operation, or
   * has an operator other than PLUS and MINUS, changes nothing, where
   * SetMeter with the same value falls back to executing each target.
   */
  lemma ShipPartIncrementWithoutOperatorDoesNothing(w: World, env: Env, m: MeterType, name: Option<ValueRef<string>>,
                                                    value: Option<ValueRef<real>>, src: ObjId, ts: seq<ObjId>, lbl: string)
    requires name.Some? && value.Some? && !value.value.targetInvariant && value.value.simpleIncrement
    requires value.value.operation.None? || IncrementOf(value.value.operation.value).None?
    ensures ShipPartBatch(w, env, m, name, value, src, ts) == w
    ensures SetMeterBatch(w, env, m, value.value, lbl, src, ts) == BaseBatch(w, env, SetMeter(m, value.value, lbl), src, ts)
  {
  }

  /** SetShipPartMeter's single-target Execute, as the dispatcher runs it. */
  lemma SetShipPartMeterStep(w: World, env: Env, m: MeterType, name: Option<ValueRef<string>>, value: Option<ValueRef<real>>,
                             ctx: Context)
    ensures Apply(w, env, SetShipPartMeter(m, name, value), ctx) == ApplySetShipPartMeter(w, m, name, value, ctx)
  {
  }

  /**
   * A part name that is `n` however it is evaluated for this source: the
   * per-target path evaluates it for every target in the universe as it is
   * then, the fast paths once, with the source alone.
   */
  ghost predicate NameIs(name: ValueRef<string>, n: string, src: ObjId)
  {
    forall w: World, t: ObjId, iv: Option<Value> :: name.eval(w, Context(src, t, iv)) == n
  }

  /** A value that does not read part meter `key` of any ship. */
  ghost predicate BlindToPart(v: ValueRef<real>, key: (MeterType, string), src: ObjId)
  {
    forall w: World, k: ObjId, x: real ::
      HasPartMeter(w, k, key) ==> v.eval(SetPartMeterValue(w, k, key, x), SourceContext(src)) == v.eval(w, SourceContext(src))
  }

  lemma {:induction false} AssignPartAllIsGeneralPath(w: World, env: Env, m: MeterType, name: ValueRef<string>, n: string,
                                                      v: ValueRef<real>, src: ObjId, ts: seq<ObjId>)
    requires NameIs(name, n, src) && IgnoresTarget(v, src) && BlindToPart(v, (m, n), src)
    ensures AssignPartAll(w, (m, n), v.eval(w, SourceContext(src)), ts)
            == BaseBatch(w, env, SetShipPartMeter(m, Some(name), Some(v)), src, ts)
    decreases |ts|
  {
    if ts != [] {
      var t := ts[0];
      var key := (m, n);
      var val := v.eval(w, SourceContext(src));
      SetShipPartMeterStep(w, env, m, Some(name), Some(v), TargetContext(src, t));
      assert name.eval(w, TargetContext(src, t)) == n;
      var w1 := if HasPartMeter(w, t, key) then SetPartMeterValue(w, t, key, val) else w;
      if HasPartMeter(w, t, key) {
        assert v.eval(w, Context(src, t, Some(RealValue(w.objects[t].partMeters[key])))) == val;
        assert v.eval(w1, SourceContext(src)) == val;
      }
      assert Apply(w, env, SetShipPartMeter(m, Some(name), Some(v)), TargetContext(src, t)) == w1;
      AssignPartAllIsGeneralPath(w1, env, m, name, n, v, src, ts[1..]);
    }
  }

  lemma {:induction false} IncrementPartAllIsGeneralPath(w: World, env: Env, m: MeterType, name: ValueRef<string>, n: string,
                                                         v: ValueRef<real>, src: ObjId, ts: seq<ObjId>, delta: real)
    requires NameIs(name, n, src) && AddsConstant(v, delta)
    ensures IncrementPartAll(w, (m, n), delta, ts) == BaseBatch(w, env, SetShipPartMeter(m, Some(name), Some(v)), src, ts)
    decreases |ts|
  {
    if ts != [] {
      var t := ts[0];
      var key := (m, n);
      SetShipPartMeterStep(w, env, m, Some(name), Some(v), TargetContext(src, t));
      assert name.eval(w, TargetContext(src, t)) == n;
      var w1 := if HasPartMeter(w, t, key) then SetPartMeterValue(w, t, key, w.objects[t].partMeters[key] + delta) else w;
      if HasPartMeter(w, t, key) {
        var cur := w.objects[t].partMeters[key];
        assert v.eval(w, Context(src, t, Some(RealValue(cur)))) == cur + delta;
      }
      assert Apply(w, env, SetShipPartMeter(m, Some(name), Some(v)), TargetContext(src, t)) == w1;
      IncrementPartAllIsGeneralPath(w1, env, m, name, n, v, src, ts[1..], delta);
    }
  }

  /**
   * The target-invariant fast path of SetShipPartMeter ends where executing
   * each target on its own ends, provided the part name is fixed and the
   * value ignores the target and does not read the part meter being set.
   */
  lemma ShipPartTargetInvariantFastPathAgrees(w: World, env: Env, m: MeterType, name: ValueRef<string>, n: string,
                                              v: ValueRef<real>, src: ObjId, ts: seq<ObjId>)
    requires v.targetInvariant && NameIs(name, n, src) && IgnoresTarget(v, src) && BlindToPart(v, (m, n), src)
    ensures ShipPartBatch(w, env, m, Some(name), Some(v), src, ts) == BaseBatch(w, env, SetShipPartMeter(m, Some(name), Some(v)), src, ts)
  {
    if ts != [] {
      assert name.eval(w, SourceContext(src)) == n;
      AssignPartAllIsGeneralPath(w, env, m, name, n, v, src, ts);
    }
  }

  /**
   * The simple-increment fast path of SetShipPartMeter (PLUS or MINUS)
   * ends where executing each target on its own ends, provided the part
   * name is fixed and the value really is that increment.
   */
  lemma ShipPartIncrementFastPathAgrees(w: World, env: Env, m: MeterType, name: ValueRef<string>, n: string,
                                        v: ValueRef<real>, src: ObjId, ts: seq<ObjId>)
    requires !v.targetInvariant && v.simpleIncrement && v.operation.Some? && NameIs(name, n, src)
    requires IncrementOf(v.operation.value).Some? && AddsConstant(v, IncrementOf(v.operation.value).value)
    ensures ShipPartBatch(w, env, m, Some(name), Some(v), src, ts) == BaseBatch(w, env, SetShipPartMeter(m, Some(name), Some(v)), src, ts)
  {
    if ts != [] {
      assert name.eval(w, SourceContext(src)) == n;
      IncrementPartAllIsGeneralPath(w, env, m, name, n, v, src, ts, IncrementOf(v.operation.value).value);
    }
  }

  // ----- SetMeter with accounting -----

  /** Accounting changes nothing about what SetMeter does to the universe: the targets are executed one by one. */
  lemma {:induction false} AccountedWorldIsGeneralPath(s: State, env: Env, m: MeterType, v: ValueRef<real>, lbl: string,
                                                       info: AccountingInfo, src: ObjId, ts: seq<ObjId>)
    ensures AccountedTargets(s, m, v, info, src, ts).world == BaseBatch(s.world, env, SetMeter(m, v, lbl), src, ts)
    decreases |ts|
  {
    if ts != [] {
      SetMeterStep(s.world, env, m, v, lbl, TargetContext(src, ts[0]));
      AccountedWorldIsGeneralPath(AccountedStep(s, m, v, info, src, ts[0]), env, m, v, lbl, info, src, ts[1..]);
    }
  }

  /** The accounting loop leaves an object that is not among its targets as it was. */
  lemma {:induction false} AccountedKeepsOther(s: State, m: MeterType, v: ValueRef<real>, info: AccountingInfo, src: ObjId,
                                               ts: seq<ObjId>, k: ObjId)
    requires k in s.world.objects && k !in ts
    ensures var r := AccountedTargets(s, m, v, info, src, ts);
            k in r.world.objects && r.world.objects[k] == s.world.objects[k]
    decreases |ts|
  {
    if ts != [] {
      AccountedKeepsOther(AccountedStep(s, m, v, info, src, ts[0]), m, v, info, src, ts[1..], k);
    }
  }

  /** The accounting loop removes no meter. */
  lemma {:induction false} AccountedKeepsMeter(s: State, m: MeterType, v: ValueRef<real>, info: AccountingInfo, src: ObjId,
                                               ts: seq<ObjId>, k: ObjId)
    requires HasMeter(s.world, k, m)
    ensures HasMeter(AccountedTargets(s, m, v, info, src, ts).world, k, m)
    decreases |ts|
  {
    if ts != [] {
      var s1 := AccountedStep(s, m, v, info, src, ts[0]);
      if k != ts[0] {
        assert s1.world.objects[k] == s.world.objects[k];
      }
      AccountedKeepsMeter(s1, m, v, info, src, ts[1..], k);
    }
  }

  /** No record is added for another meter, or for an object that is no target. */
  lemma {:induction false} AccountedRecordsUnchanged(s: State, m: MeterType, v: ValueRef<real>, info: AccountingInfo, src: ObjId,
                                                     ts: seq<ObjId>, k: ObjId, mm: MeterType)
    requires mm != m || k !in ts
    ensures Records(AccountedTargets(s, m, v, info, src, ts).ledger, k, mm) == Records(s.ledger, k, mm)
    decreases |ts|
  {
    if ts != [] {
      assert k !in ts ==> k !in ts[1..];
      AccountedRecordsUnchanged(AccountedStep(s, m, v, info, src, ts[0]), m, v, info, src, ts[1..], k, mm);
    }
  }

  /** No record is added for a target without the meter. */
  lemma {:induction false} AccountedSkipsMissingMeter(s: State, m: MeterType, v: ValueRef<real>, info: AccountingInfo, src: ObjId,
                                                      ts: seq<ObjId>, k: ObjId)
    requires !HasMeter(s.world, k, m)
    ensures Records(AccountedTargets(s, m, v, info, src, ts).ledger, k, m) == Records(s.ledger, k, m)
    decreases |ts|
  {
    if ts != [] {
      var s1 := AccountedStep(s, m, v, info, src, ts[0]);
      assert !HasMeter(s1.world, k, m) by {
        if k in s.world.objects && k != ts[0] {
          assert s1.world.objects[k] == s.world.objects[k];
        }
      }
      AccountedSkipsMissingMeter(s1, m, v, info, src, ts[1..], k);
    }
  }

  /**
   * Object `k`'s meter `m` exists after the loop and its records grew by
   * exactly one: the cause of `info`, the change of the meter from `s` to
   * `r`, and its value in `r`.
   */
  predicate RecordedOnce(s: State, r: State, k: ObjId, m: MeterType, info: AccountingInfo)
    requires HasMeter(s.world, k, m)
  {
    && HasMeter(r.world, k, m)
    && Records(r.ledger, k, m)
       == Records(s.ledger, k, m) + [info.(meterChange := Meter(r.world, k, m) - Meter(s.world, k, m),
                                           runningTotal := Meter(r.world, k, m))]
  }

  /** A record made by `s1` survives a later state `r` that changes neither the object nor its records. */
  lemma RecordedOnceLater(s: State, s1: State, r: State, k: ObjId, m: MeterType, info: AccountingInfo)
    requires HasMeter(s.world, k, m) && RecordedOnce(s, s1, k, m, info)
    requires k in r.world.objects && r.world.objects[k] == s1.world.objects[k]
    requires Records(r.ledger, k, m) == Records(s1.ledger, k, m)
    ensures RecordedOnce(s, r, k, m, info)
  {
  }

  /** A record made after an earlier state `s1` that changed neither the object nor its records. */
  lemma RecordedOnceEarlier(s: State, s1: State, r: State, k: ObjId, m: MeterType, info: AccountingInfo)
    requires HasMeter(s.world, k, m) && k in s1.world.objects && s1.world.objects[k] == s.world.objects[k]
    requires Records(s1.ledger, k, m) == Records(s.ledger, k, m)
    requires RecordedOnce(s1, r, k, m, info)
    ensures RecordedOnce(s, r, k, m, info)
  {
  }

  /** Targets listed once each. */
  predicate Distinct(ts: seq<ObjId>)
  {
    forall i, j :: 0 <= i < j < |ts| ==> ts[i] != ts[j]
  }

  lemma DistinctTail(ts: seq<ObjId>)
    requires ts != [] && Distinct(ts)
    ensures Distinct(ts[1..]) && ts[0] !in ts[1..]
  {
    forall i, j | 0 <= i < j < |ts[1..]| ensures ts[1..][i] != ts[1..][j] { assert ts[1..][i] == ts[i + 1]; }
    forall i | 0 <= i < |ts[1..]| ensures ts[1..][i] != ts[0] { assert ts[1..][i] == ts[i + 1]; }
  }

  /** The first target, when it has the meter and is not listed again, gets its record and keeps it. */
  lemma AccountedRecordOfFirst(s: State, m: MeterType, v: ValueRef<real>, info: AccountingInfo, src: ObjId, ts: seq<ObjId>)
    requires ts != [] && ts[0] !in ts[1..] && HasMeter(s.world, ts[0], m)
    ensures RecordedOnce(s, AccountedTargets(s, m, v, info, src, ts), ts[0], m, info)
  {
    var t := ts[0];
    var s1 := AccountedStep(s, m, v, info, src, t);
    var r := AccountedTargets(s1, m, v, info, src, ts[1..]);
    AccountedKeepsOther(s1, m, v, info, src, ts[1..], t);
    AccountedRecordsUnchanged(s1, m, v, info, src, ts[1..], t, m);
    RecordedOnceLater(s, s1, r, t, m, info);
  }

  /** A target listed once that has the meter gets exactly one record: the cause, the change of the meter, its new value. */
  lemma {:induction false} AccountedRecordOf(s: State, m: MeterType, v: ValueRef<real>, info: AccountingInfo, src: ObjId,
                                             ts: seq<ObjId>, k: ObjId)
    requires Distinct(ts) && k in ts && HasMeter(s.world, k, m)
    ensures var r := AccountedTargets(s, m, v, info, src, ts);
            RecordedOnce(s, r, k, m, info)
    decreases |ts|
  {
    DistinctTail(ts);
    if k == ts[0] {
      AccountedRecordOfFirst(s, m, v, info, src, ts);
    } else {
      var s1 := AccountedStep(s, m, v, info, src, ts[0]);
      assert s1.world.objects[k] == s.world.objects[k];
      AccountedRecordOf(s1, m, v, info, src, ts[1..], k);
      RecordedOnceEarlier(s, s1, AccountedTargets(s1, m, v, info, src, ts[1..]), k, m, info);
    }
  }

  /**
   * With accounting, every target (listed once) that has the meter gets
   * exactly one new record for it, holding the entry's cause, the change of
   * the meter and its new value; no other meter and no other object gets one.
   */
  lemma AccountedRecords(s: State, m: MeterType, v: ValueRef<real>, info: AccountingInfo, src: ObjId, ts: seq<ObjId>)
    requires Distinct(ts)
    ensures var r := AccountedTargets(s, m, v, info, src, ts);
            forall k :: k in ts && HasMeter(s.world, k, m) ==>
              RecordedOnce(s, r, k, m, info)
    ensures var r := AccountedTargets(s, m, v, info, src, ts);
            forall k, mm :: (mm != m || k !in ts || !HasMeter(s.world, k, m)) ==> Records(r.ledger, k, mm) == Records(s.ledger, k, mm)
  {
    forall k | k in ts && HasMeter(s.world, k, m) {
      AccountedRecordOf(s, m, v, info, src, ts, k);
    }
    forall k, mm | mm != m || k !in ts || !HasMeter(s.world, k, m)
      ensures Records(AccountedTargets(s, m, v, info, src, ts).ledger, k, mm) == Records(s.ledger, k, mm)
    {
      if mm != m || k !in ts {
        AccountedRecordsUnchanged(s, m, v, info, src, ts, k, mm);
      } else {
        AccountedSkipsMissingMeter(s, m, v, info, src, ts, k);
      }
    }
  }

  // ----- Conditional -----

  /**
   * On a full pass nothing is filtered out, so Conditional's execution on a
   * pass is its two-argument Execute: the true effects on the matches, then
   * the false effects on the rest.
   */
  lemma {:induction false} CondFilteredFullPass(w: World, env: Env, c: Option<Condition>, t: seq<Effect>, f: seq<Effect>,
                                                src: ObjId, ts: seq<ObjId>)
    ensures CondFiltered(w, env, c, t, f, src, ts, FullPass) == CondOnTargets(w, env, c, t, f, src, ts)
    decreases ListSize(t) + ListSize(f), 1
  {
    FullPassKeepsAll(t);
    FullPassKeepsAll(f);
    var p := Partition(w, c, SourceContext(src), ts);
    var w1 := if p.0 != [] && t != [] then ListOnTargets(w, env, t, src, p.0) else w;
    var w2 := if p.1 != [] && f != [] then ListOnTargets(w1, env, f, src, p.1) else w1;
    if p.0 != [] && t != [] {
      RunFilteredFullPass(w, env, t, src, p.0);
    }
    if p.1 != [] && f != [] {
      RunFilteredFullPass(w1, env, f, src, p.1);
    }
    assert CondFiltered(w, env, c, t, f, src, ts, FullPass) == w2;
    if ts == [] {
      assert p.0 == [] && p.1 == [];
    }
  }

  /** The loop over a branch on a full pass is the plain loop over the branch. */
  lemma {:induction false} RunFilteredFullPass(w: World, env: Env, es: seq<Effect>, src: ObjId, ts: seq<ObjId>)
    ensures RunFiltered(w, env, es, src, ts, FullPass) == ListOnTargets(w, env, es, src, ts)
    decreases ListSize(es), 0
  {
    if es != [] {
      var w1 := OnTargets(w, env, es[0], src, ts);
      match es[0] {
        case Conditional(c, t, f) =>
          assert ListSize(es) == 1 + ListSize(t) + ListSize(f) + ListSize(es[1..]);
          CondFilteredFullPass(w, env, c, t, f, src, ts);
          assert w1 == CondOnTargets(w, env, c, t, f, src, ts);
        case _ =>
      }
      RunFilteredFullPass(w1, env, es[1..], src, ts);
    }
  }

  /** A Conditional records nothing in the accounting map, not even for the SetMeter effects in its branches. */
  lemma ConditionalRecordsNothing(s: State, env: Env, c: Option<Condition>, t: seq<Effect>, f: seq<Effect>,
                                  entries: seq<TargetsEntry>, accounting: bool, flags: PassFlags)
    ensures EffectPass(s, env, Conditional(c, t, f), entries, accounting, flags).ledger == s.ledger
  {
  }

  /** Without accounting no effect records anything. */
  lemma {:induction false} EntriesWithoutAccounting(s: State, env: Env, e: Effect, entries: seq<TargetsEntry>)
    ensures EntriesPass(s, env, e, entries, false).ledger == s.ledger
    decreases |entries|
  {
    if entries != [] {
      EntriesWithoutAccounting(EntryStep(s, env, e, entries[0], false), env, e, entries[1..]);
    }
  }

  /** A group executed without accounting leaves the accounting map as it was. */
  lemma {:induction false} GroupWithoutAccounting(s: State, env: Env, es: seq<Effect>, entries: seq<TargetsEntry>, flags: PassFlags)
    ensures GroupPass(s, env, es, entries, false, flags).ledger == s.ledger
    decreases |es|
  {
    if es != [] {
      var s1 := EffectPass(s, env, es[0], entries, false, flags);
      if !es[0].Conditional? && !Skipped(es[0], flags) {
        EntriesWithoutAccounting(s, env, es[0], entries);
      }
      GroupWithoutAccounting(s1, env, es[1..], entries, flags);
    }
  }
}
