// The effects engine as the source runs it: an object holding the universe
// and the accounting map, whose methods carry the loops of the batch
// Execute overloads.  Each method is proved to leave exactly the state the
// corresponding function of Batch describes.

module Engine {
  import opened Universe
  import opened Effects
  import opened Execution
  import opened Batch
  import opened Queries

  /** The effect of one element of a list is no larger than the list. */
  lemma {:induction false} ElementNotLarger(es: seq<Effect>, i: nat)
    requires i < |es|
    ensures EffectSize(es[i]) <= ListSize(es)
    decreases i
  {
    if i > 0 {
      ElementNotLarger(es[1..], i - 1);
      assert es[1..][i - 1] == es[i];
    }
  }

  class EffectsEngine {
    /** The universe the effects change. */
    var world: World
    /** The accounting map SetMeter appends to. */
    var ledger: Ledger
    /** What the engine consults but never changes: names, paths, random numbers. */
    const env: Env

    constructor(w: World, l: Ledger, e: Env)
      ensures world == w && ledger == l && env == e
    {
      world := w;
      ledger := l;
      env := e;
    }

    /** EffectBase::Execute(context, targets): the single-target Execute for each target in turn. */
    method RunBase(e: Effect, src: ObjId, ts: seq<ObjId>)
      modifies this
      ensures world == BaseBatch(old(world), env, e, src, ts) && ledger == old(ledger)
    {
      var i := 0;
      while i < |ts|
        invariant 0 <= i <= |ts|
        invariant BaseBatch(world, env, e, src, ts[i..]) == BaseBatch(old(world), env, e, src, ts)
        invariant ledger == old(ledger)
      {
        assert ts[i..][0] == ts[i] && ts[i..][1..] == ts[i + 1..];
        world := Apply(world, env, e, TargetContext(src, ts[i]));
        i := i + 1;
      }
    }

    /** Meter::SetCurrent on every target that has the meter. */
    method AssignMeter(m: MeterType, val: real, ts: seq<ObjId>)
      modifies this
      ensures world == AssignAll(old(world), m, val, ts) && ledger == old(ledger)
    {
      var i := 0;
      while i < |ts|
        invariant 0 <= i <= |ts|
        invariant AssignAll(world, m, val, ts[i..]) == AssignAll(old(world), m, val, ts)
        invariant ledger == old(ledger)
      {
        assert ts[i..][0] == ts[i] && ts[i..][1..] == ts[i + 1..];
        if HasMeter(world, ts[i], m) {
          world := SetMeterValue(world, ts[i], m, val);
        }
        i := i + 1;
      }
    }

    /** Meter::AddToCurrent on every target that has the meter. */
    method IncrementMeter(m: MeterType, delta: real, ts: seq<ObjId>)
      modifies this
      ensures world == IncrementAll(old(world), m, delta, ts) && ledger == old(ledger)
    {
      var i := 0;
      while i < |ts|
        invariant 0 <= i <= |ts|
        invariant IncrementAll(world, m, delta, ts[i..]) == IncrementAll(old(world), m, delta, ts)
        invariant ledger == old(ledger)
      {
        assert ts[i..][0] == ts[i] && ts[i..][1..] == ts[i + 1..];
        var t := ts[i];
        if HasMeter(world, t, m) {
          var current := Meter(world, t, m);
          world := SetMeterValue(world, t, m, current + delta);
        }
        i := i + 1;
      }
    }

    /** SetMeter::Execute(context, targets). */
    method SetMeterTargets(m: MeterType, v: ValueRef<real>, lbl: string, src: ObjId, ts: seq<ObjId>)
      modifies this
      ensures world == SetMeterBatch(old(world), env, m, v, lbl, src, ts) && ledger == old(ledger)
    {
      if ts == [] {
        return;
      }
      if v.targetInvariant {
        AssignMeter(m, v.eval(world, SourceContext(src)), ts);
      } else if v.simpleIncrement {
        if v.operation.None? {
          RunBase(SetMeter(m, v, lbl), src, ts);
          return;
        }
        var d := IncrementOf(v.operation.value);
        if d.None? {
          RunBase(SetMeter(m, v, lbl), src, ts);
          return;
        }
        IncrementMeter(m, d.value, ts);
      } else {
        RunBase(SetMeter(m, v, lbl), src, ts);
      }
    }

    /** Ship::GetPartMeter + SetCurrent on every ship with that part meter. */
    method AssignPartMeter(key: (MeterType, string), val: real, ts: seq<ObjId>)
      modifies this
      ensures world == AssignPartAll(old(world), key, val, ts) && ledger == old(ledger)
    {
      var i := 0;
      while i < |ts|
        invariant 0 <= i <= |ts|
        invariant AssignPartAll(world, key, val, ts[i..]) == AssignPartAll(old(world), key, val, ts)
        invariant ledger == old(ledger)
      {
        assert ts[i..][0] == ts[i] && ts[i..][1..] == ts[i + 1..];
        if HasPartMeter(world, ts[i], key) {
          world := SetPartMeterValue(world, ts[i], key, val);
        }
        i := i + 1;
      }
    }

    /** Ship::GetPartMeter + AddToCurrent on every ship with that part meter. */
    method IncrementPartMeter(key: (MeterType, string), delta: real, ts: seq<ObjId>)
      modifies this
      ensures world == IncrementPartAll(old(world), key, delta, ts) && ledger == old(ledger)
    {
      var i := 0;
      while i < |ts|
        invariant 0 <= i <= |ts|
        invariant IncrementPartAll(world, key, delta, ts[i..]) == IncrementPartAll(old(world), key, delta, ts)
        invariant ledger == old(ledger)
      {
        assert ts[i..][0] == ts[i] && ts[i..][1..] == ts[i + 1..];
        var t := ts[i];
        if HasPartMeter(world, t, key) {
          world := SetPartMeterValue(world, t, key, world.objects[t].partMeters[key] + delta);
        }
        i := i + 1;
      }
    }

    /** SetShipPartMeter::Execute(context, targets). */
    method SetShipPartMeterTargets(m: MeterType, name: Option<ValueRef<string>>, value: Option<ValueRef<real>>,
                                   src: ObjId, ts: seq<ObjId>)
      modifies this
      ensures world == ShipPartBatch(old(world), env, m, name, value, src, ts) && ledger == old(ledger)
    {
      if ts == [] || name.None? || value.None? {
        return;
      }
      var key := (m, name.value.eval(world, SourceContext(src)));
      var v := value.value;
      if v.targetInvariant {
        AssignPartMeter(key, v.eval(world, SourceContext(src)), ts);
      } else if v.simpleIncrement {
        if v.operation.None? {
          return;
        }
        var d := IncrementOf(v.operation.value);
        if d.None? {
          return;
        }
        IncrementPartMeter(key, d.value, ts);
      } else {
        RunBase(SetShipPartMeter(m, name, value), src, ts);
      }
    }

    /** Execute(context, targets) of any effect. */
    method RunOnTargets(e: Effect, src: ObjId, ts: seq<ObjId>)
      modifies this
      ensures world == OnTargets(old(world), env, e, src, ts) && ledger == old(ledger)
      decreases EffectSize(e), 1
    {
      if e.SetMeter? {
        SetMeterTargets(e.meter, e.value, e.accountingLabel, src, ts);
      } else if e.SetShipPartMeter? {
        SetShipPartMeterTargets(e.partMeter, e.partName, e.partValue, src, ts);
      } else if e.Conditional? {
        ConditionalTargets(e.condition, e.trueEffects, e.falseEffects, src, ts);
      } else {
        RunBase(e, src, ts);
      }
    }

    /** Conditional::Execute(context, targets): one split of the targets, then each branch on its part. */
    method ConditionalTargets(c: Option<Condition>, t: seq<Effect>, f: seq<Effect>, src: ObjId, ts: seq<ObjId>)
      modifies this
      ensures world == CondOnTargets(old(world), env, c, t, f, src, ts) && ledger == old(ledger)
      decreases ListSize(t) + ListSize(f) + 1, 0
    {
      if ts == [] {
        return;
      }
      var p := Partition(world, c, SourceContext(src), ts);
      if p.0 != [] && t != [] {
        RunListOnTargets(t, src, p.0);
      }
      if p.1 != [] && f != [] {
        RunListOnTargets(f, src, p.1);
      }
    }

    /** The effects of a branch on the same targets, one after the other. */
    method RunListOnTargets(es: seq<Effect>, src: ObjId, ts: seq<ObjId>)
      modifies this
      ensures world == ListOnTargets(old(world), env, es, src, ts) && ledger == old(ledger)
      decreases ListSize(es), 2
    {
      var i := 0;
      while i < |es|
        invariant 0 <= i <= |es|
        invariant ListOnTargets(world, env, es[i..], src, ts) == ListOnTargets(old(world), env, es, src, ts)
        invariant ledger == old(ledger)
      {
        assert es[i..][0] == es[i] && es[i..][1..] == es[i + 1..];
        ElementNotLarger(es, i);
        RunOnTargets(es[i], src, ts);
        i := i + 1;
      }
    }

    /**
     * Conditional::Execute(context, targets, accounting, flags) with the
     * branches already filtered for the pass: one split of the targets, the
     * surviving effects of each branch on its part.
     */
    method ConditionalSplit(c: Option<Condition>, t: seq<Effect>, f: seq<Effect>, ft: seq<Effect>, ff: seq<Effect>,
                            src: ObjId, ts: seq<ObjId>, flags: PassFlags)
      requires ft == Filtered(t, flags) && ff == Filtered(f, flags)
      modifies this
      ensures world == CondFiltered(old(world), env, c, t, f, src, ts, flags) && ledger == old(ledger)
      decreases ListSize(t) + ListSize(f), 1
    {
      FilteredNotLarger(t, flags);
      FilteredNotLarger(f, flags);
      var p := Partition(world, c, SourceContext(src), ts);
      if p.0 != [] && t != [] {
        RunFilteredList(ft, src, p.0, flags);
      }
      if p.1 != [] && f != [] {
        RunFilteredList(ff, src, p.1, flags);
      }
    }

    /** A nested Conditional on a filtered pass: its branches are filtered anew. */
    method ConditionalFiltered(c: Option<Condition>, t: seq<Effect>, f: seq<Effect>, src: ObjId, ts: seq<ObjId>, flags: PassFlags)
      modifies this
      ensures world == CondFiltered(old(world), env, c, t, f, src, ts, flags) && ledger == old(ledger)
      decreases ListSize(t) + ListSize(f), 2
    {
      var ft := GetFilteredEffects(t, flags);
      var ff := GetFilteredEffects(f, flags);
      ConditionalSplit(c, t, f, ft, ff, src, ts, flags);
    }

    /** The loop over a filtered branch: nested Conditionals keep the flags, the rest run on the targets. */
    method RunFilteredList(es: seq<Effect>, src: ObjId, ts: seq<ObjId>, flags: PassFlags)
      modifies this
      ensures world == RunFiltered(old(world), env, es, src, ts, flags) && ledger == old(ledger)
      decreases ListSize(es), 0
    {
      var i := 0;
      while i < |es|
        invariant 0 <= i <= |es|
        invariant RunFiltered(world, env, es[i..], src, ts, flags) == RunFiltered(old(world), env, es, src, ts, flags)
        invariant ledger == old(ledger)
      {
        assert es[i..][0] == es[i] && es[i..][1..] == es[i + 1..];
        ElementNotLarger(es, i);
        var e := es[i];
        if e.Conditional? {
          ConditionalFiltered(e.condition, e.trueEffects, e.falseEffects, src, ts, flags);
        } else {
          RunOnTargets(e, src, ts);
        }
        i := i + 1;
      }
    }

    /** SetMeter with accounting: each target with the meter is executed on its own and its change recorded. */
    method AccountedSetMeter(m: MeterType, v: ValueRef<real>, info: AccountingInfo, src: ObjId, ts: seq<ObjId>)
      modifies this
      ensures State(world, ledger) == AccountedTargets(State(old(world), old(ledger)), m, v, info, src, ts)
    {
      var i := 0;
      while i < |ts|
        invariant 0 <= i <= |ts|
        invariant AccountedTargets(State(world, ledger), m, v, info, src, ts[i..])
               == AccountedTargets(State(old(world), old(ledger)), m, v, info, src, ts)
      {
        assert ts[i..][0] == ts[i] && ts[i..][1..] == ts[i + 1..];
        var t := ts[i];
        var w, l := world, ledger;
        if HasMeter(w, t, m) {
          var before := Meter(w, t, m);
          var w1 := ApplySetMeter(w, m, v, TargetContext(src, t));
          var after := Meter(w1, t, m);
          AccountedStepUnfold(State(w, l), m, v, info, src, t, w1, before, after);
          world, ledger := w1, Record(l, t, m, info.(meterChange := after - before, runningTotal := after));
        } else {
          assert AccountedStep(State(w, l), m, v, info, src, t) == State(w, l);
        }
        i := i + 1;
      }
    }

    /** One entry of targets_causes for an effect other than a Conditional. */
    method ExecuteEntry(e: Effect, entry: TargetsEntry, accounting: bool)
      modifies this
      ensures State(world, ledger) == EntryStep(State(old(world), old(ledger)), env, e, entry, accounting)
    {
      var src := SourceId(world, entry.sourceId);
      if e.SetMeter? && accounting {
        AccountedSetMeter(e.meter, e.value, InfoFor(entry, e.accountingLabel), src, entry.targets);
      } else if e.SetMeter? {
        SetMeterTargets(e.meter, e.value, e.accountingLabel, src, entry.targets);
      } else {
        RunOnTargets(e, src, entry.targets);
      }
    }

    /** Conditional's loop over targets_causes: the branches are filtered once, then split for each entry. */
    method ExecuteConditional(c: Option<Condition>, t: seq<Effect>, f: seq<Effect>, entries: seq<TargetsEntry>, flags: PassFlags)
      modifies this
      ensures world == ConditionalEntries(old(world), env, c, t, f, entries, flags) && ledger == old(ledger)
    {
      var ft := GetFilteredEffects(t, flags);
      var ff := GetFilteredEffects(f, flags);
      var i := 0;
      while i < |entries|
        invariant 0 <= i <= |entries|
        invariant ConditionalEntries(world, env, c, t, f, entries[i..], flags)
               == ConditionalEntries(old(world), env, c, t, f, entries, flags)
        invariant ledger == old(ledger)
      {
        var w0 := world;
        var src := SourceId(w0, entries[i].sourceId);
        ConditionalSplit(c, t, f, ft, ff, src, entries[i].targets, flags);
        ConditionalEntriesStep(w0, env, c, t, f, entries, i, flags, world);
        i := i + 1;
      }
    }

    /** The loop over targets_causes of an effect other than a Conditional. */
    method ExecuteEntries(e: Effect, entries: seq<TargetsEntry>, accounting: bool)
      modifies this
      ensures State(world, ledger) == EntriesPass(State(old(world), old(ledger)), env, e, entries, accounting)
    {
      var i := 0;
      while i < |entries|
        invariant 0 <= i <= |entries|
        invariant EntriesPass(State(world, ledger), env, e, entries[i..], accounting)
               == EntriesPass(State(old(world), old(ledger)), env, e, entries, accounting)
      {
        assert entries[i..][0] == entries[i] && entries[i..][1..] == entries[i + 1..];
        ExecuteEntry(e, entries[i], accounting);
        i := i + 1;
      }
    }

    /** Execute(targets_causes, accounting_map, flags) of one effect: a Conditional is never skipped. */
    method ExecuteEffect(e: Effect, entries: seq<TargetsEntry>, accounting: bool, flags: PassFlags)
      modifies this
      ensures State(world, ledger) == EffectPass(State(old(world), old(ledger)), env, e, entries, accounting, flags)
    {
      if e.Conditional? {
        ExecuteConditional(e.condition, e.trueEffects, e.falseEffects, entries, flags);
      } else if !Skipped(e, flags) {
        ExecuteEntries(e, entries, accounting);
      }
    }

    /** EffectsGroup::Execute: each effect of the group on all the entries, in order. */
    method ExecuteGroup(g: EffectsGroup, entries: seq<TargetsEntry>, accounting: bool, flags: PassFlags)
      modifies this
      ensures State(world, ledger) == GroupPass(State(old(world), old(ledger)), env, g.effects, entries, accounting, flags)
    {
      var es := g.effects;
      var i := 0;
      while i < |es|
        invariant 0 <= i <= |es|
        invariant GroupPass(State(world, ledger), env, es[i..], entries, accounting, flags)
               == GroupPass(State(old(world), old(ledger)), env, es, entries, accounting, flags)
      {
        assert es[i..][0] == es[i] && es[i..][1..] == es[i + 1..];
        ExecuteEffect(es[i], entries, accounting, flags);
        i := i + 1;
      }
    }
  }
}
