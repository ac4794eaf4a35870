// The effect tree of FreeOrion's content scripts: every effect kind the
// engine executes, the effects group that bundles them, the static
// classification each effect reports (meter / empire meter / appearance /
// sitrep / conditional), and the per-pass filter applied to the branches of
// a Conditional.

module Effects {
  import opened Universe

  datatype Effect =
    | NoOp
    | SetMeter(meter: MeterType, value: ValueRef<real>, accountingLabel: string)
    | SetShipPartMeter(partMeter: MeterType, partName: Option<ValueRef<string>>, partValue: Option<ValueRef<real>>)
    | SetEmpireMeter(meterEmpire: ValueRef<int>, empireMeter: string, empireValue: ValueRef<real>)
    | SetEmpireStockpile(stockpileEmpire: ValueRef<int>, stockpile: ResourceType, stockpileValue: ValueRef<real>)
    | SetEmpireCapital(capitalEmpire: ValueRef<int>)
    | SetPlanetType(newType: ValueRef<PlanetType>)
    | SetPlanetSize(newSize: ValueRef<PlanetSize>)
    | SetSpecies(speciesName: ValueRef<string>)
    | SetOwner(newOwner: ValueRef<int>)
    | CreateField(fieldType: Option<ValueRef<string>>, fieldX: Option<ValueRef<real>>, fieldY: Option<ValueRef<real>>,
                  fieldSize: Option<ValueRef<real>>, fieldName: Option<ValueRef<string>>, fieldAfter: seq<Effect>)
    | CreateSystem(systemType: Option<ValueRef<StarType>>, systemX: Option<ValueRef<real>>, systemY: Option<ValueRef<real>>,
                   systemName: Option<ValueRef<string>>, systemAfter: seq<Effect>)
    | Destroy
    | AddSpecial(specialName: Option<ValueRef<string>>, capacity: Option<ValueRef<real>>)
    | RemoveSpecial(removedSpecial: Option<ValueRef<string>>)
    | AddStarlanes(laneEndpoints: Condition)
    | RemoveStarlanes(removedEndpoints: Condition)
    | SetStarType(newStarType: ValueRef<StarType>)
    | SetDestination(locations: Condition)
    | SetAggression(aggressive: bool)
    | Victory(reason: string)
    | GenerateSitRepMessage(messageString: string, icon: string, messageParameters: seq<(string, ValueRef<string>)>,
                            recipient: Option<ValueRef<int>>, sitrepAffiliation: Affiliation,
                            sitrepCondition: Option<Condition>, sitrepLabel: string, stringtableLookup: bool)
    | SetOverlayTexture(overlay: string, overlaySize: Option<ValueRef<real>>)
    | SetTexture(texture: string)
    | SetVisibility(vis: Visibility, visAffiliation: Affiliation, visEmpire: Option<ValueRef<int>>, visObjects: Option<Condition>)
    | Conditional(condition: Option<Condition>, trueEffects: seq<Effect>, falseEffects: seq<Effect>)

  datatype EffectsGroup = EffectsGroup(
    scope: Condition,
    activation: Option<Condition>,
    stackingGroup: string,
    effects: seq<Effect>,
    accountingLabel: string,
    priority: int,
    description: string
  )

  /** Why a set of targets is affected: cause type, the specific cause and a custom label. */
  datatype EffectCause = EffectCause(causeType: CauseType, specificCause: string, customLabel: string)

  /** One entry of TargetsCauses: the source object, its targets, and the cause. */
  datatype TargetsEntry = TargetsEntry(sourceId: ObjId, targets: seq<ObjId>, cause: EffectCause)

  /** The four flags of an effects pass. */
  datatype PassFlags = PassFlags(onlyMeter: bool, onlyAppearance: bool, includeEmpireMeter: bool, onlySitrep: bool)

  /** The flags of a full pass where every effect runs. */
  const FullPass := PassFlags(false, false, true, false)

  // ----- static classification -----

  datatype Aspect = MeterAspect | AppearanceAspect | SitrepAspect

  /**
   * IsMeterEffect / IsAppearanceEffect / IsSitrepEffect.  The concrete kinds
   * that override the base answer "false" say true; a Conditional says true
   * when any effect of either branch does.
   */
  predicate HasAspect(e: Effect, a: Aspect)
    decreases e
  {
    match e
    case SetMeter(_, _, _) => a == MeterAspect
    case SetShipPartMeter(_, _, _) => a == MeterAspect
    case SetEmpireMeter(_, _, _) => a == MeterAspect
    case GenerateSitRepMessage(_, _, _, _, _, _, _, _) => a == SitrepAspect
    case SetOverlayTexture(_, _) => a == AppearanceAspect
    case SetTexture(_) => a == AppearanceAspect
    case Conditional(_, t, f) => AnyHasAspect(t, a) || AnyHasAspect(f, a)
    case _ => false
  }

  predicate AnyHasAspect(es: seq<Effect>, a: Aspect)
    decreases es
  {
    |es| > 0 && (HasAspect(es[0], a) || AnyHasAspect(es[1..], a))
  }

  predicate IsMeterEffect(e: Effect) { HasAspect(e, MeterAspect) }
  predicate IsAppearanceEffect(e: Effect) { HasAspect(e, AppearanceAspect) }
  predicate IsSitrepEffect(e: Effect) { HasAspect(e, SitrepAspect) }

  /** Only SetEmpireMeter answers true; a Conditional keeps the base answer. */
  predicate IsEmpireMeterEffect(e: Effect) { e.SetEmpireMeter? }

  predicate IsConditionalEffect(e: Effect) { e.Conditional? }

  lemma {:induction false} AnyHasAspectMeansSome(es: seq<Effect>, a: Aspect)
    ensures AnyHasAspect(es, a) <==> exists i :: 0 <= i < |es| && HasAspect(es[i], a)
    decreases es
  {
    if |es| > 0 {
      AnyHasAspectMeansSome(es[1..], a);
      if HasAspect(es[0], a) {
      } else if AnyHasAspect(es[1..], a) {
        var i :| 0 <= i < |es[1..]| && HasAspect(es[1..][i], a);
        assert HasAspect(es[i + 1], a);
      } else {
        forall i | 0 <= i < |es| ensures !HasAspect(es[i], a) {
          if i > 0 { assert es[i] == es[1..][i - 1]; }
        }
      }
    }
  }

  /** A Conditional reports an aspect exactly when one of the effects in its branches does. */
  lemma ConditionalAspect(c: Option<Condition>, t: seq<Effect>, f: seq<Effect>, a: Aspect)
    ensures HasAspect(Conditional(c, t, f), a) <==>
            (exists i :: 0 <= i < |t| && HasAspect(t[i], a)) || (exists i :: 0 <= i < |f| && HasAspect(f[i], a))
  {
    AnyHasAspectMeansSome(t, a);
    AnyHasAspectMeansSome(f, a);
  }

  /** An empire-meter effect is also a meter effect. */
  lemma EmpireMeterIsMeter(e: Effect)
    requires IsEmpireMeterEffect(e)
    ensures IsMeterEffect(e) && !IsAppearanceEffect(e) && !IsSitrepEffect(e)
  {
  }

  // ----- GetFilteredEffects -----

  /** The per-effect filter of GetFilteredEffects for one pass. */
  predicate PassesFilter(e: Effect, f: PassFlags)
  {
    && !(f.onlyMeter && !IsMeterEffect(e))
    && !(f.onlyAppearance && !IsAppearanceEffect(e))
    && !(f.onlySitrep && !IsSitrepEffect(e))
    && !(!f.includeEmpireMeter && IsEmpireMeterEffect(e))
  }

  /** The effects of a branch that a pass runs, in their original order. */
  function Filtered(es: seq<Effect>, f: PassFlags): (r: seq<Effect>)
    ensures |r| <= |es|
    ensures forall i :: 0 <= i < |r| ==> PassesFilter(r[i], f)
    decreases es
  {
    if es == [] then []
    else if PassesFilter(es[0], f) then [es[0]] + Filtered(es[1..], f)
    else Filtered(es[1..], f)
  }

  /** Filtering keeps order: it distributes over concatenation. */
  lemma {:induction false} FilteredAppend(a: seq<Effect>, b: seq<Effect>, f: PassFlags)
    ensures Filtered(a + b, f) == Filtered(a, f) + Filtered(b, f)
    decreases a
  {
    if a != [] {
      assert (a + b)[0] == a[0];
      assert (a + b)[1..] == a[1..] + b;
      FilteredAppend(a[1..], b, f);
    } else {
      assert a + b == b;
    }
  }

  /** An effect survives the filter exactly when it is in the branch and passes. */
  lemma {:induction false} FilteredMembership(es: seq<Effect>, f: PassFlags, e: Effect)
    ensures e in Filtered(es, f) <==> e in es && PassesFilter(e, f)
    decreases es
  {
    if es != [] {
      FilteredMembership(es[1..], f, e);
      assert es == [es[0]] + es[1..];
    }
  }

  /** A filter every effect passes changes nothing. */
  lemma {:induction false} FilteredAllPass(es: seq<Effect>, f: PassFlags)
    requires forall i :: 0 <= i < |es| ==> PassesFilter(es[i], f)
    ensures Filtered(es, f) == es
    decreases es
  {
    if es != [] {
      FilteredAllPass(es[1..], f);
    }
  }

  /** On the full pass no effect is filtered out. */
  lemma FullPassKeepsAll(es: seq<Effect>)
    ensures Filtered(es, FullPass) == es
  {
    FilteredAllPass(es, FullPass);
  }

  /** A pass restricted to one aspect keeps nothing of a branch without that aspect. */
  lemma {:induction false} FilteredEmptyWithoutAspect(es: seq<Effect>, f: PassFlags)
    requires (f.onlyMeter && !AnyHasAspect(es, MeterAspect))
          || (f.onlyAppearance && !AnyHasAspect(es, AppearanceAspect))
          || (f.onlySitrep && !AnyHasAspect(es, SitrepAspect))
    ensures Filtered(es, f) == []
    decreases es
  {
    if es != [] {
      FilteredEmptyWithoutAspect(es[1..], f);
    }
  }
}
