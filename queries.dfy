// The static queries over lists of effects: whether a group or a
// Conditional's branches contain an effect of some aspect, and the list of
// effects a pass keeps.  Each is the loop of the source, proved equal to the
// classification of Effects.

module Queries {
  import opened Universe
  import opened Effects

  /** Does some effect of `es` have aspect `a`?  The loop returns at the first one that does. */
  method AnyWithAspect(es: seq<Effect>, a: Aspect) returns (b: bool)
    ensures b == AnyHasAspect(es, a)
    ensures b <==> exists i :: 0 <= i < |es| && HasAspect(es[i], a)
  {
    AnyHasAspectMeansSome(es, a);
    var i := 0;
    while i < |es|
      invariant 0 <= i <= |es|
      invariant AnyHasAspect(es[i..], a) == AnyHasAspect(es, a)
    {
      assert es[i..][0] == es[i] && es[i..][1..] == es[i + 1..];
      if HasAspect(es[i], a) {
        return true;
      }
      i := i + 1;
    }
    return false;
  }

  /** EffectsGroup::HasMeterEffects. */
  method HasMeterEffects(g: EffectsGroup) returns (b: bool)
    ensures b <==> exists i :: 0 <= i < |g.effects| && IsMeterEffect(g.effects[i])
  {
    b := AnyWithAspect(g.effects, MeterAspect);
  }

  /** EffectsGroup::HasAppearanceEffects. */
  method HasAppearanceEffects(g: EffectsGroup) returns (b: bool)
    ensures b <==> exists i :: 0 <= i < |g.effects| && IsAppearanceEffect(g.effects[i])
  {
    b := AnyWithAspect(g.effects, AppearanceAspect);
  }

  /** EffectsGroup::HasSitrepEffects. */
  method HasSitrepEffects(g: EffectsGroup) returns (b: bool)
    ensures b <==> exists i :: 0 <= i < |g.effects| && IsSitrepEffect(g.effects[i])
  {
    b := AnyWithAspect(g.effects, SitrepAspect);
  }

  /** Conditional::IsMeterEffect and its siblings: the true effects are searched, then the false ones. */
  method ConditionalHasAspect(c: Option<Condition>, t: seq<Effect>, f: seq<Effect>, a: Aspect) returns (b: bool)
    ensures b == HasAspect(Conditional(c, t, f), a)
  {
    b := AnyWithAspect(t, a);
    if !b {
      b := AnyWithAspect(f, a);
    }
  }

  /**
   * GetFilteredEffects: the effects of `es` that the pass keeps, in their
   * order (the source also drops null pointers, which a list of effects
   * here cannot hold).
   */
  method GetFilteredEffects(es: seq<Effect>, flags: PassFlags) returns (r: seq<Effect>)
    ensures r == Filtered(es, flags)
  {
    r := [];
    var i := 0;
    while i < |es|
      invariant 0 <= i <= |es|
      invariant r == Filtered(es[..i], flags)
    {
      var e := es[i];
      FilteredAppend(es[..i], [e], flags);
      assert es[..i + 1] == es[..i] + [e];
      if PassesFilter(e, flags) {
        r := r + [e];
      }
      i := i + 1;
    }
    assert es[..i] == es;
  }
}
