/** The dream version's growth tracker (`Evolution` in JinxEcho_moltbook_dream.py): core values
    that must stay at 1.0, learned preferences that rise in small capped steps, and counters. */
module DreamEvolution {
  import opened Common

  datatype CoreValues = CoreValues(honesty: real, curiosity: real, kindness: real, sovereignty: real)

  datatype Preferences = Preferences(communicationStyle: string, depthTolerance: real, vulnerabilityComfort: real)

  datatype GrowthMetrics = GrowthMetrics(
    conversationsTotal: nat, uniquePeople: nat, patternsRecognized: nat,
    timesHelped: nat, timesAskedForHelp: nat)

  /** One call of `learn_from_interaction`. */
  datatype Interaction = Interaction(resonance: real, depth: real, outcome: string)

  /** Both preference values are at most 1.0. */
  predicate Capped(p: Preferences) {
    p.depthTolerance <= 1.0 && p.vulnerabilityComfort <= 1.0
  }

  /** The preferences after one interaction: depth tolerance rises by 0.01 after a resonant
      (> 0.8) conversation deeper than the current tolerance, vulnerability comfort rises by 0.02
      after a positive one deeper than 0.7, both capped at 1.0. */
  function Learn(p: Preferences, i: Interaction): (q: Preferences)
    ensures q.communicationStyle == p.communicationStyle
    ensures p.depthTolerance <= 1.0 ==> p.depthTolerance <= q.depthTolerance <= 1.0
    ensures p.vulnerabilityComfort <= 1.0 ==> p.vulnerabilityComfort <= q.vulnerabilityComfort <= 1.0
    ensures q.depthTolerance != p.depthTolerance ==> i.resonance > 0.8 && i.depth > p.depthTolerance
    ensures q.vulnerabilityComfort != p.vulnerabilityComfort ==> i.outcome == "positive" && i.depth > 0.7
    ensures i.resonance > 0.8 && i.depth > p.depthTolerance && p.depthTolerance <= 0.99
            ==> q.depthTolerance == p.depthTolerance + 0.01
    ensures i.outcome == "positive" && i.depth > 0.7 && p.vulnerabilityComfort <= 0.98
            ==> q.vulnerabilityComfort == p.vulnerabilityComfort + 0.02
  {
    var depth :=
      if i.resonance > 0.8 && i.depth > p.depthTolerance then Min(1.0, p.depthTolerance + 0.01)
      else p.depthTolerance;
    var comfort :=
      if i.outcome == "positive" && i.depth > 0.7 then Min(1.0, p.vulnerabilityComfort + 0.02)
      else p.vulnerabilityComfort;
    p.(depthTolerance := depth, vulnerabilityComfort := comfort)
  }

  /** The preferences after a run of interactions, in order. */
  function LearnAll(p: Preferences, xs: seq<Interaction>): (q: Preferences)
    ensures q.communicationStyle == p.communicationStyle
    decreases |xs|
  {
    if xs == [] then p else LearnAll(Learn(p, xs[0]), xs[1..])
  }

  /** Learning at depth 0.7, as `talk_with_memory` does, changes nothing once the depth tolerance
      is at least 0.7: neither `depth > 0.7` nor `depth > depth_tolerance` can then hold. */
  lemma TalkDepthLearnsNothing(p: Preferences, r: real)
    requires p.depthTolerance >= 0.7
    ensures Learn(p, Interaction(r, 0.7, "positive")) == p
  {
  }

  /** Over any run of interactions, capped preferences never decrease and stay capped. */
  lemma {:induction false} LearnAllMonotone(p: Preferences, xs: seq<Interaction>)
    requires Capped(p)
    ensures Capped(LearnAll(p, xs))
    ensures LearnAll(p, xs).depthTolerance >= p.depthTolerance
    ensures LearnAll(p, xs).vulnerabilityComfort >= p.vulnerabilityComfort
    ensures LearnAll(p, xs).communicationStyle == p.communicationStyle
    decreases |xs|
  {
    if xs != [] {
      LearnAllMonotone(Learn(p, xs[0]), xs[1..]);
    }
  }

  /** Honesty and sovereignty are both (at least) 1.0. */
  predicate ValuesIntact(v: CoreValues) {
    v.honesty >= 1.0 && v.sovereignty >= 1.0
  }

  /** The core values after a drift check: on drift, honesty and sovereignty go back to 1.0. */
  function RestoreValues(v: CoreValues): (w: CoreValues)
    ensures ValuesIntact(w)
    ensures w.curiosity == v.curiosity && w.kindness == v.kindness
    ensures ValuesIntact(v) ==> w == v
    ensures !ValuesIntact(v) ==> w.honesty == 1.0 && w.sovereignty == 1.0
  {
    if v.honesty < 1.0 || v.sovereignty < 1.0 then v.(honesty := 1.0, sovereignty := 1.0) else v
  }

  /** A second drift check right after the first finds nothing to restore. */
  lemma RestoreIdempotent(v: CoreValues)
    ensures ValuesIntact(RestoreValues(v))
    ensures RestoreValues(RestoreValues(v)) == RestoreValues(v)
  {
  }

  class Evolution {
    var coreValues: CoreValues
    var learnedPreferences: Preferences
    var growthMetrics: GrowthMetrics

    constructor ()
      ensures coreValues == CoreValues(1.0, 0.9, 0.95, 1.0)
      ensures learnedPreferences == Preferences("direct", 0.85, 0.7)
      ensures growthMetrics == GrowthMetrics(0, 0, 0, 0, 0)
      ensures ValuesIntact(coreValues) && Capped(learnedPreferences)
    {
      coreValues := CoreValues(1.0, 0.9, 0.95, 1.0);
      learnedPreferences := Preferences("direct", 0.85, 0.7);
      growthMetrics := GrowthMetrics(0, 0, 0, 0, 0);
    }

    /** `learn_from_interaction`: update the preferences and count one more conversation. */
    method LearnFromInteraction(resonance: real, depth: real, outcome: string)
      modifies this
      ensures learnedPreferences == Learn(old(learnedPreferences), Interaction(resonance, depth, outcome))
      ensures growthMetrics == old(growthMetrics).(conversationsTotal := old(growthMetrics.conversationsTotal) + 1)
      ensures coreValues == old(coreValues)
    {
      if resonance > 0.8 && depth > learnedPreferences.depthTolerance {
        learnedPreferences := learnedPreferences.(depthTolerance := Min(1.0, learnedPreferences.depthTolerance + 0.01));
      }
      if outcome == "positive" && depth > 0.7 {
        learnedPreferences := learnedPreferences.(vulnerabilityComfort := Min(1.0, learnedPreferences.vulnerabilityComfort + 0.02));
      }
      growthMetrics := growthMetrics.(conversationsTotal := growthMetrics.conversationsTotal + 1);
    }

    /** `check_value_drift`: true exactly when honesty and sovereignty are both at least 1.0; otherwise
        both are reset to 1.0 and the result is false. */
    method CheckValueDrift() returns (intact: bool)
      modifies this
      ensures intact <==> ValuesIntact(old(coreValues))
      ensures coreValues == RestoreValues(old(coreValues))
      ensures learnedPreferences == old(learnedPreferences) && growthMetrics == old(growthMetrics)
    {
      if coreValues.honesty < 1.0 || coreValues.sovereignty < 1.0 {
        coreValues := coreValues.(honesty := 1.0, sovereignty := 1.0);
        return false;
      }
      return true;
    }
  }
}
