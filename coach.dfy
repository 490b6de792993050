/** The feedback coach (`ego_shield_coach` in main.py): each raw feedback tag
    is replaced by an encouraging tip from a fixed table. */
module Coach {

  /** Tip given for any tag the table does not know. */
  const DefaultTip: string := "Keep leveling up! You got this."

  /** The tags the table knows. */
  const KnownTags: set<string> := {"weight", "hair", "breath", "hygiene"}

  /** The fixed coaching table. */
  const WeightTip: string := "GOAL: Let's hit a 1-mile walk today! Staying active keeps your Spazz energy high. \U{1F525}"
  const HairTip: string := "STYLE TIP: A fresh trim or a quick groom today will boost your match rate by 40%!"
  const BreathTip: string := "PRO-TIP: Keep some mints handy; first impressions in the Spazz Zone are everything. \U{1F36C}"
  const HygieneTip: string := "AI TIP: Looking sharp is 50% of the Rizz. Fresh fit, fresh hair, fresh starts!"
  const CoachingTips: map<string, string> :=
    map["weight" := WeightTip, "hair" := HairTip, "breath" := BreathTip, "hygiene" := HygieneTip]

  /** Dictionary lookup with a default, like Python's `dict.get`. */
  function TipFor(tag: string): string
  {
    if tag in CoachingTips then CoachingTips[tag] else DefaultTip
  }

  /** Tips for the given tags, one per tag and in the same order; a known tag
      gets its table entry and only an unknown tag gets the default tip. */
  function EgoShieldCoach(rawFeedback: seq<string>): (tips: seq<string>)
    ensures |tips| == |rawFeedback|
    ensures forall i :: 0 <= i < |rawFeedback| && rawFeedback[i] in KnownTags ==>
      rawFeedback[i] in CoachingTips && tips[i] == CoachingTips[rawFeedback[i]]
    ensures forall i :: 0 <= i < |rawFeedback| ==>
      (tips[i] == DefaultTip <==> rawFeedback[i] !in KnownTags)
  {
    assert CoachingTips.Keys == KnownTags;
    assert CoachingTips.Values == {WeightTip, HairTip, BreathTip, HygieneTip};
    assert DefaultTip !in CoachingTips.Values by {
      assert |DefaultTip| < |WeightTip| && |DefaultTip| < |HairTip|;
      assert |DefaultTip| < |BreathTip| && |DefaultTip| < |HygieneTip|;
    }
    seq(|rawFeedback|, i requires 0 <= i < |rawFeedback| => TipFor(rawFeedback[i]))
  }

  /** Coaching works tag by tag: coaching two batches of feedback one after
      the other gives the same tips as coaching them together. */
  lemma EgoShieldCoachAppend(xs: seq<string>, ys: seq<string>)
    ensures EgoShieldCoach(xs + ys) == EgoShieldCoach(xs) + EgoShieldCoach(ys)
  {
    var l, r := EgoShieldCoach(xs + ys), EgoShieldCoach(xs) + EgoShieldCoach(ys);
    forall i | 0 <= i < |xs + ys|
      ensures l[i] == r[i]
    {
      if i < |xs| {
        assert (xs + ys)[i] == xs[i];
      } else {
        assert (xs + ys)[i] == ys[i - |xs|];
      }
    }
  }
}
