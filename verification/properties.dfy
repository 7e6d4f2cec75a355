/**
 Properties of the recommendation engine: key selection is total and unique,
 moisture takes precedence, low-nutrient classification and its tie-break,
 high versus balanced, the order of the two adjustments, and which inputs
 each output depends on.
 */
module EngineProperties {
  import opened Domain
  import opened Strings
  import opened RuleTable
  import opened Engine

  /** The seven templates name seven different fertilizers. */
  lemma TemplateFertilizersDistinct(k1: Key, k2: Key)
    ensures Template(k1).fertilizer == Template(k2).fertilizer <==> k1 == k2
  {
  }

  /** Exactly one key satisfies the selection rules, and it is the one the engine picks. */
  lemma SelectKeyUnique(r: Reading, key: Key)
    ensures Chosen(r, key) <==> key == SelectKey(r)
  {
  }

  /**
   Moisture outside the band fixes the whole answer: nutrients, soil and crop
   are not consulted, and the template is returned unchanged.
   */
  lemma MoisturePrecedence(r1: Reading, soil1: Soil, crop1: Crop, r2: Reading, soil2: Soil, crop2: Crop)
    requires r1.m == r2.m
    requires !MoistureInRange(r1.m)
    ensures SelectKey(r1) == (if r1.m < DryMoisture then MoistureLow else MoistureHigh)
    ensures Recommend(r1, soil1, crop1) == Recommend(r2, soil2, crop2) == Template(SelectKey(r1))
  {
  }

  /**
   Inside the moisture band a low-nutrient key is chosen exactly when the
   smallest nutrient is at or below the low threshold, and the nutrient it
   names is then low and a minimum of the three.
   */
  lemma LowNutrientSoundComplete(r: Reading)
    requires MoistureInRange(r.m)
    ensures SelectKey(r) in {NLow, PLow, KLow} <==> Min3(r.n, r.p, r.k) <= LowNutrient
    ensures SelectKey(r) == NLow ==> r.n <= LowNutrient && r.n <= r.p && r.n <= r.k
    ensures SelectKey(r) == PLow ==> r.p <= LowNutrient && r.p <= r.n && r.p <= r.k
    ensures SelectKey(r) == KLow ==> r.k <= LowNutrient && r.k <= r.n && r.k <= r.p
  {
  }

  /** Ties among low minimal nutrients go to N before P, and to P before K. */
  lemma TieBreakOrder(r: Reading)
    requires MoistureInRange(r.m)
    requires Min3(r.n, r.p, r.k) <= LowNutrient
    ensures r.n == Min3(r.n, r.p, r.k) ==> SelectKey(r) == NLow
    ensures r.p == Min3(r.n, r.p, r.k) && r.n != r.p ==> SelectKey(r) == PLow
    ensures r.k == Min3(r.n, r.p, r.k) && r.n != r.k && r.p != r.k ==> SelectKey(r) == KLow
  {
  }

  /**
   Inside the moisture band with no low nutrient, the key is High_NPK when
   all three nutrients reach the high threshold and balanced otherwise.
   */
  lemma HighVersusBalanced(r: Reading)
    requires MoistureInRange(r.m)
    requires Min3(r.n, r.p, r.k) > LowNutrient
    ensures SelectKey(r) in {HighNPK, NPKBalanced}
    ensures SelectKey(r) == HighNPK <==> r.n >= HighNutrient && r.p >= HighNutrient && r.k >= HighNutrient
  {
  }

  /**
   For N_Low on sandy soil the slow-release fertilizer is returned whatever
   the crop, even where the crop adjustment had already chosen high-grade urea.
   */
  lemma SandyOverridesCrop(r: Reading, crop: Crop)
    requires SelectKey(r) == NLow
    ensures Recommend(r, Sandy, crop).fertilizer == SlowReleaseN
    ensures crop in {Rice, Maize} ==> CropAdjust(NLow, crop, Template(NLow)).fertilizer == HighGradeUrea
    ensures Recommend(r, Sandy, crop).reason[|Recommend(r, Sandy, crop).reason| - 1] == SandyWarning
  {
  }

  /**
   The order of the adjustments matters: with the soil rule first, N_Low on
   sandy soil for maize would end with high-grade urea instead.
   */
  lemma AdjustmentOrderMatters(r: Reading)
    requires SelectKey(r) == NLow
    ensures CropAdjust(NLow, Maize, SoilAdjust(NLow, Sandy, Template(NLow))).fertilizer == HighGradeUrea
    ensures Recommend(r, Sandy, Maize).fertilizer == SlowReleaseN
  {
  }

  /**
   Each output depends only on the inputs its rules consult: for P_Low the
   crop is irrelevant, for K_Low the soil is, and for the other four keys
   both are.
   */
  lemma IrrelevantInputs(r: Reading, soil1: Soil, crop1: Crop, soil2: Soil, crop2: Crop)
    ensures SelectKey(r) == PLow ==> Recommend(r, soil1, crop1) == Recommend(r, soil1, crop2)
    ensures SelectKey(r) == KLow ==> Recommend(r, soil1, crop1) == Recommend(r, soil2, crop1)
    ensures SelectKey(r) !in {NLow, PLow, KLow} ==> Recommend(r, soil1, crop1) == Recommend(r, soil2, crop2)
  {
  }

  /**
   The reason has one sentence per rule that fired: the template's, then the
   crop note if the crop rule fired, then the soil note if the soil rule fired.
   */
  lemma ReasonSentenceCount(r: Reading, soil: Soil, crop: Crop)
    ensures |Recommend(r, soil, crop).reason|
      == 1 + (if CropRuleFires(SelectKey(r), crop) then 1 else 0)
           + (if SoilRuleFires(SelectKey(r), soil) then 1 else 0)
  {
  }

  /** Worked cases of key selection: the three-way tie, balanced, high, and dry soil with no nutrients. */
  lemma WorkedKeys()
    ensures SelectKey(Reading(20.0, 20.0, 20.0, 50.0)) == NLow
    ensures SelectKey(Reading(50.0, 50.0, 50.0, 50.0)) == NPKBalanced
    ensures SelectKey(Reading(70.0, 70.0, 70.0, 50.0)) == HighNPK
    ensures SelectKey(Reading(0.0, 0.0, 0.0, 10.0)) == MoistureLow
  {
  }

  /** Worked case of the crop override: N_Low for rice gives urea and a reason naming rice. */
  lemma WorkedCropOverride()
    ensures Recommend(Reading(10.0, 50.0, 50.0, 50.0), Loamy, Rice).fertilizer == HighGradeUrea
    ensures Contains(GetRecommendation(Reading(10.0, 50.0, 50.0, 50.0), Loamy, Rice).1, "Rice")
  {
    var r := Reading(10.0, 50.0, 50.0, 50.0);
    assert SelectKey(r) == NLow;
    assert CropName(Rice) == "Rice";
  }

  /** Worked cases of the soil rule: sand over the maize override, and the clay caution. */
  lemma WorkedSoilOverrides()
    ensures Recommend(Reading(10.0, 50.0, 50.0, 50.0), Sandy, Maize).fertilizer == SlowReleaseN
    ensures Recommend(Reading(50.0, 10.0, 50.0, 50.0), Clayey, Wheat)
      == Recommendation(Template(PLow).fertilizer, Template(PLow).reason + [ClayCaution])
  {
  }
}
