/**
 The recommendation engine: select one rule-table key from the reading, look
 up its template, then apply the crop adjustment and after it the soil
 adjustment.
 */
module Engine {
  import opened Domain
  import opened Strings
  import opened RuleTable
  import opened TableText

  /** Moisture inside the band where the nutrient rules decide. */
  predicate MoistureInRange(m: real) {
    DryMoisture <= m <= WetMoisture
  }

  /** The smallest of three levels. */
  function Min3(a: real, b: real, c: real): (r: real)
    ensures r <= a && r <= b && r <= c
    ensures r == a || r == b || r == c
  {
    if a <= b && a <= c then a else if b <= c then b else c
  }

  /**
   Declarative statement of which key the engine must choose, written
   independently of the order of its tests: moisture outside the band decides
   first; otherwise a low nutrient that is a minimum of the three is named,
   with ties going to N, then P, then K; otherwise all three at or above the
   high threshold is High_NPK and anything else is balanced.
   */
  ghost predicate Chosen(r: Reading, key: Key) {
    var lo := Min3(r.n, r.p, r.k);
    match key
    case MoistureLow => r.m < DryMoisture
    case MoistureHigh => r.m > WetMoisture
    case NLow => MoistureInRange(r.m) && lo <= LowNutrient && r.n == lo
    case PLow => MoistureInRange(r.m) && lo <= LowNutrient && r.p == lo && r.n != lo
    case KLow => MoistureInRange(r.m) && lo <= LowNutrient && r.k == lo && r.n != lo && r.p != lo
    case HighNPK =>
      MoistureInRange(r.m) && r.n >= HighNutrient && r.p >= HighNutrient && r.k >= HighNutrient
    case NPKBalanced =>
      MoistureInRange(r.m) && lo > LowNutrient
      && !(r.n >= HighNutrient && r.p >= HighNutrient && r.k >= HighNutrient)
  }

  /** Stages 1 and 2: the moisture override, then the nutrient priority chain. */
  function SelectKey(r: Reading): (key: Key)
    ensures Chosen(r, key)
  {
    if r.m < DryMoisture then MoistureLow
    else if r.m > WetMoisture then MoistureHigh
    else if r.n <= LowNutrient && r.n <= r.p && r.n <= r.k then NLow
    else if r.p <= LowNutrient && r.p <= r.n && r.p <= r.k then PLow
    else if r.k <= LowNutrient && r.k <= r.n && r.k <= r.p then KLow
    else if r.n >= HighNutrient && r.p >= HighNutrient && r.k >= HighNutrient then HighNPK
    else NPKBalanced
  }

  /** The crop adjustment fires for N_Low on rice or maize and for K_Low on vegetables or cotton. */
  predicate CropRuleFires(key: Key, crop: Crop) {
    || (key == NLow && crop in {Rice, Maize})
    || (key == KLow && crop in {Vegetables, Cotton})
  }

  /** The soil adjustment fires for P_Low on clay and for N_Low on sand. */
  predicate SoilRuleFires(key: Key, soil: Soil) {
    || (key == PLow && soil == Clayey)
    || (key == NLow && soil == Sandy)
  }

  /** Stage 4: swap in a crop-specific fertilizer and append a note naming the crop. */
  function CropAdjust(key: Key, crop: Crop, rec: Recommendation): (out: Recommendation)
    ensures !CropRuleFires(key, crop) ==> out == rec
    ensures CropRuleFires(key, crop) ==>
      && |out.reason| == |rec.reason| + 1
      && out.reason[..|rec.reason|] == rec.reason
    ensures CropRuleFires(key, crop) && key == NLow ==>
      out.fertilizer == HighGradeUrea && out.reason[|rec.reason|] == UreaNote(crop)
    ensures CropRuleFires(key, crop) && key == KLow ==>
      out.fertilizer == SulphateOfPotash && out.reason[|rec.reason|] == SopNote(crop)
  {
    if key == NLow && crop in {Rice, Maize} then
      Recommendation(HighGradeUrea, rec.reason + [UreaNote(crop)])
    else if key == KLow && crop in {Vegetables, Cotton} then
      Recommendation(SulphateOfPotash, rec.reason + [SopNote(crop)])
    else rec
  }

  /**
   Stage 5: append a soil note; on sand the N fertilizer is replaced
   whatever the crop adjustment chose.
   */
  function SoilAdjust(key: Key, soil: Soil, rec: Recommendation): (out: Recommendation)
    ensures !SoilRuleFires(key, soil) ==> out == rec
    ensures SoilRuleFires(key, soil) ==>
      && |out.reason| == |rec.reason| + 1
      && out.reason[..|rec.reason|] == rec.reason
    ensures SoilRuleFires(key, soil) && key == PLow ==>
      out.fertilizer == rec.fertilizer && out.reason[|rec.reason|] == ClayCaution
    ensures SoilRuleFires(key, soil) && key == NLow ==>
      out.fertilizer == SlowReleaseN && out.reason[|rec.reason|] == SandyWarning
  {
    if key == PLow && soil == Clayey then
      Recommendation(rec.fertilizer, rec.reason + [ClayCaution])
    else if key == NLow && soil == Sandy then
      Recommendation(SlowReleaseN, rec.reason + [SandyWarning])
    else rec
  }

  /**
   The engine: one key, its template, the crop adjustment, then the soil
   adjustment. The reason only grows by appending; keys other than the
   three low-nutrient ones are returned exactly as the table has them.
   */
  function Recommend(r: Reading, soil: Soil, crop: Crop): (out: Recommendation)
    ensures var key := SelectKey(r);
      && |out.reason| >= 1
      && out.reason[0] == Finding(key)
      && (key !in {NLow, PLow, KLow} ==> out == Template(key))
    ensures r.m < DryMoisture ==> out == Template(MoistureLow)
    ensures r.m > WetMoisture ==> out == Template(MoistureHigh)
    ensures SelectKey(r) == NLow ==>
      && (soil == Sandy ==> out.fertilizer == SlowReleaseN)
      && (soil != Sandy && crop in {Rice, Maize} ==> out.fertilizer == HighGradeUrea)
      && (soil != Sandy && crop !in {Rice, Maize} ==> out == Template(NLow))
      && out.reason == Template(NLow).reason
           + (if crop in {Rice, Maize} then [UreaNote(crop)] else [])
           + (if soil == Sandy then [SandyWarning] else [])
    ensures SelectKey(r) == PLow ==>
      && out.fertilizer == Template(PLow).fertilizer
      && (soil == Clayey ==> out.reason == Template(PLow).reason + [ClayCaution])
      && (soil != Clayey ==> out == Template(PLow))
    ensures SelectKey(r) == KLow ==>
      && (out.fertilizer == SulphateOfPotash <==> crop in {Vegetables, Cotton})
      && out.fertilizer in {SulphateOfPotash, Template(KLow).fertilizer}
      && out.reason == Template(KLow).reason + (if crop in {Vegetables, Cotton} then [SopNote(crop)] else [])
  {
    var key := SelectKey(r);
    SoilAdjust(key, soil, CropAdjust(key, crop, Template(key)))
  }

  /**
   The engine as its callers see it: the fertilizer's name and the reason
   text, neither of them empty. The text begins with the chosen key's
   template reason and, when a crop adjustment fired, names the crop.
   */
  function GetRecommendation(r: Reading, soil: Soil, crop: Crop): (res: (string, string))
    ensures ReasonText(Template(SelectKey(r)).reason) <= res.1
    ensures CropRuleFires(SelectKey(r), crop) ==> Contains(res.1, CropName(crop))
    ensures |res.0| > 0 && |res.1| > 0
  {
    var out := Recommend(r, soil, crop);
    ReasonAppendOnly(r, soil, crop);
    ReasonNamesCrop(r, soil, crop);
    SentenceHasLength(Finding(SelectKey(r)));
    (FertilizerName(out.fertilizer), ReasonText(out.reason))
  }

  /** The reason text starts with the template's reason text: sentences are only appended. */
  lemma ReasonAppendOnly(r: Reading, soil: Soil, crop: Crop)
    ensures ReasonText(Template(SelectKey(r)).reason) <= ReasonText(Recommend(r, soil, crop).reason)
  {
    ReasonTextPrefix(Template(SelectKey(r)).reason, Recommend(r, soil, crop).reason);
  }

  /** A reason with a crop note among its sentences contains the crop's name. */
  lemma NoteNamesCrop(pre: seq<Sentence>, note: Sentence, post: seq<Sentence>, crop: Crop)
    requires note in {UreaNote(crop), SopNote(crop)}
    ensures Contains(ReasonText(pre + [note] + post), CropName(crop))
  {
    var head := if note.UreaNote? then UreaNoteHead else SopNoteHead;
    assert SentenceText(note) == head + CropName(crop) + ".";
    ReasonTextAppend(pre, [note]);
    ReasonTextAppend(pre + [note], post);
    OccursInPart(ReasonText(pre), head, CropName(crop), ".", ReasonText(post));
  }

  /** When the crop adjustment fires, the reason text contains the crop's name. */
  lemma ReasonNamesCrop(r: Reading, soil: Soil, crop: Crop)
    ensures CropRuleFires(SelectKey(r), crop) ==> Contains(ReasonText(Recommend(r, soil, crop).reason), CropName(crop))
  {
    if CropRuleFires(SelectKey(r), crop) {
      var out := Recommend(r, soil, crop).reason;
      assert out == [out[0]] + [out[1]] + out[2..];
      NoteNamesCrop([out[0]], out[1], out[2..], crop);
    }
  }
}
