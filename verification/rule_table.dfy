/**
 The fixed rule table: seven recommendation keys, each with a
 (fertilizer, reason) template, the numeric thresholds the engine compares
 readings against, and the sentences the engine may append to a reason.

 The engine works on identifiers: a fertilizer is a `Fertilizer` value and a
 reason is the sequence of `Sentence`s it was built from. `FertilizerName`
 and `ReasonText` give the exact strings the engine returns.
 */
module RuleTable {
  import opened Domain
  import opened Strings

  /** The keys of the rule table; the engine selects exactly one per call. */
  datatype Key = NLow | PLow | KLow | NPKBalanced | HighNPK | MoistureLow | MoistureHigh

  /** A nutrient at or below this level is low. */
  const LowNutrient: real := 30.0
  /** All three nutrients at or above this level are high. */
  const HighNutrient: real := 60.0
  /** Moisture strictly below this overrides the nutrient rules. */
  const DryMoisture: real := 20.0
  /** Moisture strictly above this overrides the nutrient rules. */
  const WetMoisture: real := 80.0

  /** Every fertilizer the engine can name: the seven templates' and the three substitutes. */
  datatype Fertilizer =
    | UreaBlend | DapOrSsp | MopOrPotashSulfate | UniversalMix
    | MicronutrientManure | CompostAndIrrigation | AvoidSolubleFertilizers
    | HighGradeUrea | SulphateOfPotash | SlowReleaseN

  /** The exact name the engine returns for each fertilizer. */
  function FertilizerName(f: Fertilizer): (name: string)
    ensures |name| > 0
  {
    match f
    case UreaBlend => "Urea & N-Heavy Blend (46-0-0)"
    case DapOrSsp => "Diammonium Phosphate (DAP) or SSP"
    case MopOrPotashSulfate => "Muriate of Potash (MOP) or Potash Sulfate"
    case UniversalMix => "10-10-10 Universal Mix or Complex Fertilizer"
    case MicronutrientManure => "Balanced Micronutrient Formula & Manure"
    case CompostAndIrrigation => "Organic Compost & Increased Irrigation"
    case AvoidSolubleFertilizers => "Avoid Soluble Fertilizers & Improve Drainage"
    case HighGradeUrea => "High-Grade Urea (46-0-0)"
    case SulphateOfPotash => "Sulphate of Potash (SOP) (0-0-50)"
    case SlowReleaseN => "Slow-Release N Fertilizer"
  }

  /**
   The sentences a reason is made of: the template reason of a key, the two
   crop notes (which name the crop) and the two soil notes.
   */
  datatype Sentence =
    | Finding(key: Key)
    | UreaNote(crop: Crop)
    | SopNote(crop: Crop)
    | ClayCaution
    | SandyWarning

  /** The crop notes are built by interpolating the crop's name between a fixed head and a period. */
  const UreaNoteHead: string := " Urea is highly effective for high-demand, grain-producing crops like "
  const SopNoteHead: string := " SOP provides sulfur, which is beneficial for the quality of fruits and fibers in "

  /** The template reasons, exactly as the table holds them. */
  const NLowFinding: string :=
    "Nitrogen (N) is severely low. Use a high-N fertilizer, especially for foliage-heavy crops."
  const PLowFinding: string :=
    "Phosphorous (P) is the limiting nutrient. Apply DAP (18-46-0) or Single Super Phosphate for root development."
  const KLowFinding: string :=
    "Potassium (K) is low. Potash is essential for plant health, water, and disease resistance."
  const NPKBalancedFinding: string :=
    "NPK levels are generally balanced. A complex fertilizer provides maintenance nutrients for overall growth."
  const HighNPKFinding: string :=
    "Primary nutrients (NPK) are high. Focus on organic manure or micronutrient supplements (e.g., Boron, Zinc)."
  const MoistureLowFinding: string :=
    "Moisture is critically low. Focus on organic matter to improve soil water retention before applying chemical fertilizer."
  const MoistureHighFinding: string :=
    "Moisture is high, risking nutrient runoff. Apply granular, slow-release fertilizers sparingly and improve drainage."

  /** The template reason of each key. */
  function FindingText(key: Key): string {
    match key
    case NLow => NLowFinding
    case PLow => PLowFinding
    case KLow => KLowFinding
    case NPKBalanced => NPKBalancedFinding
    case HighNPK => HighNPKFinding
    case MoistureLow => MoistureLowFinding
    case MoistureHigh => MoistureHighFinding
  }

  const ClayCautionText: string :=
    " Caution: Phosphates may be less mobile in heavy clay soils; consider band application."
  const SandyWarningText: string :=
    " Warning: Sandy soils leach nitrogen quickly. Use slow-release N fertilizer or split applications."

  /**
   The exact text of each sentence. A crop note carries the crop's name
   right after its fixed head.
   */
  function SentenceText(s: Sentence): (t: string)
    ensures s.UreaNote? ==> OccursAt(t, CropName(s.crop), |UreaNoteHead|)
    ensures s.SopNote? ==> OccursAt(t, CropName(s.crop), |SopNoteHead|)
  {
    match s
    case Finding(key) => FindingText(key)
    case UreaNote(c) =>
      OccursInMiddle(UreaNoteHead, CropName(c), ".");
      UreaNoteHead + CropName(c) + "."
    case SopNote(c) =>
      OccursInMiddle(SopNoteHead, CropName(c), ".");
      SopNoteHead + CropName(c) + "."
    case ClayCaution => ClayCautionText
    case SandyWarning => SandyWarningText
  }

  /** The text of each sentence of a reason, in order. */
  function Texts(reason: seq<Sentence>): (ts: seq<string>)
    ensures |ts| == |reason|
    ensures forall i :: 0 <= i < |reason| ==> ts[i] == SentenceText(reason[i])
  {
    seq(|reason|, i requires 0 <= i < |reason| => SentenceText(reason[i]))
  }

  /** The reason string: its sentences' texts concatenated in order. */
  function ReasonText(reason: seq<Sentence>): (t: string)
    ensures reason == [] ==> t == ""
    ensures |reason| == 1 ==> t == SentenceText(reason[0])
  {
    Concat(Texts(reason))
  }

  /** Rendering distributes over appending sentences. */
  lemma ReasonTextAppend(a: seq<Sentence>, b: seq<Sentence>)
    ensures ReasonText(a + b) == ReasonText(a) + ReasonText(b)
  {
    forall i | 0 <= i < |a + b|
      ensures Texts(a + b)[i] == (Texts(a) + Texts(b))[i]
    {
      if i < |a| {
        assert (a + b)[i] == a[i];
      } else {
        assert (a + b)[i] == b[i - |a|];
      }
    }
    assert Texts(a + b) == Texts(a) + Texts(b);
    ConcatAppend(Texts(a), Texts(b));
  }

  /** A reason extended by further sentences renders to an extension of its text. */
  lemma ReasonTextPrefix(a: seq<Sentence>, b: seq<Sentence>)
    requires a <= b
    ensures ReasonText(a) <= ReasonText(b)
  {
    assert b == a + b[|a|..];
    ReasonTextAppend(a, b[|a|..]);
  }

  /** The engine's answer: a fertilizer and the sentences of the reason that justifies it. */
  datatype Recommendation = Recommendation(fertilizer: Fertilizer, reason: seq<Sentence>)

  /** The template the table holds for each key. */
  function Template(key: Key): (t: Recommendation)
    ensures t.reason == [Finding(key)]
    ensures t.fertilizer !in {HighGradeUrea, SulphateOfPotash, SlowReleaseN}
  {
    match key
    case NLow => Recommendation(UreaBlend, [Finding(key)])
    case PLow => Recommendation(DapOrSsp, [Finding(key)])
    case KLow => Recommendation(MopOrPotashSulfate, [Finding(key)])
    case NPKBalanced => Recommendation(UniversalMix, [Finding(key)])
    case HighNPK => Recommendation(MicronutrientManure, [Finding(key)])
    case MoistureLow => Recommendation(CompostAndIrrigation, [Finding(key)])
    case MoistureHigh => Recommendation(AvoidSolubleFertilizers, [Finding(key)])
  }
}
