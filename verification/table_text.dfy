/**
 Facts about the rule table's strings: every sentence and every fertilizer
 name is non-empty, different fertilizers have different names, and
 different sentences have different texts.

 A long literal is cheapest to inspect from its end, so each fertilizer name
 is told apart by its 12th character from the end. Sentences are told apart
 by their lengths, and the few pairs of equal length by their last
 characters or by the crop they name.
 */
module TableText {
  import opened Domain
  import opened RuleTable

  /** The 12th character from the end of each fertilizer's name; no two names share it. */
  function NameMark(f: Fertilizer): char {
    match f
    case UreaBlend => 'e'
    case DapOrSsp => '('
    case MopOrPotashSulfate => 't'
    case UniversalMix => 'x'
    case MicronutrientManure => 'u'
    case CompostAndIrrigation => 'd'
    case AvoidSolubleFertilizers => 'o'
    case HighGradeUrea => 'r'
    case SulphateOfPotash => 'O'
    case SlowReleaseN => 'N'
  }

  /** Every name is at least 12 characters long and carries its fertilizer's mark. */
  lemma NameHasMark(f: Fertilizer)
    ensures |FertilizerName(f)| >= 12 && FertilizerName(f)[|FertilizerName(f)| - 12] == NameMark(f)
  {
    match f
    case UreaBlend => UreaBlendHasMark();
    case DapOrSsp => DapOrSspHasMark();
    case MopOrPotashSulfate => MopOrPotashSulfateHasMark();
    case UniversalMix => UniversalMixHasMark();
    case MicronutrientManure => MicronutrientManureHasMark();
    case CompostAndIrrigation => CompostAndIrrigationHasMark();
    case AvoidSolubleFertilizers => AvoidSolubleFertilizersHasMark();
    case HighGradeUrea => HighGradeUreaHasMark();
    case SulphateOfPotash => SulphateOfPotashHasMark();
    case SlowReleaseN => SlowReleaseNHasMark();
  }

  lemma UreaBlendHasMark()
    ensures |FertilizerName(UreaBlend)| >= 12 && FertilizerName(UreaBlend)[|FertilizerName(UreaBlend)| - 12] == 'e'
  {
  }

  lemma DapOrSspHasMark()
    ensures |FertilizerName(DapOrSsp)| >= 12 && FertilizerName(DapOrSsp)[|FertilizerName(DapOrSsp)| - 12] == '('
  {
  }

  lemma MopOrPotashSulfateHasMark()
    ensures |FertilizerName(MopOrPotashSulfate)| >= 12 && FertilizerName(MopOrPotashSulfate)[|FertilizerName(MopOrPotashSulfate)| - 12] == 't'
  {
  }

  lemma UniversalMixHasMark()
    ensures |FertilizerName(UniversalMix)| >= 12 && FertilizerName(UniversalMix)[|FertilizerName(UniversalMix)| - 12] == 'x'
  {
  }

  lemma MicronutrientManureHasMark()
    ensures |FertilizerName(MicronutrientManure)| >= 12 && FertilizerName(MicronutrientManure)[|FertilizerName(MicronutrientManure)| - 12] == 'u'
  {
  }

  lemma CompostAndIrrigationHasMark()
    ensures |FertilizerName(CompostAndIrrigation)| >= 12 && FertilizerName(CompostAndIrrigation)[|FertilizerName(CompostAndIrrigation)| - 12] == 'd'
  {
  }

  lemma AvoidSolubleFertilizersHasMark()
    ensures |FertilizerName(AvoidSolubleFertilizers)| >= 12 && FertilizerName(AvoidSolubleFertilizers)[|FertilizerName(AvoidSolubleFertilizers)| - 12] == 'o'
  {
  }

  lemma HighGradeUreaHasMark()
    ensures |FertilizerName(HighGradeUrea)| >= 12 && FertilizerName(HighGradeUrea)[|FertilizerName(HighGradeUrea)| - 12] == 'r'
  {
  }

  lemma SulphateOfPotashHasMark()
    ensures |FertilizerName(SulphateOfPotash)| >= 12 && FertilizerName(SulphateOfPotash)[|FertilizerName(SulphateOfPotash)| - 12] == 'O'
  {
  }

  lemma SlowReleaseNHasMark()
    ensures |FertilizerName(SlowReleaseN)| >= 12 && FertilizerName(SlowReleaseN)[|FertilizerName(SlowReleaseN)| - 12] == 'N'
  {
  }

  /** No two fertilizers share a mark. */
  lemma NameMarksDistinct(f: Fertilizer, g: Fertilizer)
    ensures NameMark(f) == NameMark(g) ==> f == g
  {
  }

  /** Two fertilizers have the same name exactly when they are the same fertilizer. */
  lemma FertilizerNamesDistinct(f: Fertilizer, g: Fertilizer)
    ensures FertilizerName(f) == FertilizerName(g) <==> f == g
  {
    NameHasMark(f);
    NameHasMark(g);
    NameMarksDistinct(f, g);
  }

  /** The length of each key's finding. */
  function FindingLength(key: Key): nat {
    match key
    case NLow => 90
    case PLow => 109
    case KLow => 90
    case NPKBalanced => 106
    case HighNPK => 107
    case MoistureLow => 120
    case MoistureHigh => 115
  }

  /** Every finding has its tabulated length. */
  lemma FindingHasLength(key: Key)
    ensures |FindingText(key)| == FindingLength(key)
  {
    match key
    case NLow => NLowLength();
    case PLow => PLowLength();
    case KLow => KLowLength();
    case NPKBalanced => NPKBalancedLength();
    case HighNPK => HighNPKLength();
    case MoistureLow => MoistureLowLength();
    case MoistureHigh => MoistureHighLength();
  }

  lemma NLowLength()
    ensures |NLowFinding| == 90
  {
  }

  lemma PLowLength()
    ensures |PLowFinding| == 109
  {
  }

  lemma KLowLength()
    ensures |KLowFinding| == 90
  {
  }

  lemma NPKBalancedLength()
    ensures |NPKBalancedFinding| == 106
  {
  }

  lemma HighNPKLength()
    ensures |HighNPKFinding| == 107
  {
  }

  lemma MoistureLowLength()
    ensures |MoistureLowFinding| == 120
  {
  }

  lemma MoistureHighLength()
    ensures |MoistureHighFinding| == 115
  {
  }

  /** The lengths of the fixed parts of the other sentences. */
  lemma FixedTextLengths()
    ensures |UreaNoteHead| == 70 && |SopNoteHead| == 82
    ensures |ClayCautionText| == 87 && |SandyWarningText| == 98
  {
  }

  /** The length of each sentence: a crop note is its head, the crop's name and a period. */
  function SentenceLength(s: Sentence): nat {
    match s
    case Finding(key) => FindingLength(key)
    case UreaNote(c) => 71 + |CropName(c)|
    case SopNote(c) => 83 + |CropName(c)|
    case ClayCaution => 87
    case SandyWarning => 98
  }

  /** Every sentence has its tabulated length, and none is empty. */
  lemma SentenceHasLength(s: Sentence)
    ensures |SentenceText(s)| == SentenceLength(s)
    ensures |SentenceText(s)| > 0
  {
    FixedTextLengths();
    match s
    case Finding(key) =>
      FindingHasLength(key);
      assert SentenceText(s) == FindingText(key);
    case UreaNote(c) =>
      assert SentenceText(s) == UreaNoteHead + CropName(c) + ".";
    case SopNote(c) =>
      assert SentenceText(s) == SopNoteHead + CropName(c) + ".";
    case ClayCaution =>
    case SandyWarning =>
  }

  /**
   Sentences of equal length are the same sentence, except for the N_Low and
   K_Low findings, the clay caution and the SOP note for rice, and two notes
   of the same kind.
   */
  lemma LengthsDecide(s1: Sentence, s2: Sentence)
    requires SentenceLength(s1) == SentenceLength(s2)
    ensures || s1 == s2
            || {s1, s2} == {Finding(NLow), Finding(KLow)}
            || {s1, s2} == {ClayCaution, SopNote(Rice)}
            || (s1.UreaNote? && s2.UreaNote?)
            || (s1.SopNote? && s2.SopNote?)
  {
  }

  /** The last characters of `a + b` are those of `b`. */
  lemma EndOfAppend(a: string, b: string, k: nat)
    requires 1 <= k <= |b|
    ensures (a + b)[|a + b| - k] == b[|b| - k]
  {
  }

  /** The N_Low finding ends in "crops." and the K_Low finding in "resistance.". */
  lemma NLowKLowDiffer()
    ensures NLowFinding != KLowFinding
  {
    assert |NLowFinding| >= 2 && NLowFinding[|NLowFinding| - 2] == 's';
    assert |KLowFinding| >= 2 && KLowFinding[|KLowFinding| - 2] == 'e';
  }

  /** The clay caution ends in "application." and the SOP note for rice in "Rice.". */
  lemma ClayRiceDiffer()
    ensures ClayCautionText != SentenceText(SopNote(Rice))
  {
    assert |ClayCautionText| >= 2 && ClayCautionText[|ClayCautionText| - 2] == 'n';
    assert SentenceText(SopNote(Rice)) == SopNoteHead + "Rice.";
    EndOfAppend(SopNoteHead, "Rice.", 2);
  }

  /** Two notes with the same head read the same only for the same crop. */
  lemma SameHeadSameCrop(head: string, c1: Crop, c2: Crop)
    requires head + CropName(c1) + "." == head + CropName(c2) + "."
    ensures c1 == c2
  {
    var t := head + CropName(c1) + ".";
    assert CropName(c1) == t[|head|..|t| - 1];
    assert CropName(c2) == t[|head|..|t| - 1];
    CropNamesDistinct(c1, c2);
  }

  /** Urea notes for different crops read differently. */
  lemma UreaNotesDiffer(c1: Crop, c2: Crop)
    requires c1 != c2
    ensures SentenceText(UreaNote(c1)) != SentenceText(UreaNote(c2))
  {
    if SentenceText(UreaNote(c1)) == SentenceText(UreaNote(c2)) {
      SameHeadSameCrop(UreaNoteHead, c1, c2);
    }
  }

  /** SOP notes for different crops read differently. */
  lemma SopNotesDiffer(c1: Crop, c2: Crop)
    requires c1 != c2
    ensures SentenceText(SopNote(c1)) != SentenceText(SopNote(c2))
  {
    if SentenceText(SopNote(c1)) == SentenceText(SopNote(c2)) {
      SameHeadSameCrop(SopNoteHead, c1, c2);
    }
  }

  /** Two sentences have the same text exactly when they are the same sentence. */
  lemma SentenceTextsDistinct(s1: Sentence, s2: Sentence)
    ensures SentenceText(s1) == SentenceText(s2) <==> s1 == s2
  {
    if s1 != s2 {
      SentenceHasLength(s1);
      SentenceHasLength(s2);
      if SentenceLength(s1) == SentenceLength(s2) {
        LengthsDecide(s1, s2);
        if {s1, s2} == {Finding(NLow), Finding(KLow)} {
          NLowKLowDiffer();
        } else if {s1, s2} == {ClayCaution, SopNote(Rice)} {
          ClayRiceDiffer();
        } else if s1.UreaNote? {
          UreaNotesDiffer(s1.crop, s2.crop);
        } else {
          SopNotesDiffer(s1.crop, s2.crop);
        }
      }
    }
  }
}
