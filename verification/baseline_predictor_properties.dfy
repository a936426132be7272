/** What the feature extraction and the verdict mapping promise, stated over
    every message, every set of readability metrics and every classifier. */
module BaselinePredictorProperties {
  import opened Wrappers
  import AsciiCase
  import opened BaselinePredictor

  /** The message `m` with its suspicion level replaced by `level`. */
  function WithLevel(m: Message, level: string): Message {
    m.(suspicionLevel := Some(level))
  }

  /** The two tables, entry by entry, and the default for every other level. */
  lemma LevelTables(level: string)
    ensures Encode("none") == 0 && Boost("none") == 0.0
    ensures Encode("low") == 1 && Boost("low") == 0.05
    ensures Encode("medium") == 2 && Boost("medium") == 0.10
    ensures Encode("high") == 3 && Boost("high") == 0.20
    ensures level !in SuspicionMap.Keys ==> Encode(level) == 0 && Boost(level) == 0.0
  {
  }

  /** Encoding and boost rank the levels the same way: the boost is non-negative
      and strictly increases exactly when the encoding does. */
  lemma BoostFollowsEncoding(a: string, b: string)
    ensures Boost(a) >= 0.0
    ensures Encode(a) < Encode(b) <==> Boost(a) < Boost(b)
    ensures Encode(a) == Encode(b) <==> Boost(a) == Boost(b)
  {
  }

  /** A level that is none of the four names after lower-casing yields exactly
      the features of the level "none"; so does a missing level. */
  lemma UnknownLevelActsAsNone(m: Message, rd: Readability)
    requires LevelOf(m) !in SuspicionMap.Keys || m.suspicionLevel.None?
    ensures ExtractFeatures(m, rd) == ExtractFeatures(WithLevel(m, "none"), rd)
  {
  }

  /** Two levels that differ only in the case of their letters yield identical features. */
  lemma LevelCaseInsensitive(m: Message, a: string, b: string, rd: Readability)
    requires AsciiCase.EqualIgnoringCase(a, b)
    ensures ExtractFeatures(WithLevel(m, a), rd) == ExtractFeatures(WithLevel(m, b), rd)
  {
    AsciiCase.LowerEqualIff(a, b);
  }

  /** A level and its lower-case form yield identical features. */
  lemma LevelLowercasedBeforeLookup(m: Message, level: string, rd: Readability)
    ensures ExtractFeatures(WithLevel(m, level), rd)
         == ExtractFeatures(WithLevel(m, AsciiCase.Lower(level)), rd)
  {
    AsciiCase.LowerIdempotent(level);
  }

  /** "HIGH" is read as "high". */
  lemma UpperCaseHigh(m: Message, rd: Readability)
    ensures ExtractFeatures(WithLevel(m, "HIGH"), rd) == ExtractFeatures(WithLevel(m, "high"), rd)
    ensures ExtractFeatures(WithLevel(m, "HIGH"), rd).suspicionEncoded == 3
  {
  }

  /** The adjusted score never exceeds 1.0; it is the boosted score exactly when
      that is at most 1.0, and it never falls below the smaller of the raw score
      and 1.0; a raw score in [0, 1] gives an adjusted score in [0, 1]. */
  lemma AdjustedBounds(m: Message, rd: Readability)
    ensures var f := ExtractFeatures(m, rd);
      && f.adjustedSuspicionScore <= 1.0
      && (f.adjustedSuspicionScore == f.suspicionScore + Boost(LevelOf(m))
          <==> f.suspicionScore + Boost(LevelOf(m)) <= 1.0)
      && f.adjustedSuspicionScore >= Min(f.suspicionScore, 1.0)
      && (0.0 <= f.suspicionScore <= 1.0 ==> 0.0 <= f.adjustedSuspicionScore <= 1.0)
  {
  }

  /** For the same raw score, a more severe level never lowers the adjusted score. */
  lemma AdjustedMonotoneInSeverity(m1: Message, m2: Message, rd: Readability)
    requires SuspicionScoreOf(m1) == SuspicionScoreOf(m2)
    requires Encode(LevelOf(m1)) <= Encode(LevelOf(m2))
    ensures ExtractFeatures(m1, rd).adjustedSuspicionScore
         <= ExtractFeatures(m2, rd).adjustedSuspicionScore
  {
  }

  /** For the same level, a higher raw score never lowers the adjusted score. */
  lemma AdjustedMonotoneInScore(m1: Message, m2: Message, rd: Readability)
    requires LevelOf(m1) == LevelOf(m2)
    requires SuspicionScoreOf(m1) <= SuspicionScoreOf(m2)
    ensures ExtractFeatures(m1, rd).adjustedSuspicionScore
         <= ExtractFeatures(m2, rd).adjustedSuspicionScore
  {
  }

  /** A message carrying only its text takes every default: trust 0.8,
      suspicion 0.2, level "none", hence adjusted 0.2 and encoding 0. */
  lemma TextOnlyDefaults(text: string, rd: Readability)
    ensures var f := ExtractFeatures(Message(Some(text), None, None, None), rd);
      && f.trustScore == 0.8
      && f.suspicionScore == 0.2
      && f.adjustedSuspicionScore == 0.2
      && f.suspicionEncoded == 0
  {
  }

  /** A "low" message with suspicion 0.1 is adjusted to 0.15 and encoded 1. */
  lemma LowLevelExample(rd: Readability)
    ensures var f := ExtractFeatures(Message(Some("The sky is blue."), Some(0.9),
                                             Some(0.1), Some("low")), rd);
      f.trustScore == 0.9 && f.adjustedSuspicionScore == 0.15 && f.suspicionEncoded == 1
  {
  }

  /** A "high" message with suspicion 0.95 is clamped to 1.0 and encoded 3. */
  lemma HighLevelClampedExample(rd: Readability)
    ensures var f := ExtractFeatures(Message(Some(""), Some(0.8),
                                             Some(0.95), Some("high")), rd);
      f.adjustedSuspicionScore == 1.0 && f.suspicionEncoded == 3
  {
  }

  /** A given trust or suspicion score is copied unchanged; a missing one is
      replaced by its default. */
  lemma ScoresCopied(m: Message, rd: Readability)
    ensures var f := ExtractFeatures(m, rd);
      && f.trustScore == (if m.trustScore.Some? then m.trustScore.value else 0.8)
      && f.suspicionScore == (if m.suspicionScore.Some? then m.suspicionScore.value else 0.2)
  {
  }

  /** The five readability features depend on the text alone; a missing text
      is measured as the empty string. */
  lemma ReadabilityFromTextOnly(m1: Message, m2: Message, rd: Readability)
    requires TextOf(m1) == TextOf(m2)
    ensures m1.text.None? ==> TextOf(m1) == ""
    ensures var f1, f2 := ExtractFeatures(m1, rd), ExtractFeatures(m2, rd);
      && f1.fleschReadingEase == f2.fleschReadingEase == rd.fleschReadingEase(TextOf(m1))
      && f1.gunningFog == f2.gunningFog == rd.gunningFog(TextOf(m1))
      && f1.smogIndex == f2.smogIndex == rd.smogIndex(TextOf(m1))
      && f1.automatedReadabilityIndex == f2.automatedReadabilityIndex == rd.automatedReadabilityIndex(TextOf(m1))
      && f1.daleChallScore == f2.daleChallScore == rd.daleChallReadabilityScore(TextOf(m1))
  {
  }

  /** A classifier that always answers the same label gives the same verdict
      for every message: honest for a non-zero label, dishonest for zero. */
  lemma ConstantClassifierVerdict(m: Message, rd: Readability, answer: int)
    ensures PredictMessage(m, rd, f => answer) == if answer != 0 then LikelyHonest else LikelyDishonest
  {
  }
}
