/** Feature extraction and verdict mapping of the baseline message-veracity
    predictor: a message record becomes a nine-field feature vector, a trained
    classifier labels the vector, and the label becomes one of two verdicts.
    The readability metrics and the classifier are opaque collaborators and are
    passed in as functions. */
module BaselinePredictor {
  import Wrappers
  import AsciiCase

  // Values `extract_features` uses for a key the message does not carry.
  const DefaultText: string := ""
  const DefaultTrustScore: real := 0.8
  const DefaultSuspicionScore: real := 0.2
  const DefaultSuspicionLevel: string := "none"

  /** `suspicion_map`: ordinal encoding of a lower-cased suspicion level. */
  const SuspicionMap: map<string, int> := map["none" := 0, "low" := 1, "medium" := 2, "high" := 3]

  /** Additive boost of the suspicion score; "none" is absent and takes the default 0.0. */
  const BoostTable: map<string, real> := map["low" := 0.05, "medium" := 0.10, "high" := 0.20]

  const LikelyHonest: string := "likely honest"
  const LikelyDishonest: string := "likely dishonest"

  /** The incoming message record; every key may be missing. */
  datatype Message = Message(
    text: Wrappers.Option<string>,
    trustScore: Wrappers.Option<real>,
    suspicionScore: Wrappers.Option<real>,
    suspicionLevel: Wrappers.Option<string>)

  /** The feature vector, in the column order the classifier is fed. */
  datatype Features = Features(
    trustScore: real,
    suspicionScore: real,
    adjustedSuspicionScore: real,
    suspicionEncoded: int,
    fleschReadingEase: real,
    gunningFog: real,
    smogIndex: real,
    automatedReadabilityIndex: real,
    daleChallScore: real)

  /** The five readability metrics of the text library, as opaque pure functions of the text. */
  datatype Readability = Readability(
    fleschReadingEase: string -> real,
    gunningFog: string -> real,
    smogIndex: string -> real,
    automatedReadabilityIndex: string -> real,
    daleChallReadabilityScore: string -> real)

  /** The trained classifier: a class label for a feature vector. */
  type Classifier = Features -> int

  /** The four suspicion levels, in increasing severity; any unrecognised level counts as NoSuspicion. */
  datatype Severity = NoSuspicion | Low | Medium | High

  function SeverityOf(level: string): Severity {
    if level == "low" then Low
    else if level == "medium" then Medium
    else if level == "high" then High
    else NoSuspicion
  }

  function Rank(s: Severity): int {
    match s
    case NoSuspicion => 0
    case Low => 1
    case Medium => 2
    case High => 3
  }

  function SeverityBoost(s: Severity): real {
    match s
    case NoSuspicion => 0.0
    case Low => 0.05
    case Medium => 0.10
    case High => 0.20
  }

  /** The severity whose rank is `rank`. */
  function SeverityAt(rank: int): (s: Severity)
    requires 0 <= rank <= 3
    ensures Rank(s) == rank
  {
    if rank == 1 then Low else if rank == 2 then Medium else if rank == 3 then High else NoSuspicion
  }

  /** A dictionary lookup with a default for a missing key. */
  function Lookup<V>(table: map<string, V>, key: string, default: V): V {
    if key in table then table[key] else default
  }

  /** Ordinal encoding of a lower-cased level, looked up in `SuspicionMap`. */
  function Encode(level: string): (e: int)
    ensures e == Rank(SeverityOf(level))
    ensures 0 <= e <= 3
  {
    Lookup(SuspicionMap, level, 0)
  }

  /** Boost of a lower-cased level, looked up in `BoostTable`. */
  function Boost(level: string): (b: real)
    ensures b == SeverityBoost(SeverityOf(level))
    ensures 0.0 <= b <= 0.20
  {
    Lookup(BoostTable, level, 0.0)
  }

  /** Python's two-argument `min`: the first argument unless the second is strictly smaller. */
  function Min(x: real, y: real): real {
    if y < x then y else x
  }

  /** `min(score + boost, 1.0)`: the smaller of the boosted score and 1.0. */
  function AdjustedSuspicion(score: real, boost: real): (a: real)
    ensures a <= 1.0 && a <= score + boost
    ensures a == 1.0 || a == score + boost
  {
    Min(score + boost, 1.0)
  }

  function TextOf(m: Message): string {
    m.text.GetOr(DefaultText)
  }

  function TrustScoreOf(m: Message): real {
    m.trustScore.GetOr(DefaultTrustScore)
  }

  function SuspicionScoreOf(m: Message): real {
    m.suspicionScore.GetOr(DefaultSuspicionScore)
  }

  /** The suspicion level as it is looked up: defaulted, then lower-cased. It
      holds no capital, and a message without a level is looked up as "none". */
  function LevelOf(m: Message): (level: string)
    ensures forall i :: 0 <= i < |level| ==> !AsciiCase.IsUpper(level[i])
    ensures m.suspicionLevel.None? ==> level == DefaultSuspicionLevel
    ensures m.suspicionLevel.Some? ==> level == AsciiCase.Lower(m.suspicionLevel.value)
  {
    AsciiCase.LowerFixesLowercase(DefaultSuspicionLevel);
    AsciiCase.Lower(m.suspicionLevel.GetOr(DefaultSuspicionLevel))
  }

  /** The link every produced vector keeps between its encoded level and its
      adjusted score: the adjustment is the clamped boost of that very level. */
  predicate Consistent(f: Features) {
    && 0 <= f.suspicionEncoded <= 3
    && f.adjustedSuspicionScore
       == AdjustedSuspicion(f.suspicionScore, SeverityBoost(SeverityAt(f.suspicionEncoded)))
  }

  /** `extract_features`. */
  function ExtractFeatures(m: Message, rd: Readability): (f: Features)
    ensures f.trustScore == TrustScoreOf(m)
    ensures f.suspicionScore == SuspicionScoreOf(m)
    ensures f.suspicionEncoded == Rank(SeverityOf(LevelOf(m)))
    ensures Consistent(f)
  {
    var text := TextOf(m);
    var level := LevelOf(m);
    var suspicion := SuspicionScoreOf(m);
    Features(
      TrustScoreOf(m),
      suspicion,
      AdjustedSuspicion(suspicion, Boost(level)),
      Encode(level),
      rd.fleschReadingEase(text),
      rd.gunningFog(text),
      rd.smogIndex(text),
      rd.automatedReadabilityIndex(text),
      rd.daleChallReadabilityScore(text))
  }

  /** `predict_message`: a non-zero (truthy) label means honest, zero means dishonest. */
  function PredictMessage(m: Message, rd: Readability, model: Classifier): (verdict: string)
    ensures verdict == LikelyHonest || verdict == LikelyDishonest
    ensures verdict == LikelyHonest <==> model(ExtractFeatures(m, rd)) != 0
  {
    var prediction := model(ExtractFeatures(m, rd));
    if prediction != 0 then LikelyHonest else LikelyDishonest
  }
}
