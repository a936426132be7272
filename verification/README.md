# Baseline message-veracity predictor: feature extraction and verdict

This project models the core of the baseline predictor service
(`baseline-api/baseline_predictor_api.py`). A message record has four optional
keys: `Text`, `Trust Score`, `Suspicion Score` and `Suspicion Level`. The service
turns it into a nine-field feature vector. The suspicion level is defaulted to
"none" and lower-cased. It is then looked up in two fixed tables: `suspicion_map`
gives its ordinal encoding (none 0, low 1, medium 2, high 3), and the boost table
gives its additive boost (low 0.05, medium 0.10, high 0.20, anything else 0.0).
The boost is added to the suspicion score, and the sum is capped at 1.0. The
scores are copied unchanged, and five readability metrics of the text are added.
A trained classifier labels the vector. A non-zero label gives the verdict
"likely honest", and zero gives "likely dishonest".

Files:

- `wrappers.dfy`: `Option`, with `GetOr` standing for a dictionary `get` with a default.
- `ascii_case.dfy`: lower-casing of the level string.
- `baseline_predictor.dfy`: the tables, the defaults, `ExtractFeatures` and `PredictMessage`.
  A `Severity` datatype (NoSuspicion, Low, Medium, High with `Rank` and `SeverityBoost`) is the
  reference meaning of a level; the dictionary lookups are proved to agree with it for
  every string.
- `baseline_predictor_properties.dfy`: lemmas about the extraction and the verdict. Most range
  over every message and every set of readability metrics. `TextOnlyDefaults`, `LowLevelExample`
  and `HighLevelClampedExample` are worked examples on fixed messages, and
  `ConstantClassifierVerdict` covers classifiers that always answer the same label.

The readability library and the classifier are opaque collaborators. They are parameters:
`Readability` is a record of five functions `string -> real`, and `Classifier` is
`Features -> int`. Scores are `real`.

## Model

| member | source | states |
|---|---|---|
| `Wrappers.Option.GetOr` | baseline-api/baseline_predictor_api.py:16-19 | a present key yields its value, a missing key yields the default |
| `AsciiCase.LowerChar` | baseline-api/baseline_predictor_api.py:19 | the result is never an ASCII capital; a capital becomes the small letter at the same alphabet position; any other character is kept |
| `AsciiCase.Lower` | baseline-api/baseline_predictor_api.py:19 | the lower-cased level has the same length, and each character is the lower-case form of the character at the same position |
| `AsciiCase.LowerFixesLowercase` | baseline-api/baseline_predictor_api.py:19 | a string without capitals is unchanged by lower-casing (so "none", "low", "medium" and "high" match themselves) |
| `AsciiCase.LowerIdempotent` | baseline-api/baseline_predictor_api.py:19 | lower-casing twice gives the same string as lower-casing once |
| `AsciiCase.LowerCharEqualIff` | baseline-api/baseline_predictor_api.py:19 | two characters lower-case to the same character if and only if they are equal or are ASCII letters at the same alphabet position |
| `AsciiCase.LowerEqualIff` | baseline-api/baseline_predictor_api.py:19 | two strings lower-case to the same string if and only if they have equal length and, at each position, equal characters or ASCII letters at the same alphabet position (`EqualIgnoringCase`, defined without lower-casing) |
| `BaselinePredictor.Encode` | baseline-api/baseline_predictor_api.py:22 | the `suspicion_map` lookup (table at line 12) with default 0 equals the rank of the level's severity, and is always in 0..3 |
| `BaselinePredictor.Boost` | baseline-api/baseline_predictor_api.py:20 | the boost-table lookup with default 0.0 equals the boost of the level's severity, and lies in [0.0, 0.20] |
| `BaselinePredictor.AdjustedSuspicion` | baseline-api/baseline_predictor_api.py:21 | the result is the minimum of the boosted score and 1.0: it is at most both, and equal to one of them (computed through `Min`, Python's two-argument `min` of line 21: the first argument unless the second is strictly smaller) |
| `BaselinePredictor.LevelOf` | baseline-api/baseline_predictor_api.py:19 | the level looked up is the given level lower-cased, or "none" when the key is missing; it never holds an ASCII capital |
| `BaselinePredictor.ExtractFeatures` | baseline-api/baseline_predictor_api.py:15-34 | trust and suspicion are the message's values or the defaults 0.8 and 0.2 (through `TrustScoreOf`, `SuspicionScoreOf` and, for the text, `TextOf`, lines 16-18; each table read is `Lookup`, a `.get` with a default, lines 20 and 22); the encoding is the rank of the lower-cased level's severity; every vector produced is `Consistent`, i.e. its adjusted score is the capped boost of its own encoded level |
| `BaselinePredictor.PredictMessage` | baseline-api/baseline_predictor_api.py:37-41 | the verdict is one of the two fixed strings, and it is "likely honest" exactly when the classifier's label for the message's features is non-zero |
| `BaselinePredictorProperties.LevelTables` | baseline-api/baseline_predictor_api.py:12-22 | the four known levels encode to 0, 1, 2, 3 with boosts 0.0, 0.05, 0.10, 0.20; every other lower-cased level gets 0 and 0.0 |
| `BaselinePredictorProperties.BoostFollowsEncoding` | baseline-api/baseline_predictor_api.py:20-22 | the boost is non-negative, and between any two levels the boost is strictly smaller (or equal) exactly when the encoding is |
| `BaselinePredictorProperties.UnknownLevelActsAsNone` | baseline-api/baseline_predictor_api.py:19-22 | a level that is not a known name after lower-casing, or a missing level, yields the same features as the level "none" |
| `BaselinePredictorProperties.LevelCaseInsensitive` | baseline-api/baseline_predictor_api.py:19-22 | two levels that differ only in letter case yield identical features |
| `BaselinePredictorProperties.LevelLowercasedBeforeLookup` | baseline-api/baseline_predictor_api.py:19-22 | any level and its lower-case form yield identical features |
| `BaselinePredictorProperties.UpperCaseHigh` | baseline-api/baseline_predictor_api.py:19-22 | the level "HIGH" yields the same features as "high", with encoding 3 |
| `BaselinePredictorProperties.AdjustedBounds` | baseline-api/baseline_predictor_api.py:21 | the adjusted score is at most 1.0; it equals score plus boost if and only if that sum is at most 1.0; it is at least the smaller of the raw score and 1.0; a raw score in [0, 1] gives an adjusted score in [0, 1] |
| `BaselinePredictorProperties.AdjustedMonotoneInSeverity` | baseline-api/baseline_predictor_api.py:20-22 | with equal raw scores, a level with a higher or equal encoding never has a lower adjusted score |
| `BaselinePredictorProperties.AdjustedMonotoneInScore` | baseline-api/baseline_predictor_api.py:21 | with equal levels, a higher raw score never gives a lower adjusted score |
| `BaselinePredictorProperties.TextOnlyDefaults` | baseline-api/baseline_predictor_api.py:16-22 | a message with only `Text` gets trust 0.8, suspicion 0.2, adjusted 0.2 and encoding 0 |
| `BaselinePredictorProperties.LowLevelExample` | baseline-api/baseline_predictor_api.py:15-28 | trust 0.9, suspicion 0.1 and level "low" give trust 0.9, adjusted 0.15 and encoding 1 (exact in real arithmetic) |
| `BaselinePredictorProperties.HighLevelClampedExample` | baseline-api/baseline_predictor_api.py:15-28 | suspicion 0.95 with level "high" is capped to 1.0, with encoding 3 |
| `BaselinePredictorProperties.ScoresCopied` | baseline-api/baseline_predictor_api.py:17-26 | for every message, a given trust or suspicion score appears unchanged in the features, and a missing one appears as 0.8 or 0.2 |
| `BaselinePredictorProperties.ReadabilityFromTextOnly` | baseline-api/baseline_predictor_api.py:29-33 | two messages with the same text get the same five readability values, each the metric applied to that text; a missing text is measured as "" |
| `BaselinePredictorProperties.ConstantClassifierVerdict` | baseline-api/baseline_predictor_api.py:40-41 | a classifier that always gives the same label gives every message the same verdict: honest for a non-zero label, dishonest for zero |

## Left out

- Model loading (`joblib.load`, line 9), the one-row `pd.DataFrame` (line 39) and `model.predict` (line 40): the classifier is an opaque function parameter from features to an integer label. The column order it receives is the field order of `Features`.
- The textstat readability formulas (lines 29-33): they come from a third-party library and are left opaque. Each metric is a pure function of the text.
- The CLI front-end `cli_interface` (lines 44-60): argument parsing and printing only.
- The Flask `/predict` route and the entry dispatch on `sys.argv` (lines 63-76): HTTP server plumbing. Neither adds logic beyond building a message and calling `predict_message`.
- Floating-point rounding: scores are exact reals. In IEEE-754 doubles, `0.1 + 0.05` is `0.15000000000000002`, not `0.15`. So `LowLevelExample` holds for the real-number model, not bit-for-bit for the running program. NaN and infinities are not modelled either.
- `float(...)` on the scores and `.lower()` on the level (lines 17-19): the model takes numeric scores and a string level as given. `float()` also converts numeric strings (surrounding spaces allowed, and `"nan"` and `"inf"` included) and booleans. The model does not represent these inputs; it takes the converted real. Other values make `float()` raise `ValueError`, `TypeError` or `OverflowError` (a JSON integer too large for a double). `.lower()` on a non-string raises `AttributeError`. The exception propagates, and the model leaves that path out.
- Keys sent with a JSON `null`: `Option.None` stands only for a key that is absent. A key that is present with the value `null` is not replaced by its default, because `.get` returns Python's `None`. Lines 16-19 then fail (for the scores and the level) or hand `None` to the readability library (for the text). That path is not modelled.
- `AsciiCase.Lower`: lowercases ASCII letters only, while Python's `str.lower` follows Unicode. This does not change which table entry matches. Under Python's full case mapping, two non-ASCII characters lowercase to something containing an ASCII letter. The Kelvin sign U+212A becomes "k", and no level name contains "k". The capital I with dot above, U+0130, becomes "i" followed by the combining dot U+0307. The combining dot stays in the result, so "MEDİUM" lowercases to a 7-character string that is not "medium".
- Class labels other than integers (for example, string labels from a classifier trained on text classes): the model treats a label as truthy exactly when it is non-zero.
