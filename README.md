# Crop advisory recommendation engine in Dafny

This project models the recommendation engine of a small crop-advisory
command-line tool (`advisor.py`). The engine takes a crop name, a soil pH, the
nitrogen, phosphorus and potassium readings of the soil, an expected rainfall
in millimetres and a rule table. It does the following:

- Normalises the crop name into a key, by removing surrounding whitespace and lowercasing.
- Rejects a key that is missing from the table, listing the known keys in ascending order.
- Otherwise picks exactly one pH advisory: low, high or within the crop's ideal range.
- Appends one rainfall tip to the crop's notes.
- Estimates an N/P/K amount. For a non-negative base, each base amount is raised by up to 30% according to how far the soil reading falls below its threshold; the same factor lowers a negative base.
- Adds a warning for each nutrient whose reading is below its threshold, in N, P, K order.

The model has four modules:

- `Numeric` (`numeric.dfy`):
  - `max`, `min` and the `clamp` helper;
  - Python 3's `round` to an integer (round half to even);
  - `round(x, 2)`, which is used to echo the readings.
- `Text` (`text.dfy`): the key normalisation `crop.strip().lower()`.
  - `strip` removes every character that Python's `str.isspace` accepts.
  - `lower` is modelled on ASCII letters.
- `StringOrder` (`ordering.dfy`): Python's code-point order on strings. `SortedKeys` is `sorted` on the set of table keys.
- `Advisor` (`advisor.dfy`):
  - the rule table, messages, tips and result records;
  - the nested `adjust` and its severity;
  - the three choice functions (pH advisory, rainfall tip, nutrient warnings);
  - `Recommend` itself, as a method that builds `messages` and `tips` step by step, as the source does;
  - a worked maize example.

Soil readings, thresholds and base amounts are exact `real`s; rainfall is an
`int`. Messages and tips are datatype variants (which advisory, which tip),
not their wording. A crop note is a `Note(text)` tip carrying the note's text.
The unknown-crop error is the `Failure` variant of a `Result`, carrying the
crop name as given and the sorted list of known keys.

Behaviour of the code worth knowing:

- An unknown crop raises `ValueError`, modelled as `Failure(UnknownCrop(...))`.
- The severity divides by `max(low_thr, 1e-6)` (advisor.py:73). Once the threshold is at least `1e-6`, every reading at or below zero gets the full 30% boost (`Advisor.AdjustFullBoost`). With a smaller threshold, a reading close to zero may get only part of the boost: `Advisor.TinyThresholdPartialBoost` shows that with threshold `1e-7` a reading of 0 has severity 0.1, so a base of 100 becomes 103. A reading far below zero still gets all of it, even with threshold `1e-7` or 0 (`Advisor.FarBelowZeroFullBoost`).
- The boost multiplies the base (advisor.py:74). So the rule "a lower reading never lowers the estimate" holds for a non-negative base (`Advisor.AdjustMonotone`), and can fail for a negative one. `Advisor.NegativeBaseNotMonotone` gives a negative-base counterexample.
- For a non-negative base the estimate is at least `round(base)` (`Advisor.AdjustBounds`), not at least `base`. Without a shortfall it is `int(round(base))` (advisor.py:75), so `Advisor.EstimateBelowBase` shows that a base of 120.4 gives 120.
- Rounding is Python 3's `round`, which rounds half to even.

## Model

| member | source | states |
|---|---|---|
| Numeric.Max | advisor.py:73 | `max(a, b)` is at least both arguments and is one of them |
| Numeric.Min | advisor.py:21 | `min(a, b)` is at most both arguments and is one of them |
| Numeric.Clamp | advisor.py:20-21 | `clamp(x, lo, hi)`: never below `lo`; within `[lo, hi]` when `lo <= hi`; `x` itself inside the interval, `lo` or `hi` at or beyond each end; `lo` when the interval is empty, since `max` is applied last |
| Numeric.ClampMonotone | advisor.py:20-21 | on a well-formed interval, clamping keeps the order of two points |
| Numeric.Round | advisor.py:74-75 | `round(x)` is an integer within 1/2 of `x`, and the even one when `x` is exactly halfway |
| Numeric.RoundUnique | advisor.py:74-75 | those two properties determine `round(x)` completely |
| Numeric.RoundMonotone | advisor.py:74-75 | `round` never reverses the order of two reals |
| Numeric.RoundTo2 | advisor.py:93-96 | the echoed reading `round(x, 2)` lies within 0.005 of `x` |
| Text.Strip | advisor.py:39 | `strip()` returns a contiguous part of the name; everything before and after it is whitespace; it neither starts nor ends with whitespace |
| Text.StripCharacterised | advisor.py:39 | any part of the name with those properties is exactly what `strip()` returns |
| Text.Lower | advisor.py:39 | `lower()` keeps the length and maps each character on its own: an ASCII capital becomes the lowercase letter at the same place in the alphabet, and every other character is unchanged |
| Text.StripLower | advisor.py:39 | stripping and lowercasing commute |
| Text.Normalize | advisor.py:39 | the crop key is no longer than the name, holds no capital letter and has no whitespace at either end |
| Text.NormalizeFixedPoint | advisor.py:39 | a name is its own key exactly when it has no capital letter and no whitespace at either end |
| Text.NormalizeIdempotent | advisor.py:39 | normalising a key again changes nothing |
| Text.NormalizeIgnoresPadding | advisor.py:39 | whitespace added around a crop name does not change its key |
| Text.NormalizeIgnoresCase | advisor.py:39 | lowercasing a crop name first does not change its key |
| StringOrder.SortedKeys | advisor.py:42 | the keys listed in the unknown-crop error are strictly ascending and are exactly the table's keys, each once |
| StringOrder.ListingUnique | advisor.py:42 | two strictly ascending listings of the same strings are equal |
| StringOrder.SortedKeysUnique | advisor.py:42 | `SortedKeys` is the only strictly ascending listing of the keys |
| Advisor.Severity | advisor.py:73 | severity lies in `[0, 1]`; it is positive exactly when the reading is below the threshold, and 0 otherwise |
| Advisor.SeverityMonotone | advisor.py:73 | a lower reading is at least as severe |
| Advisor.Adjust | advisor.py:70-75 | a reading at or above the threshold leaves the estimate at `round(base)` (equality gives no boost) |
| Advisor.AdjustBounds | advisor.py:70-75 | for a non-negative base, the estimate lies between `round(base)` and `round(1.3 * base)` |
| Advisor.AdjustMonotone | advisor.py:70-75 | for a non-negative base, lowering the reading never lowers the estimate |
| Advisor.EstimateBelowBase | advisor.py:70-75 | with no shortfall the estimate is the rounded base and can lie below the base: 120.4 gives 120 |
| Advisor.FarBelowZeroFullBoost | advisor.py:73-74 | with threshold `1e-7` or 0, a reading of -1 has severity 1, and a base of 100 becomes 130 |
| Advisor.NegativeBaseNotMonotone | advisor.py:70-75 | for a negative base, lowering the reading can lower the estimate |
| Advisor.AdjustFullBoost | advisor.py:73-74 | a reading at or below 0, with a threshold of at least `1e-6`, has severity 1 and gets the full 30% boost |
| Advisor.TinyThresholdPartialBoost | advisor.py:73-74 | with threshold `1e-7`, a reading of 0 has severity 0.1 and a base of 100 becomes 103, not 130 |
| Advisor.PhAdvisory | advisor.py:53-58 | the pH advisory names the key and reading. It is LOW iff the reading is below the ideal low, HIGH iff it is not low and above the ideal high, otherwise within range |
| Advisor.PhAdvisoryUnique | advisor.py:53-58 | exactly one advisory meets that description |
| Advisor.PhAtUpperEndInRange | advisor.py:55-58 | a reading equal to the ideal high is within range |
| Advisor.RainfallTip | advisor.py:61-66 | the rainfall tip is low iff rainfall is below the low threshold, high iff it is not low and above the high threshold, otherwise moderate |
| Advisor.RainfallTipUnique | advisor.py:61-66 | exactly one tip meets that description |
| Advisor.LowCount | advisor.py:82-87 | the number of low readings is at most 3; it is 0 iff no reading is low and 3 iff all are |
| Advisor.NutrientWarnings | advisor.py:82-87 | the warnings are nutrient warnings only, in strict N, P, K order; each is present iff its reading is below its threshold; one warning per low reading |
| Advisor.OrderedWarningsDetermined | advisor.py:82-87 | a list of nutrient warnings in strict N, P, K order is fixed by which warnings it holds |
| Advisor.WarningsUnique | advisor.py:82-87 | any list meeting that description of the warnings is exactly the list the engine builds |
| Advisor.WarningIffSevere | advisor.py:77-87 | a nutrient's warning is given exactly when its severity is positive, that is when its estimate takes the boosting branch |
| Advisor.NoteTips | advisor.py:50 | the crop's notes become tips one for one, in their original order |
| Advisor.MessagesCharacterised | advisor.py:49-87 | the messages are exactly one fitting pH advisory followed by the fitting nutrient warnings (both directions) |
| Advisor.TipsCharacterised | advisor.py:50-66 | the tips are exactly the crop's notes in order followed by one fitting rainfall tip, so there is one more tip than notes (both directions) |
| Advisor.Recommend | advisor.py:38-106 | Fails iff the normalised key is not in the table. The failure carries the crop as given and the strictly ascending list of exactly the table's keys. On success: the result's crop is the key; soil readings are echoed via `round(x, 2)` and rainfall unchanged; `npk_estimate` is `[adjust N, adjust P, adjust K]`; messages are the pH advisory followed by the nutrient warnings; tips are the notes followed by the rainfall tip |
| Advisor.MaizeChoices | advisor.py:53-87 | for the maize entry with pH 5.0, N/P/K 20/50/45 and 500 mm of rain: the advisory is LOW, only the nitrogen warning is given, the rainfall tip is moderate and the estimate is `[132, 60, 40]` |
| Advisor.MaizeExample | advisor.py:38-106 | the name `" Maize\t"` is accepted as `maize` and yields exactly that LOW advisory, nitrogen warning, estimate and note-then-moderate tips |

## Left out

- File and JSON I/O are not modelled, because they are I/O outside the engine: loading the rule table, creating the output directory, the history file and its fallback for a corrupt file, the text report, and `datetime` timestamps (advisor.py:11-17, 109-154).
- Argument parsing, `parse_float`/`parse_int` and `main` are not modelled. They wrap Python's `float()`/`int()` parsing and `argparse`, and print to the console (advisor.py:24-35, 157-204).
- Floating point: readings, thresholds and products are exact reals. Binary rounding error in `base * (1.0 + 0.30 * severity)` is not modelled, nor are NaN and infinities. `0.30` and `1e-6` are taken as their exact decimal values.
- Numeric.RoundTo2: states only that the echoed value lies within 0.005 of the reading. `round(x, 2)` on a binary float is otherwise a display detail.
- Text.Lower: lowercases ASCII letters only. Python's `lower()` also lowercases non-ASCII letters.
- The wording of messages and tips is not modelled: the literal strings, the `:.1f` formatting of the pH inside them, and the `", "`-joined error text. Only which variant is chosen, with the crop key and the reading it reports, is modelled.
- The fixed `explain` string of the result is not modelled, because it is a constant that does not depend on the inputs.
- Malformed rule tables are not modelled. The table is typed, so a crop entry always has its pH range, its base amounts and a notes list. A missing `notes` key, which the source treats as no notes, is the empty list.
- Calling `recommend` twice on the same inputs gives the same result. No separate lemma states this, because `Recommend` is deterministic and its postcondition fixes every field of the result.
