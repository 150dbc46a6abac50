# Quality-screener decision engine, in Dafny

This project models `compute_actions` from `engine.py`, the core of a stock
screener. The engine takes a table of companies, where each row holds
upstream quality flags, a score and a drawdown from the 52-week high. It
gives every row one of six actions: REVIEW SELL, STRONG BUY,
SPECULATIVE / WATCH, BUY, WATCH or HOLD. It also adds the reason columns,
BUY_SIGNAL and SELL_SIGNAL, and sorts the table with buys first.

The model follows the program's own structure:

- **`Text`** holds Python's string operations the engine relies on:
  - `strip` over Python's whitespace set;
  - ASCII `lower`;
  - `startswith`;
  - left-to-right, non-overlapping `replace`;
  - `sep.join`;
  - `str` of an integer.
- **`Cells`** covers the three coercers.
  - A raw cell is a `Cell`: missing, Python `bool`, numpy `bool_`, integer, float or text.
  - `ToBool` is `_to_bool`.
  - `ToNum` is `_to_num`, with `float()` on text given as a parameter.
  - `NormalizeDrawdown` is `_normalize_drawdown`.
  - A float value is a `Num`: a finite real, or NaN.
- **`Rows`** describes a row.
  - `RawRow` and `Row` hold the recognised columns before and after the type conversions. Each column is an `Option`, `None` when absent.
  - `SafeGet` is `_safe_get`.
  - `Resolve` turns the configuration mapping into a `Config`, using the engine's defaults.
- **`Rules`** holds `_passes_required`, `sell_signal`, `buy_gate` and `decide`. It keeps the same branch order and the same output strings as the code. The admitted branch of `decide` still re-parses the buy gate's reason text.
- **`RuleFacts`** states what `decide` amounts to. `Expected` is a decision table written directly over the columns. The lemmas tie `Decide` to that table and draw the consequences.
- **`Ordering`** gives the sort key, the descending order with NaN last, and a sorting function. It also proves that the key sequence of a sorted arrangement is unique.
- **`Engine`** is `compute_actions` end to end.
- **`Scenarios`** holds worked examples from raw cells.

## Behaviour worth knowing

- **A failed required check is a sell.** A required check that fails makes `sell_signal` fire. `decide` asks `sell_signal` before the buy gate, so such a row is REVIEW SELL.
  - The SPECULATIVE / WATCH action therefore never occurs (`RuleFacts.DecideNeverSpeculative`).
  - ALLOW_SPECULATIVE changes no output (`RuleFacts.AllowSpeculativeIrrelevant`).
  - A healthy row with `pass_debt` false and the debt check required is REVIEW SELL (`Scenarios.FailedDebtSells`).
- **A row whose entry is not permitted is never WATCH.** The watch list is only built when entry is permitted. Take such a row with QUALITY_PASS true and `pass_fcf` false.
  - Under the default configuration, which requires the FCF check, it is REVIEW SELL.
  - With the FCF check not required it is HOLD.
- **Rows with equal sort keys.** The code does not request a stable sort. The model fixes only the order of the sort keys and leaves the order of rows with equal keys open.

## Model

| member | source | states |
|---|---|---|
| Cells.ToBool | engine.py:25-31 | a missing value or a float reads as false; a boolean is returned unchanged; an integer reads as true exactly when it is 1 (an integer too long for Python's `str` is admitted under Left out); text reads as true exactly when its stripped, lower-cased form is one of the affirmative words |
| Cells.IntTextIsTrue | engine.py:30-31 | the text of an integer is one of the affirmative words exactly when the integer is 1 |
| Cells.FloatTextNeverTrue | engine.py:30-31 | Python's text of a float is never an affirmative word |
| Cells.ToBoolIgnoresPadding | engine.py:30-31 | whitespace around a text cell never changes its truth value |
| Cells.ToBoolIgnoresCase | engine.py:30-31 | lower-casing a text cell first never changes its truth value |
| Cells.ToBoolCapitalised | engine.py:30-31 | "Sim" and "YES" read as true |
| Cells.ToBoolPlainWords | engine.py:30-31 | "1" and " ok " read as true |
| Cells.ToBoolFalseExamples | engine.py:25-31 | "no", "", a missing value, the integer 2 and the float 1.0 read as false |
| Cells.Clean | engine.py:38 | the cleaned text has no '%' and no ',' and is no longer than the input |
| Cells.CleanIsReplace | engine.py:38 | replacing every '%' by nothing and then every ',' by '.' equals dropping each '%', turning each ',' into '.' and keeping every other character in order |
| Cells.NumberText | engine.py:38 | the text handed to float() is the stripped text with each '%' dropped, each ',' turned into '.', and every other character kept in order |
| Cells.ToNum | engine.py:33-42 | missing gives NaN; bool gives 1.0 or 0.0; integers and floats keep their value; numpy bool and text go through float() of their cleaned text |
| Cells.NumberTextOfWord | engine.py:38 | text without whitespace, '%' or ',' reaches float() unchanged |
| Cells.ToNumIgnoresPadding | engine.py:38-40 | whitespace around a numeric text never changes the number read |
| Cells.NumberTextDropsPercent | engine.py:38 | "25%" reaches float() as "25" |
| Cells.NumberTextDecimalComma | engine.py:38 | " -0,25 " reaches float() as "-0.25" |
| Cells.NormalizeDrawdown | engine.py:44-54 | NaN stays NaN; a value at or below -1 is divided by 100; anything above -1 is unchanged |
| Cells.NormalizeDrawdownExamples | engine.py:45-54 | -25 gives -0.25; -0.25 is unchanged; -1 gives -0.01 |
| Cells.NormalizeDrawdownSettles | engine.py:50-54 | a value above -100 lands above -1, and a second pass leaves it alone |
| Cells.NormalizeDrawdownNotIdempotent | engine.py:52-53 | at -100 a second pass divides again |
| Rows.SafeGet | engine.py:56-57 | the column's value when present, else the default |
| Rows.BoolColumn | engine.py:107-109 | a boolean column is present after conversion exactly when it was present before, and then holds _to_bool of its cell |
| Rows.NumColumn | engine.py:103-105 | a numeric column is present after conversion exactly when it was present before, and then holds _to_num of its cell |
| Rows.DdNorm | engine.py:111-115 | dd_norm is NaN when the drawdown column is absent, and the normalised drawdown otherwise |
| Rows.NormalizeRow | engine.py:102-115 | every recognised column keeps its presence and holds the converted value of its cell: _to_num for the numeric columns, _to_bool for the flags; dd_norm is the normalised converted drawdown, or NaN without a drawdown column |
| Rows.NormalizeRowIdempotent | engine.py:102-115 | writing the converted columns back as cells and converting again, with any float parser, gives the same row |
| Rows.Resolve | engine.py:66-121 | every setting that is given overrides its default; every missing one takes its own default: SCORE_BUY_MIN 70, DD_BUY -0.20, DD_STRONG -0.30, debt, interest and FCF required, ROIC and payout not required, speculation allowed |
| Rows.DefaultConfig | engine.py:66-121 | the defaults: SCORE_BUY_MIN 70, DD_BUY -0.20, DD_STRONG -0.30; debt, interest and FCF required; ROIC and payout not required; speculation allowed |
| Rules.PassesRequired | engine.py:59-86 | a check is listed exactly when it is switched on and its flag is not present and true; the list follows the fixed order debt, interest cover, FCF, ROIC, payout, without repeats |
| Rules.SellSignal | engine.py:123-130 | sells exactly when QUALITY_PASS is present and false, or a required check fails; the reason is QUALITY_PASS=FALSE first, otherwise the failures joined by " / " |
| Rules.BuyGate | engine.py:132-155 | admits exactly when entry is permitted, QUALITY_PASS is true, the row is a buy candidate or its score qualifies, the drawdown is not shallower than DD_BUY, and no required check fails unless speculation is allowed; the first failing test names the reason |
| Rules.ClassifyAdmitted | engine.py:162-172 | an admitted gate gives STRONG BUY, SPECULATIVE / WATCH or BUY with the gate's text as REASON_BUY and an empty REASON_SELL; STRONG BUY needs a drawdown at most DD_STRONG; SPECULATIVE / WATCH needs speculation allowed and non-empty FAILED_CHECKS; a plain ENTRY_OK gives STRONG BUY exactly at a drawdown at most DD_STRONG, else BUY |
| Rules.Decide | engine.py:157-183 | REVIEW SELL exactly when sell_signal fires, with its reason in REASON_SELL and FAILED_CHECKS; a buy meets the entry conditions and carries ENTRY_OK alone; never SPECULATIVE / WATCH; WATCH only with entry permitted, naming the false flags; HOLD with empty reasons. RuleFacts.DecideAction ties the action to the reference table |
| Rules.WatchFlags | engine.py:174-178 | holds exactly the flags that are present and false, in the order debt, interest cover, FCF, payout, ROIC |
| RuleFacts.PassesRequiredEmpty | engine.py:59-86 | the failure list is empty exactly when no switched-on check fails |
| RuleFacts.SellSignalIff | engine.py:123-130 | sell_signal fires exactly on a present false QUALITY_PASS or a failing switched-on check |
| RuleFacts.WatchFlagsEmpty | engine.py:174-180 | the watch list is empty exactly when no flag is present and false |
| RuleFacts.ClassifyEntryOk | engine.py:162-172 | a plain ENTRY_OK gives STRONG BUY when the drawdown is a number at most DD_STRONG, else BUY, with reason ENTRY_OK |
| RuleFacts.FlagsRecovered | engine.py:152-166 | stripping the ENTRY_OK_WITH_FLAGS: prefix gives back the comma-joined failures, which are non-empty; re-separating them gives the " / "-joined list |
| RuleFacts.ClassifyFlagged | engine.py:163-172 | an admitted gate reason with flags is SPECULATIVE / WATCH when speculation is allowed, with FAILED_CHECKS the " / "-joined failures, and BUY otherwise |
| RuleFacts.GateAdmitsWithFlags | engine.py:149-152 | taken alone, the buy gate admits a row with failing required checks when speculation is allowed |
| RuleFacts.GateAfterSellIsPlain | engine.py:149-155 | once the sell signal is quiet, the buy gate admits exactly on the entry conditions, and always with the plain ENTRY_OK |
| RuleFacts.DecideAction | engine.py:157-183 | decide's action is the reference table: a structural break sells; otherwise the entry conditions buy, strongly at a drawdown at most DD_STRONG; otherwise a permitted entry with a false flag watches; otherwise hold |
| RuleFacts.DecideNeverSpeculative | engine.py:157-171 | decide never returns SPECULATIVE / WATCH |
| RuleFacts.SellReasons | engine.py:158-160 | a sell copies the sell reason into REASON_SELL and FAILED_CHECKS and leaves REASON_BUY empty |
| RuleFacts.BuyReasons | engine.py:162-172 | a buy carries REASON_BUY ENTRY_OK and empty REASON_SELL and FAILED_CHECKS |
| RuleFacts.WatchReasons | engine.py:174-183 | WATCH puts the " / "-joined false flags, which are non-empty, in REASON_SELL and FAILED_CHECKS; HOLD leaves every reason empty |
| RuleFacts.WatchExcludesRequired | engine.py:157-181 | a WATCH row lists only checks that are not required |
| RuleFacts.QualityGateOnlyWhenAbsent | engine.py:125-136 | the gate's QUALITY_PASS=FALSE answer is reached from decide only when the QUALITY_PASS column is absent |
| RuleFacts.AllowSpeculativeIrrelevant | engine.py:121-171 | ALLOW_SPECULATIVE changes none of decide's output columns |
| RuleFacts.MissingGateColumnsNeverBuy | engine.py:133-136 | without an ENTRY_PERMITTED or a QUALITY_PASS column a row is never a buy |
| RuleFacts.DecideSignals | engine.py:189-190 | SELL_SIGNAL holds exactly on a structural break; BUY_SIGNAL holds exactly when there is none and the entry conditions hold |
| RuleFacts.StricterScoreNeverAddsBuy | engine.py:138-143 | raising SCORE_BUY_MIN never turns a row into a buy |
| RuleFacts.DeeperDrawdownNeverAddsBuy | engine.py:145-147 | lowering DD_BUY never turns a row into a buy |
| Ordering.KeyFirst | engine.py:192-195 | the order of sort_values on BUY_SIGNAL, SELL_SIGNAL and score, each descending, NaN last; it has no contract of its own, and Ordering.KeyFirstTotal, Ordering.KeyFirstTransitive and Ordering.KeyFirstAntisymmetric show it is a total order on keys |
| Ordering.Sorted | engine.py:192-195 | every row may precede every later row; it has no contract of its own, and Ordering.SortedMeaning states what that means column by column |
| Ordering.Insert | engine.py:192-195 | the model's own sort step, with no counterpart in the code: inserting into a sorted table keeps it sorted and adds exactly the one row |
| Ordering.SortRows | engine.py:192-195 | the result is sorted by BUY_SIGNAL, SELL_SIGNAL and score, descending with NaN last, and is a permutation of the input |
| Ordering.SortedKeysUnique | engine.py:192-195 | two sorted arrangements of the same rows agree at every position on BUY_SIGNAL, SELL_SIGNAL and score |
| Ordering.SortedMeaning | engine.py:192-195 | in a sorted table no non-buy precedes a buy; within equal BUY_SIGNAL no non-sell precedes a sell; within equal signals a numeric score is never preceded by a missing or NaN one, nor by a smaller one |
| Engine.Annotate | engine.py:185-190 | the row with decide's four columns; BUY_SIGNAL exactly for BUY and STRONG BUY, SELL_SIGNAL exactly for REVIEW SELL, never both |
| Engine.AnnotateAll | engine.py:185-190 | one annotated row per input row, in input order, each converted and decided |
| Engine.ComputeActions | engine.py:88-197 | the output has as many rows as the input, is sorted, and holds exactly the annotated input rows |
| Engine.OutputRow | engine.py:185-193 | every output row is some input row, converted and annotated |
| Engine.OutputSignals | engine.py:185-190 | every output row's action follows the reference table; BUY_SIGNAL and SELL_SIGNAL agree with it and are never both set |
| Engine.RerunSameTable | engine.py:102-195 | feeding the output's recognised columns back in gives the same rows, with the same signals and score at every position; only those columns are fed back, because the whole output, with its ACTION column, makes the code raise at engine.py line 189 |
| Scenarios.QualityFailSells | engine.py:123-126 | QUALITY_PASS false gives REVIEW SELL with reason QUALITY_PASS=FALSE |
| Scenarios.HealthyIsStrongBuy | engine.py:157-169 | a healthy buy candidate with a -35 drawdown is STRONG BUY with reason ENTRY_OK |
| Scenarios.FailedDebtSells | engine.py:123-129 | a false required debt flag with speculation allowed gives REVIEW SELL with reason pass_debt |
| Scenarios.FcfFailSells | engine.py:123-129 | entry not permitted and a false FCF flag give REVIEW SELL with reason pass_fcf under the defaults |
| Scenarios.FcfFailUnpermittedHolds | engine.py:174-183 | the same row with the FCF check not required is HOLD |
| Scenarios.FcfFailPermittedWatches | engine.py:174-181 | entry permitted, no candidate or score, and an unrequired false FCF flag give WATCH listing pass_fcf |
| Scenarios.NoScoreHolds | engine.py:138-143 | no score and not a buy candidate, with nothing failing, gives HOLD |

## Left out

- `app.py` is not part of this model. It covers the sheet fetching, the risk slider that interpolates thresholds, and the rendering.
- `float()` on text is the parameter `parse`. Its grammar is not modelled, so results about text cells hold for any parser.
- Cells.ToBool: an `int` of more than 4300 decimal digits makes `str(x)` raise ValueError at engine.py line 30, under Python's limit on integer-to-text conversion; the model reads it as false instead.
- Cells.ToNum: an `int` outside the float range makes `float(x)` raise OverflowError at engine.py line 37, outside the `try`; the model returns its exact value instead.
- Cells.ToNum: a numpy `bool_` is read through `parse("True")` / `parse("False")` rather than as the NaN Python's parser gives, because `float()` on text is the abstract `parse`.
- Floating point is exact real arithmetic. Infinities are not represented, and rounding (in `x / 100.0` for example) is not modelled.
- Lower-casing is ASCII only. Python's `lower` also maps non-ASCII letters; the Kelvin sign, for one, becomes `k`, so "oK" written with it reads as true in Python but false here.
- The text columns (ticker, name, sector, drawdown_trigger) do not affect any decision, so they are not kept.
- Column names are stripped on entry (engine.py line 95). A `RawRow` field stands for the column whose stripped name matches, so a header such as " QUALITY_PASS " is the QUALITY_PASS field; the header text itself is not modelled.
- Rules.BuyGate: the INSUFFICIENT_DRAWDOWN and FAILED_REQUIRED reasons are kept as data (the drawdown number, the check list), not as formatted text. Neither text reaches an output column.
- Column presence is per row (an `Option` per cell) where pandas has it per table. Each table-wide case is a special case of this.
- pandas' dtype inference is not modelled. The kind of every cell is given in the input.
- The configuration is taken as well typed. A setting that `float()` cannot read, or a text such as "false" that `bool()` reads as true, is not modelled.
- The sort is modelled as an insertion sort. pandas' algorithm is not. The code does not request a stable sort, so the model leaves the order of rows with equal keys open, and Ordering.SortedKeysUnique states only what every correct sort shares.
- Engine.ComputeActions: a table with no rows gives an empty result here. The code raises on it at engine.py line 186: `apply` with `result_type="expand"` returns a copy of the empty frame, and assigning the four decision column names to it fails unless the frame has exactly four columns. The exception path is not modelled.
- Engine.ComputeActions: columns the engine does not recognise are passed through by the code but dropped here; they take no part in any decision or in the sort.
- Engine.ComputeActions: an input that already has an ACTION column, such as the engine's own output, makes the code raise at engine.py line 189: `concat` at line 187 gives two ACTION columns, and their two-column `isin` result cannot be stored as BUY_SIGNAL. The model returns a result instead.
- Engine.ComputeActions: two headers that strip to the same recognised name at engine.py line 95 ("score" and "score ", say) make the code raise: the column lookup gives a two-column frame, so `_to_num` (line 34), `_to_bool` (line 26) or `.str` (line 100) fails on it. The model has one field per recognised name and returns a result instead.
