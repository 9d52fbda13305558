# Automatic Discount Calculator — discount and settlement engine

This project models the computation engine of the Automatic Discount Calculator. The engine turns each line of a merged sales ledger into a final discount and a settlement-adjusted net amount. It runs as one pass over the ledger when the user presses the calculate button, and works in stages:

1. **Normalisation.** The tier, quantity, gross value and the two dates are coerced to canonical values.
2. **Tier matrix.** The base discount comes from an ordered band table, and the last matching band wins.
3. **Policy modifiers.** The services override zeroes the base discount. The Electronics boost and penalty months add to the policy accumulator, and they stack.
4. **Custom rule stack.** Rules apply in list order: Add, Subtract or SetDiscountTo. A rule compares lower-cased, stripped text.
5. **Advanced formula.** An optional predicate adds a signed percentage to the custom accumulator.
6. **Aggregation.** The three accumulators are summed and clipped at 0, which gives the discount percentage and the discount amount.
7. **Settlement.** An early rebate or a late penalty is applied from the day gap, and late overwrites early.
8. **Net.** The net amount is clipped at 0.

The source mutates one data frame column by column. The model keeps that form:

- `Engine.Frame` is a class whose accumulator and settlement columns are arrays, one entry per row.
- Each masked pandas assignment (`df.loc[mask, col] = v`, `+= v`) is a `forall` statement over the rows (`SetBase`, `SetPolicy`, `ShiftPolicy`, `ShiftCustom`).
- The loops over matrix bands and over staged rules are `for` loops with invariants.

Each stage method is proved against a per-row specification function in `Discount` or `Settlement`. The ordering properties are lemmas about those functions: last band wins, rules apply in list order, SetDiscountTo resets only two accumulators, and late beats early. `Engine.Calculate` runs the stages in the source's order and proves that every output row equals `RowResult` of its normalised input.

Files:

- `wrappers.dfy`: `Option`.
- `text.dfy`: `strip`, `lower` and substring search.
- `ledger.dfy`: rows and normalisation.
- `discount.dfy`: matrix, policy, rules, formula and aggregation.
- `settlement.dfy`: settlement and net.
- `engine.dfy`: the frame class and the end-to-end method.
- `scenarios.dfy`: the shipped defaults and worked cases.

Money and percentages are `real`: the model states exact-arithmetic intent. Dates are a serial day number plus the calendar month.

Notes on the code that the model follows:

- The engine appends eight computed columns (app.py:320-321): the three accumulators, the final percentage, the discount amount, the penalty percentage, the settlement adjustment and the net amount.
- Quantity is truncated to an integer but not forced to be non-negative (app.py:231).
- `Amount_Pct >= 0` is enforced only by the rule editor, not by the engine.
- app.py:230-235 index Dealer_Tier, Quantity, Gross_Invoice_Value, Invoice_Date and Payment_Receipt_Date, so a ledger without one of them stops the run with an error. `Engine.Calculate` therefore requires these five columns (`Ledger.CoercedColumns`). The Invoice_Date and Payment_Receipt_Date presence tests (app.py:250, app.py:304) then always hold, and only the presence of `Product_Category` is a parameter.
- Custom rules read the frame after app.py:230-235 have rewritten it (app.py:266). A missing dealer tier reads "Unregistered/Direct", a quantity of 12.7 reads "12", an unparsable gross value reads "0.0", and a pending or unparsable date reads "NaT".

## Model

| member | source | states |
|---|---|---|
| `Text.Trim` | app.py:261-266 | `str.strip()`: the result neither starts nor ends with Python whitespace (`str.isspace()`), and it is an infix of the input whose cut-away prefix and suffix are all whitespace |
| `Text.Lower` | app.py:261-266 | `str.lower()`: same length, and each character is lower-cased (ASCII letters) |
| `Text.FoldKeepsPlainText` | app.py:261-266 | lower-then-strip leaves text without upper-case letters or surrounding whitespace unchanged |
| `Text.ContainsIffOccurs` | app.py:273-274 | the Contains test holds exactly when the value occurs at some position of the cell |
| `Ledger.TruncateToInt` | app.py:231 | `astype(int)` truncates toward zero: the result lies within 1 of the input, on the zero side |
| `Ledger.Normalise` | app.py:230-235 | missing tier → "Unregistered/Direct", otherwise stripped; unparsable quantity → 0, otherwise truncated; unparsable gross → 0.0 (its cell then renders "0.0"); a "PENDING"/"pending" or unparsable payment date is absent |
| `Ledger.IntTextRoundTrip` | app.py:231 | the decimal rendering of an integer quantity reads back as that integer, so distinct quantities render differently |
| `Ledger.CellText` | app.py:266 | defines the `astype(str)` text of a cell after normalisation: tier and quantity from the normalised fields, "nan" for a missing category, "NaT" for a missing date, the raw rendering otherwise; characterised by `Ledger.NormalisedCellText` |
| `Ledger.NormalisedCellText` | app.py:230-235 | a rule reads the normalised cells: the filled and stripped tier, the truncated quantity, "0.0" for an unparsable gross value, "NaT" for a missing or pending date, "nan" for a missing category, and the raw rendering for the other columns |
| `Discount.TierDiscount` | app.py:242-244 | defines the band loop on one row as a fold over the table, each matching band overwriting the base; characterised by `Discount.LastMatchingBandWins` and `Discount.UnmatchedRowKeepsBase` |
| `Discount.LastMatchingBandWins` | app.py:242-244 | the base discount is that of the last band in table order whose tier matches and whose `Min_Qty <= Quantity <= Max_Qty` |
| `Discount.UnmatchedRowKeepsBase` | app.py:237-244 | a row that no band matches keeps its base discount (0.0 in the engine) |
| `Discount.ApplyPolicy` | app.py:247-254 | with the override on, a Services row's base becomes 0.0 and other rows keep theirs; an Electronics row gains +2.0 in a boost month and −1.0 in a penalty month; other rows' policy modifier and every custom adjustment are unchanged |
| `Discount.BoostAndPenaltyStack` | app.py:250-254 | a month in both sets nets +1.0 for an Electronics row |
| `Discount.RuleSelects` | app.py:265-274 | defines a rule's mask: the column exists and the lower-cased, stripped cell text satisfies the operator against the lower-cased, stripped value; characterised by `Discount.EqualsComplementsNotEquals`, `Discount.QuantityEqualsSelectsExactly` and `Text.ContainsIffOccurs` |
| `Discount.ApplyRule` | app.py:265-282 | an unselected row is unchanged; Add raises and Subtract lowers the custom accumulator by the amount; SetDiscountTo sets base to the amount and policy to 0.0 and keeps custom |
| `Discount.ApplyRules` | app.py:257-282 | defines the rule loop on one row as a fold in list order; characterised by `Discount.ApplyRulesConcat`, `Discount.CustomIsSignedTotal`, `Discount.LastSetDiscountWins` and `Discount.NoSetKeepsBaseAndPolicy` |
| `Discount.ApplyRulesConcat` | app.py:258-282 | applying `rules1 + rules2` equals applying `rules1` and then `rules2` (rules apply in list order) |
| `Discount.CustomIsSignedTotal` | app.py:276-282 | after the whole stack, the custom accumulator is its start plus the signed amounts of the selecting Add/Subtract rules; SetDiscountTo never touches it |
| `Discount.LastSetDiscountWins` | app.py:280-282 | the last selecting SetDiscountTo rule decides the base, and the policy modifier ends at 0.0 |
| `Discount.NoSetKeepsBaseAndPolicy` | app.py:276-282 | without a selecting SetDiscountTo rule, base and policy are unchanged by the stack |
| `Discount.AbsentColumnRulesAreNoOps` | app.py:265 | rules whose column the frame lacks change nothing |
| `Discount.EqualsComplementsNotEquals` | app.py:269-272 | on an existing column, Equals and Not Equals select complementary rows |
| `Discount.QuantityEqualsSelectsExactly` | app.py:266-270 | an Equals rule on Quantity whose value is an integer's rendering selects exactly the lines whose truncated quantity is that integer |
| `Discount.ApplyFormula` | app.py:285-293 | base and policy never change; with no staged formula, a blank text, a zero amount or a failed evaluation nothing changes; otherwise a row the predicate holds on gains the amount in custom |
| `Discount.FinalDiscount` | app.py:296-297 | the final percentage is ≥ 0, ≥ the sum of the accumulators, and equal to the sum or to 0 |
| `Discount.DiscountAmount` | app.py:298 | amount × 100 = gross × percentage; non-negative for non-negative inputs; at most gross when the percentage is at most 100 |
| `Settlement.DaysGap` | app.py:305-306 | a gap exists exactly when both dates do, and invoice day + gap = payment day |
| `Settlement.Settle` | app.py:301-313 | missing date → zero settlement; late → penalty % and gross × % / 100; early and not late → −rebate; otherwise zero |
| `Settlement.SettlementUnderOrderedTerms` | app.py:308-313 | with early < late thresholds: a gap ≤ early gives −rebate, a gap > late gives the penalty, and a gap in between gives zero |
| `Settlement.LateBeatsEarly` | app.py:308-313 | a gap that is both early and late (possible only when late < early) takes the late penalty |
| `Settlement.NetAmount` | app.py:316-317 | the net is ≥ 0, ≥ gross − discount + adjustment, and equal to it or to 0 |
| `Engine.Report` | app.py:296-317 | an output row has final % = FinalDiscount ≥ 0, discount × 100 = gross × final %, and net ≥ 0 clipped from gross − discount + adjustment |
| `Engine.RowResult` | app.py:237-317 | defines one row's output: tiers from a zero base, then policy, rules and formula, then `Report` with `Settle`; characterised by `Engine.Report` and `Scenarios.GoldLineEndToEnd` |
| `Engine.SelectColumns` | app.py:319-324 | a column is in the output list exactly when it is listed and present in the frame |
| `Engine.SelectColumnsConcat` | app.py:323 | selecting from a concatenation is selecting from each part in turn: the selection keeps the listed order |
| `Engine.SelectAllPresent` | app.py:319-324 | when every listed column is present, the selection is the whole list in order |
| `Engine.Frame.constructor` | app.py:227-239 | the frame holds the normalised rows, and every accumulator and settlement entry starts at 0.0 |
| `Engine.Frame.SetBase` | app.py:244 | masked overwrite of the base column; unmasked rows unchanged |
| `Engine.Frame.SetPolicy` | app.py:282 | masked overwrite of the policy column; unmasked rows unchanged |
| `Engine.Frame.ShiftPolicy` | app.py:253-254 | masked `+=` on the policy column; unmasked rows unchanged |
| `Engine.Frame.ShiftCustom` | app.py:277-279 | masked `+=` on the custom column; unmasked rows unchanged |
| `Engine.Frame.ResolveTiers` | app.py:242-244 | after the band loop, every row's base is `TierDiscount` of the bands over its old base; nothing else changes |
| `Engine.Frame.ApplyPolicyModifiers` | app.py:247-254 | every row's accumulators become `ApplyPolicy` of the old ones |
| `Engine.Frame.ApplyRuleToFrame` | app.py:259-282 | every row's accumulators become `ApplyRule` of the old ones |
| `Engine.Frame.ApplyCustomRules` | app.py:257-282 | after the rule loop, every row's accumulators are `ApplyRules` of the whole list over the old ones |
| `Engine.Frame.ApplyAdvancedFormula` | app.py:285-293 | every row becomes `ApplyFormula` of its old accumulators; a warning is returned exactly when an enabled formula fails to evaluate, and it carries the error message |
| `Engine.Frame.ComputeSettlement` | app.py:301-313 | after the reset, the early write and the overwriting late writes, every row's settlement is `Settle` of its row |
| `Engine.Frame.Results` | app.py:296-317 | the output has one row per frame row, each the `Report` of its final accumulators and settlement |
| `Engine.Calculate` | app.py:227-324 | given a ledger with the five coerced columns, one run: every output row is `RowResult` of its normalised input; the output columns are the merged columns followed by the eight computed ones; a warning is raised exactly when an enabled formula fails |
| `Scenarios.OverlappingBandsTakeTheLater` | app.py:242-244 | Gold bands (1-999: 2.0) and (500-999999: 5.0) give quantity 700 a base of 5.0 |
| `Scenarios.GoldLineBase` | app.py:157-162 | the default matrix gives a Gold line of 600 units a base of 5.0 |
| `Scenarios.GoldLineEndToEnd` | app.py:157-175 | under the default knobs, a Gold Electronics line (600 units, 10000, July, paid after 10 days) gets 7.0 %, a discount of 700, a rebate of −500 and a net of 8800 |
| `Scenarios.CaseAndSpaceInsensitiveMatch` | app.py:261-270 | an Equals rule with value "spares" selects a line whose category is " SPARES " |
| `Scenarios.GoldTierSelected` | app.py:261-270 | an Equals rule on Dealer_Tier with value "gold" selects a Gold line |
| `Scenarios.MissingDealerReadsDefaultTier` | app.py:230-270 | a rule for "unregistered/direct" selects a line whose dealer tier cell was missing |
| `Scenarios.TruncatedQuantityMatchesItsInteger` | app.py:231-270 | for a line of 12.7 units, a rule for "12" selects it and one for "12.7" does not |
| `Scenarios.PendingPaymentReadsNaT` | app.py:234-270 | for a pending payment, a rule for "pending" does not select the line and one for "NaT" does |
| `Scenarios.SetDiscountKeepsEarlierAdjustments` | app.py:276-282 | Add 3.0 then SetDiscountTo 4.0 turns (5.0, 2.0, 0.0) into (4.0, 0.0, 3.0) |

## Left out

- The Streamlit page is not modelled: branding, session state, template download, file upload and reading, the data editors, and the display and Excel export of the result (app.py:10-65, 326-340). These are user interface and I/O.
- The dealer-master merge and rename (app.py:116-138) is not modelled. It is a relational left-join done by the library. The engine receives its result as `RawRow`s and the merged column list.
- Numeric and date parsing (`to_numeric`/`to_datetime` with `errors='coerce'`, app.py:231-235) is the library's. A `RawRow` carries what parsing produced, or `None` when parsing failed.
- Ledger.Normalise: the printing of a parsed gross value and of a parsed date (float and timestamp formatting, app.py:232-235, 266) is the library's. The raw row supplies it in `text`, as it does for every column the engine does not rewrite; a cell the row does not carry reads "nan".
- Text.Lower: only ASCII letters are lower-cased; Python's Unicode case mapping is not modelled.
- Discount.OpHolds: `Contains` is plain substring search; the regular-expression reading of `str.contains` (app.py:274) is not modelled.
- Discount.ApplyFormula: the expression evaluator (`df.eval`, app.py:290) is not modelled. The caller supplies its verdict: either an error, or a per-row predicate over the row and its accumulators. Expressions that aggregate across rows are not covered.
- IEEE floating point is not modelled (rounding, NaN, infinities): money and percentages are `real`. A band whose `Discount_Percent` is blank would write NaN in the source; the model has no such value.
- Ledger.TruncateToInt: `astype(int)` casts to a 64-bit integer; a parsed quantity outside that range, or an infinite one, is not cast faithfully by the source, whereas the model truncates any real to an unbounded integer.
- Dates are day numbers with their month. Times of day, and the flooring of `.dt.days`, are not modelled.
- A custom rule whose target is one of the engine's own computed columns is not modelled. The rule editor offers only the merged columns.
- Engine.Frame: the frame's columns are arrays inside one object. Aliasing between frames, and the column-by-column memory layout of pandas, are not modelled.
