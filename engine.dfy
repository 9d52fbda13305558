/** The computation behind the "calculate" button (app.py:227-323): a frame of
    normalised rows whose accumulator and settlement columns the stages update
    in place, in the order the handler runs them. */
module Engine {
  import opened Wrappers
  import opened Text
  import opened Ledger
  import opened Discount
  import opened Settlement

  /** Everything the caller configures before a run. */
  datatype Config = Config(
    bands: seq<Band>,
    policy: Policy,
    terms: Terms,
    rules: seq<Rule>,
    formula: Option<Formula>)

  /** The computed columns appended to the output, in order (app.py:320-321). */
  const CalcColumns: seq<string> := [
    "Base_Discount_%", "Policy_Modifiers_%", "Custom_Adjustments_%", "Final_Discount_%",
    "Discount_Amount", "Penalty_Percentage_%", "Settlement_Adjustment_Amount", "Final_Net_Amount"]

  /** The message shown when the advanced formula cannot be evaluated (app.py:293). */
  function FormulaWarning(message: string): string
  {
    "Advanced Formula Error: " + message + ". Skipping this rule."
  }

  /** One computed output row. */
  datatype Output = Output(
    row: Row,
    acc: Acc,
    finalPct: real,
    discount: real,
    settlement: Settlement,
    net: real)

  /** Aggregation and net (app.py:296-298, 316-317) from a row's accumulators
      and settlement. */
  function Report(r: Row, a: Acc, s: Settlement): (o: Output)
    ensures o.row == r && o.acc == a && o.settlement == s
    ensures o.finalPct >= 0.0 && o.net >= 0.0
    ensures o.finalPct == FinalDiscount(a)
    ensures o.discount * 100.0 == r.gross * o.finalPct
    ensures o.net >= r.gross - o.discount + s.adjustment
    ensures o.net == r.gross - o.discount + s.adjustment || o.net == 0.0
  {
    var pct := FinalDiscount(a);
    var discount := DiscountAmount(r.gross, pct);
    Output(r, a, pct, discount, s, NetAmount(r.gross, discount, s.adjustment))
  }

  /** A row's accumulators after the four discount stages, in engine order. */
  function Accumulate(cfg: Config, columns: set<string>, r: Row): Acc
  {
    var tiered := Zero.(base := TierDiscount(cfg.bands, r, 0.0));
    var policed := ApplyPolicy(cfg.policy, CategoryColumn in columns, r, tiered);
    var ruled := ApplyRules(cfg.rules, columns, r, policed);
    ApplyFormula(cfg.formula, r, ruled)
  }

  /** The output the engine produces for one row. */
  function RowResult(cfg: Config, columns: set<string>, r: Row): Output
  {
    Report(r, Accumulate(cfg, columns, r), Settle(cfg.terms, r))
  }

  /** The output column list: the listed columns that the frame has, in order
      (app.py:323). */
  function SelectColumns(listed: seq<string>, present: set<string>): (cols: seq<string>)
    ensures forall c :: c in cols <==> c in listed && c in present
    ensures |cols| <= |listed|
  {
    if listed == [] then []
    else
      var rest := SelectColumns(listed[1..], present);
      if listed[0] in present then [listed[0]] + rest else rest
  }

  /** Selecting from `a + b` is selecting from `a` and then from `b`: the
      selection is a filter that keeps the listed order. */
  lemma {:induction false} SelectColumnsConcat(a: seq<string>, b: seq<string>, present: set<string>)
    ensures SelectColumns(a + b, present) == SelectColumns(a, present) + SelectColumns(b, present)
    decreases |a|
  {
    if a == [] {
      assert a + b == b;
    } else {
      assert (a + b)[1..] == a[1..] + b;
      SelectColumnsConcat(a[1..], b, present);
    }
  }

  /** Every listed column is present, so the selection keeps the whole list. */
  lemma {:induction false} SelectAllPresent(listed: seq<string>, present: set<string>)
    requires forall c :: c in listed ==> c in present
    ensures SelectColumns(listed, present) == listed
  {
    if listed != [] {
      SelectAllPresent(listed[1..], present);
    }
  }

  /** The working copy of the merged ledger. The accumulator columns and the
      settlement columns are arrays with one entry per row. */
  class Frame {
    const rows: seq<Row>
    const columns: set<string>
    const acc: array<Acc>
    const settlement: array<Settlement>

    ghost predicate Valid()
      reads this
    {
      acc.Length == |rows| && settlement.Length == |rows|
    }

    /** Copy and normalise the merged rows and start every accumulator at 0.0
        (app.py:227-239). */
    constructor (raw: seq<RawRow>, columns: set<string>)
      ensures Valid() && fresh(acc) && fresh(settlement)
      ensures this.columns == columns
      ensures |rows| == |raw| && forall i :: 0 <= i < |raw| ==> rows[i] == Normalise(raw[i])
      ensures forall i :: 0 <= i < |rows| ==> acc[i] == Zero && settlement[i] == NoSettlement
    {
      rows := seq(|raw|, i requires 0 <= i < |raw| => Normalise(raw[i]));
      this.columns := columns;
      acc := new Acc[|raw|](_ => Zero);
      settlement := new Settlement[|raw|](_ => NoSettlement);
    }

    /** `df.loc[mask, 'Base_Discount_%'] = v`. */
    method SetBase(mask: seq<bool>, v: real)
      requires Valid() && |mask| == |rows|
      modifies acc
      ensures forall i :: 0 <= i < acc.Length ==>
                acc[i] == if mask[i] then old(acc[i]).(base := v) else old(acc[i])
    {
      forall i | 0 <= i < acc.Length && mask[i] {
        acc[i] := acc[i].(base := v);
      }
    }

    /** `df.loc[mask, 'Policy_Modifiers_%'] = v`. */
    method SetPolicy(mask: seq<bool>, v: real)
      requires Valid() && |mask| == |rows|
      modifies acc
      ensures forall i :: 0 <= i < acc.Length ==>
                acc[i] == if mask[i] then old(acc[i]).(policy := v) else old(acc[i])
    {
      forall i | 0 <= i < acc.Length && mask[i] {
        acc[i] := acc[i].(policy := v);
      }
    }

    /** `df.loc[mask, 'Policy_Modifiers_%'] += delta`. */
    method ShiftPolicy(mask: seq<bool>, delta: real)
      requires Valid() && |mask| == |rows|
      modifies acc
      ensures forall i :: 0 <= i < acc.Length ==>
                acc[i] == if mask[i] then old(acc[i]).(policy := old(acc[i]).policy + delta) else old(acc[i])
    {
      forall i | 0 <= i < acc.Length && mask[i] {
        acc[i] := acc[i].(policy := acc[i].policy + delta);
      }
    }

    /** `df.loc[mask, 'Custom_Adjustments_%'] += delta`. */
    method ShiftCustom(mask: seq<bool>, delta: real)
      requires Valid() && |mask| == |rows|
      modifies acc
      ensures forall i :: 0 <= i < acc.Length ==>
                acc[i] == if mask[i] then old(acc[i]).(custom := old(acc[i]).custom + delta) else old(acc[i])
    {
      forall i | 0 <= i < acc.Length && mask[i] {
        acc[i] := acc[i].(custom := acc[i].custom + delta);
      }
    }

    /** The tier matrix (app.py:242-244): for each band in table order, every
        matching row's base discount is overwritten with the band's. */
    method ResolveTiers(bands: seq<Band>)
      requires Valid()
      modifies acc
      ensures forall i :: 0 <= i < acc.Length ==>
                acc[i] == old(acc[i]).(base := TierDiscount(bands, rows[i], old(acc[i]).base))
    {
      for k := 0 to |bands|
        invariant forall i :: 0 <= i < acc.Length ==>
                    acc[i] == old(acc[i]).(base := TierDiscount(bands[..k], rows[i], old(acc[i]).base))
      {
        var band := bands[k];
        var mask := seq(|rows|, i requires 0 <= i < |rows| => BandMatches(band, rows[i]));
        SetBase(mask, band.pct);
        assert bands[..k + 1][..k] == bands[..k];
      }
      assert bands[..|bands|] == bands;
    }

    /** The policy modifiers (app.py:247-254), skipped without a
        `Product_Category` column. */
    method ApplyPolicyModifiers(p: Policy)
      requires Valid()
      modifies acc
      ensures forall i :: 0 <= i < acc.Length ==>
                acc[i] == ApplyPolicy(p, CategoryColumn in columns, rows[i], old(acc[i]))
    {
      if p.servicesOverride && CategoryColumn in columns {
        var services := seq(|rows|, i requires 0 <= i < |rows| => rows[i].category == Some(ServicesCategory));
        SetBase(services, 0.0);
      }
      if CategoryColumn in columns {
        var electronics := seq(|rows|, i requires 0 <= i < |rows| => rows[i].category == Some(ElectronicsCategory));
        var boost := seq(|rows|, i requires 0 <= i < |rows| => electronics[i] && InMonths(rows[i], p.boostMonths));
        var penalty := seq(|rows|, i requires 0 <= i < |rows| => electronics[i] && InMonths(rows[i], p.penaltyMonths));
        ShiftPolicy(boost, BoostPct);
        ShiftPolicy(penalty, -PenaltyPct);
      }
    }

    /** One custom rule over the whole frame (app.py:259-282): the folded cells
        of its column are compared with its folded value, and its action is
        applied to the rows selected. */
    method ApplyRuleToFrame(rule: Rule)
      requires Valid()
      modifies acc
      ensures forall i :: 0 <= i < acc.Length ==>
                acc[i] == ApplyRule(rule, columns, rows[i], old(acc[i]))
    {
      if rule.column in columns {
        var value := Fold(rule.value);
        var mask := seq(|rows|, i requires 0 <= i < |rows| =>
                          OpHolds(rule.op, Fold(CellText(rows[i], rule.column)), value));
        match rule.action {
          case Add =>
            ShiftCustom(mask, rule.amount);
          case Subtract =>
            ShiftCustom(mask, -rule.amount);
          case SetDiscountTo =>
            SetBase(mask, rule.amount);
            SetPolicy(mask, 0.0);
        }
      }
    }

    /** The custom rule stack (app.py:257-282), one rule after another in list order. */
    method ApplyCustomRules(rules: seq<Rule>)
      requires Valid()
      modifies acc
      ensures forall i :: 0 <= i < acc.Length ==>
                acc[i] == ApplyRules(rules, columns, rows[i], old(acc[i]))
    {
      for k := 0 to |rules|
        invariant forall i :: 0 <= i < acc.Length ==>
                    acc[i] == ApplyRules(rules[..k], columns, rows[i], old(acc[i]))
      {
        ApplyRuleToFrame(rules[k]);
        assert rules[..k + 1][..k] == rules[..k];
      }
      assert rules[..|rules|] == rules;
    }

    /** The advanced formula (app.py:285-293). When the evaluation fails, no row
        changes and the warning is returned. */
    method ApplyAdvancedFormula(f: Option<Formula>) returns (warning: Option<string>)
      requires Valid()
      modifies acc
      ensures forall i :: 0 <= i < acc.Length ==> acc[i] == ApplyFormula(f, rows[i], old(acc[i]))
      ensures warning.Some? <==> FormulaEnabled(f) && f.value.verdict.Fails?
      ensures warning.Some? ==> warning.value == FormulaWarning(f.value.verdict.message)
    {
      warning := None;
      if f.Some? {
        var formula := f.value;
        if Trim(formula.text) != "" && formula.amount != 0.0 {
          match formula.verdict {
            case Fails(message) =>
              warning := Some(FormulaWarning(message));
            case Mask(holds) =>
              var mask := seq(|rows|, i requires 0 <= i < |rows| reads acc => holds(rows[i], acc[i]));
              ShiftCustom(mask, formula.amount);
          }
        }
      }
    }

    /** The settlement stage (app.py:301-313): both columns reset to 0.0, the
        early mask writes the rebate, then the late mask writes the penalty
        over it. */
    method ComputeSettlement(t: Terms)
      requires Valid()
      modifies settlement
      ensures forall i :: 0 <= i < settlement.Length ==> settlement[i] == Settle(t, rows[i])
    {
      forall i | 0 <= i < settlement.Length {
        settlement[i] := NoSettlement;
      }
      forall i | 0 <= i < settlement.Length && IsEarly(t, rows[i]) {
        settlement[i] := settlement[i].(adjustment := -t.earlyRebate);
      }
      forall i | 0 <= i < settlement.Length && IsLate(t, rows[i]) {
        settlement[i] := settlement[i].(penaltyPct := t.latePenaltyPct);
      }
      forall i | 0 <= i < settlement.Length && IsLate(t, rows[i]) {
        settlement[i] := settlement[i].(adjustment := rows[i].gross * (t.latePenaltyPct / 100.0));
      }
    }

    /** The output rows: aggregation and net over the final columns. */
    function Results(): (out: seq<Output>)
      requires Valid()
      reads this, acc, settlement
      ensures |out| == |rows|
      ensures forall i :: 0 <= i < |rows| ==> out[i] == Report(rows[i], acc[i], settlement[i])
    {
      seq(|rows|, i requires 0 <= i < |rows| reads acc, settlement => Report(rows[i], acc[i], settlement[i]))
    }
  }

  /** One press of the calculate button over the merged ledger whose columns
      are `available`: every row's output is `RowResult` of its normalised
      form, the output columns are the merged ones followed by the computed
      ones, and a warning is raised exactly when an enabled formula fails. */
  method Calculate(raw: seq<RawRow>, available: seq<string>, cfg: Config)
    returns (out: seq<Output>, outColumns: seq<string>, warning: Option<string>)
    requires CoercedColumns <= (set c | c in available)
    ensures |out| == |raw|
    ensures forall i :: 0 <= i < |raw| ==>
              out[i] == RowResult(cfg, (set c | c in available), Normalise(raw[i]))
    ensures outColumns == available + CalcColumns
    ensures warning.Some? <==> FormulaEnabled(cfg.formula) && cfg.formula.value.verdict.Fails?
  {
    var columns := set c | c in available;
    var frame := new Frame(raw, columns);
    frame.ResolveTiers(cfg.bands);
    frame.ApplyPolicyModifiers(cfg.policy);
    frame.ApplyCustomRules(cfg.rules);
    warning := frame.ApplyAdvancedFormula(cfg.formula);
    frame.ComputeSettlement(cfg.terms);
    out := frame.Results();

    var listed := available + CalcColumns;
    var present := columns + (set c | c in CalcColumns);
    SelectAllPresent(listed, present);
    outColumns := SelectColumns(listed, present);
  }
}
