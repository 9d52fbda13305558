/** The discount side of the engine, one row at a time: the tier matrix
    (app.py:242-244), the policy modifiers (app.py:247-254), the custom rule stack
    (app.py:257-282), the advanced formula (app.py:285-293) and the aggregation
    (app.py:296-298). Each stage is a function from a row's accumulators before
    the stage to its accumulators after it. */
module Discount {
  import opened Wrappers
  import opened Text
  import opened Ledger

  /** The three per-row accumulator columns `Base_Discount_%`,
      `Policy_Modifiers_%` and `Custom_Adjustments_%`. */
  datatype Acc = Acc(base: real, policy: real, custom: real)

  /** All three accumulators start at 0.0 (app.py:237-239). */
  const Zero: Acc := Acc(0.0, 0.0, 0.0)

  // ---------------------------------------------------------------------------
  // Tier matrix

  /** One row of the base volume discount matrix. A cell left blank in the
      matrix editor is `None` and makes the band match no row. */
  datatype Band = Band(tier: Option<string>, minQty: Option<int>, maxQty: Option<int>, pct: real)

  /** The band's mask at app.py:243: same tier and `Min_Qty <= Quantity <= Max_Qty`. */
  predicate BandMatches(b: Band, r: Row)
  {
    b.tier == Some(r.tier) && b.minQty.Some? && b.maxQty.Some? &&
    b.minQty.value <= r.quantity <= b.maxQty.value
  }

  /** The base discount after the bands, applied in table order, have each
      overwritten `init` on a match. */
  function TierDiscount(bands: seq<Band>, r: Row, init: real): real
  {
    if bands == [] then init
    else
      var prior := TierDiscount(bands[..|bands| - 1], r, init);
      if BandMatches(bands[|bands| - 1], r) then bands[|bands| - 1].pct else prior
  }

  /** Last match wins: the discount is that of the last band in table order
      that matches the row. */
  lemma {:induction false} LastMatchingBandWins(bands: seq<Band>, r: Row, init: real, i: int)
    requires 0 <= i < |bands| && BandMatches(bands[i], r)
    requires forall j :: i < j < |bands| ==> !BandMatches(bands[j], r)
    ensures TierDiscount(bands, r, init) == bands[i].pct
  {
    if i < |bands| - 1 {
      LastMatchingBandWins(bands[..|bands| - 1], r, init, i);
    }
  }

  /** A row no band matches keeps the discount it had (0.0 in the engine). */
  lemma {:induction false} UnmatchedRowKeepsBase(bands: seq<Band>, r: Row, init: real)
    requires forall j :: 0 <= j < |bands| ==> !BandMatches(bands[j], r)
    ensures TierDiscount(bands, r, init) == init
  {
    if bands != [] {
      UnmatchedRowKeepsBase(bands[..|bands| - 1], r, init);
    }
  }

  // ---------------------------------------------------------------------------
  // Policy modifiers

  /** The seasonal and category knobs of the policy tab. */
  datatype Policy = Policy(boostMonths: set<int>, penaltyMonths: set<int>, servicesOverride: bool)

  const ServicesCategory: string := "Services"
  const ElectronicsCategory: string := "Electronics"
  const BoostPct: real := 2.0
  const PenaltyPct: real := 1.0

  /** The row's category is exactly `c`, the `Product_Category` column being present. */
  predicate InCategory(hasCategory: bool, r: Row, c: string)
  {
    hasCategory && r.category == Some(c)
  }

  predicate InMonths(r: Row, months: set<int>)
  {
    r.invoice.Some? && r.invoice.value.month in months
  }

  /** The policy stage (app.py:247-254): the services override zeroes the base
      of a Services row; an Electronics row gains +2.0 in a boost month and
      loses 1.0 in a penalty month, both when the month is in both sets.
      `hasCategory` says whether the `Product_Category` column exists. */
  function ApplyPolicy(p: Policy, hasCategory: bool, r: Row, a: Acc): (a': Acc)
    ensures a'.custom == a.custom
    ensures p.servicesOverride && InCategory(hasCategory, r, ServicesCategory) ==> a'.base == 0.0
    ensures !(p.servicesOverride && InCategory(hasCategory, r, ServicesCategory)) ==> a'.base == a.base
    ensures !InCategory(hasCategory, r, ElectronicsCategory) ==> a'.policy == a.policy
    ensures InCategory(hasCategory, r, ElectronicsCategory) ==>
              a'.policy == a.policy
                           + (if InMonths(r, p.boostMonths) then BoostPct else 0.0)
                           - (if InMonths(r, p.penaltyMonths) then PenaltyPct else 0.0)
  {
    var base := if p.servicesOverride && InCategory(hasCategory, r, ServicesCategory) then 0.0 else a.base;
    var electronics := InCategory(hasCategory, r, ElectronicsCategory);
    var boosted := if electronics && InMonths(r, p.boostMonths) then a.policy + BoostPct else a.policy;
    var penalised := if electronics && InMonths(r, p.penaltyMonths) then boosted - PenaltyPct else boosted;
    Acc(base, penalised, a.custom)
  }

  /** A month in both sets nets +1.0 for an Electronics row. */
  lemma BoostAndPenaltyStack(p: Policy, hasCategory: bool, r: Row, a: Acc)
    requires InCategory(hasCategory, r, ElectronicsCategory)
    requires InMonths(r, p.boostMonths) && InMonths(r, p.penaltyMonths)
    ensures ApplyPolicy(p, hasCategory, r, a).policy == a.policy + 1.0
  {
  }

  // ---------------------------------------------------------------------------
  // Custom rule stack

  datatype Op = Equals | NotEquals | Contains
  datatype Action = Add | Subtract | SetDiscountTo

  /** A staged custom rule; staging drops rules with a blank field, so every
      field is present. */
  datatype Rule = Rule(column: string, op: Op, value: string, action: Action, amount: real)

  /** The condition of app.py:269-274 on already folded strings. `Contains` is
      plain substring search. */
  predicate OpHolds(op: Op, cell: string, value: string)
  {
    match op
    case Equals => cell == value
    case NotEquals => cell != value
    case Contains => Text.Contains(cell, value)
  }

  /** The rule's mask: its column exists in the frame and the folded cell
      satisfies the condition against the folded value. */
  predicate RuleSelects(rule: Rule, columns: set<string>, r: Row)
  {
    rule.column in columns && OpHolds(rule.op, Fold(CellText(r, rule.column)), Fold(rule.value))
  }

  /** One rule on one row (app.py:276-282). */
  function ApplyRule(rule: Rule, columns: set<string>, r: Row, a: Acc): (a': Acc)
    ensures !RuleSelects(rule, columns, r) ==> a' == a
    ensures RuleSelects(rule, columns, r) && rule.action == Add ==>
              a' == a.(custom := a.custom + rule.amount)
    ensures RuleSelects(rule, columns, r) && rule.action == Subtract ==>
              a' == a.(custom := a.custom - rule.amount)
    ensures RuleSelects(rule, columns, r) && rule.action == SetDiscountTo ==>
              a' == Acc(rule.amount, 0.0, a.custom)
  {
    if !RuleSelects(rule, columns, r) then a
    else match rule.action
      case Add => a.(custom := a.custom + rule.amount)
      case Subtract => a.(custom := a.custom - rule.amount)
      case SetDiscountTo => a.(base := rule.amount, policy := 0.0)
  }

  /** The rules applied to one row in list order: the last rule acts last. */
  function ApplyRules(rules: seq<Rule>, columns: set<string>, r: Row, a: Acc): Acc
  {
    if rules == [] then a
    else ApplyRule(rules[|rules| - 1], columns, r, ApplyRules(rules[..|rules| - 1], columns, r, a))
  }

  /** What the Add and Subtract rules that select the row contribute, signed. */
  function SignedTotal(rules: seq<Rule>, columns: set<string>, r: Row): real
  {
    if rules == [] then 0.0
    else
      var last := rules[|rules| - 1];
      var delta := if !RuleSelects(last, columns, r) then 0.0
                   else match last.action
                     case Add => last.amount
                     case Subtract => -last.amount
                     case SetDiscountTo => 0.0;
      SignedTotal(rules[..|rules| - 1], columns, r) + delta
  }

  predicate SetsDiscount(rule: Rule, columns: set<string>, r: Row)
  {
    rule.action == SetDiscountTo && RuleSelects(rule, columns, r)
  }

  /** Applying `rules1 + rules2` is applying `rules1` and then `rules2`:
      the stack is a left fold in list order. */
  lemma {:induction false} ApplyRulesConcat(rules1: seq<Rule>, rules2: seq<Rule>, columns: set<string>, r: Row, a: Acc)
    ensures ApplyRules(rules1 + rules2, columns, r, a) ==
            ApplyRules(rules2, columns, r, ApplyRules(rules1, columns, r, a))
    decreases |rules2|
  {
    if rules2 != [] {
      var rules := rules1 + rules2;
      assert rules[..|rules| - 1] == rules1 + rules2[..|rules2| - 1];
      ApplyRulesConcat(rules1, rules2[..|rules2| - 1], columns, r, a);
    } else {
      assert rules1 + rules2 == rules1;
    }
  }

  /** The custom accumulator gains exactly the signed amounts of the Add and
      Subtract rules that select the row; SetDiscountTo never touches it. */
  lemma {:induction false} CustomIsSignedTotal(rules: seq<Rule>, columns: set<string>, r: Row, a: Acc)
    ensures ApplyRules(rules, columns, r, a).custom == a.custom + SignedTotal(rules, columns, r)
  {
    if rules != [] {
      CustomIsSignedTotal(rules[..|rules| - 1], columns, r, a);
    }
  }

  /** The last SetDiscountTo rule that selects the row decides its base, and
      its policy modifiers end at 0.0. */
  lemma {:induction false} LastSetDiscountWins(rules: seq<Rule>, columns: set<string>, r: Row, a: Acc, i: int)
    requires 0 <= i < |rules| && SetsDiscount(rules[i], columns, r)
    requires forall j :: i < j < |rules| ==> !SetsDiscount(rules[j], columns, r)
    ensures ApplyRules(rules, columns, r, a).base == rules[i].amount
    ensures ApplyRules(rules, columns, r, a).policy == 0.0
  {
    if i < |rules| - 1 {
      LastSetDiscountWins(rules[..|rules| - 1], columns, r, a, i);
    }
  }

  /** Without a SetDiscountTo rule that selects the row, the stack leaves its
      base and policy modifiers as they were. */
  lemma {:induction false} NoSetKeepsBaseAndPolicy(rules: seq<Rule>, columns: set<string>, r: Row, a: Acc)
    requires forall j :: 0 <= j < |rules| ==> !SetsDiscount(rules[j], columns, r)
    ensures ApplyRules(rules, columns, r, a).base == a.base
    ensures ApplyRules(rules, columns, r, a).policy == a.policy
  {
    if rules != [] {
      NoSetKeepsBaseAndPolicy(rules[..|rules| - 1], columns, r, a);
    }
  }

  /** Rules whose column the frame lacks change nothing. */
  lemma {:induction false} AbsentColumnRulesAreNoOps(rules: seq<Rule>, columns: set<string>, r: Row, a: Acc)
    requires forall j :: 0 <= j < |rules| ==> rules[j].column !in columns
    ensures ApplyRules(rules, columns, r, a) == a
  {
    if rules != [] {
      AbsentColumnRulesAreNoOps(rules[..|rules| - 1], columns, r, a);
    }
  }

  /** On a column that exists, Equals and Not Equals select complementary rows. */
  lemma EqualsComplementsNotEquals(rule: Rule, columns: set<string>, r: Row)
    requires rule.column in columns
    ensures RuleSelects(rule.(op := Equals), columns, r) <==> !RuleSelects(rule.(op := NotEquals), columns, r)
  {
  }

  /** An integer's rendering folds to itself: it holds no letter and no space. */
  lemma IntTextFoldsToItself(n: int)
    ensures Fold(IntText(n)) == IntText(n)
  {
    var s := IntText(n);
    FoldKeepsPlainText(s);
  }

  /** An Equals rule on the quantity column with an integer's rendering as its
      value selects exactly the lines whose truncated quantity is that integer. */
  lemma QuantityEqualsSelectsExactly(k: int, action: Action, amount: real, columns: set<string>, r: Row)
    requires QuantityColumn in columns
    ensures RuleSelects(Rule(QuantityColumn, Equals, IntText(k), action, amount), columns, r) <==> r.quantity == k
  {
    IntTextFoldsToItself(k);
    IntTextFoldsToItself(r.quantity);
    if IntText(r.quantity) == IntText(k) {
      IntTextRoundTrip(k);
      IntTextRoundTrip(r.quantity);
    }
  }

  // ---------------------------------------------------------------------------
  // Advanced formula

  /** What evaluating the formula's text over the frame gives: an error, or a
      predicate over a row and its accumulators at that point. */
  datatype Verdict = Fails(message: string) | Mask(holds: (Row, Acc) -> bool)

  /** The staged advanced formula: its text, the signed percentage it adds,
      and the verdict of evaluating the text. */
  datatype Formula = Formula(text: string, amount: real, verdict: Verdict)

  /** The guard of app.py:285-288: a formula is staged, its text is not blank
      after stripping, and its amount is not zero. */
  predicate FormulaEnabled(f: Option<Formula>)
  {
    f.Some? && Trim(f.value.text) != "" && f.value.amount != 0.0
  }

  /** The advanced formula on one row (app.py:285-293): with the guard passed
      and the evaluation successful, a row the predicate holds on gains the
      amount in its custom accumulator; otherwise nothing changes. */
  function ApplyFormula(f: Option<Formula>, r: Row, a: Acc): (a': Acc)
    ensures a'.base == a.base && a'.policy == a.policy
    ensures !FormulaEnabled(f) || f.value.verdict.Fails? ==> a' == a
    ensures FormulaEnabled(f) && f.value.verdict.Mask? ==>
              a'.custom == if f.value.verdict.holds(r, a) then a.custom + f.value.amount else a.custom
  {
    if FormulaEnabled(f) && f.value.verdict.Mask? && f.value.verdict.holds(r, a)
    then a.(custom := a.custom + f.value.amount)
    else a
  }

  // ---------------------------------------------------------------------------
  // Aggregation

  /** `Final_Discount_%`: the sum of the three accumulators, clipped below at 0. */
  function FinalDiscount(a: Acc): (pct: real)
    ensures pct >= 0.0
    ensures pct >= a.base + a.policy + a.custom
    ensures pct == a.base + a.policy + a.custom || pct == 0.0
  {
    var sum := a.base + a.policy + a.custom;
    if sum < 0.0 then 0.0 else sum
  }

  /** `Discount_Amount`: `pct` percent of the gross value. */
  function DiscountAmount(gross: real, pct: real): (amount: real)
    ensures amount * 100.0 == gross * pct
    ensures 0.0 <= gross && 0.0 <= pct ==> 0.0 <= amount
    ensures 0.0 <= gross && 0.0 <= pct <= 100.0 ==> amount <= gross
  {
    gross * (pct / 100.0)
  }
}
