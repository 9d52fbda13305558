/** The engine's shipped defaults (app.py:157-175) and worked cases that
    exercise the ordering rules on concrete rows. */
module Scenarios {
  import opened Wrappers
  import opened Text
  import opened Ledger
  import opened Discount
  import opened Settlement
  import opened Engine

  /** The default volume discount matrix (app.py:157-162). */
  const DefaultBands: seq<Band> := [
    Band(Some("Platinum"), Some(1), Some(499), 5.0),
    Band(Some("Platinum"), Some(500), Some(999), 8.5),
    Band(Some("Platinum"), Some(1000), Some(999999), 12.0),
    Band(Some("Gold"), Some(1), Some(499), 2.0),
    Band(Some("Gold"), Some(500), Some(999), 5.0),
    Band(Some("Gold"), Some(1000), Some(999999), 7.5),
    Band(Some("Silver"), Some(1), Some(999), 0.0),
    Band(Some("Silver"), Some(1000), Some(999999), 3.0),
    Band(Some(DefaultTier), Some(1), Some(999999), 0.0)]

  /** The default seasonal knobs (app.py:167-169). */
  const DefaultPolicy: Policy := Policy({7, 8}, {9}, true)

  /** The default settlement knobs (app.py:172-175). */
  const DefaultTerms: Terms := Terms(15, 500.0, 45, 2.0)

  /** A merged ledger's columns: the coerced ones and the category. */
  const LedgerColumns: set<string> := CoercedColumns + {CategoryColumn}

  /** The defaults with no custom rules and no staged formula. */
  const DefaultConfig: Config := Config(DefaultBands, DefaultPolicy, DefaultTerms, [], None)

  /** A Gold-tier Electronics line of 600 units worth 10000, invoiced on a
      July day and paid ten days later. */
  const GoldLine: Row := Row("Gold", 600, 10000.0, Some(Date(100, 7)), Some(Date(110, 7)),
                             Some("Electronics"), map[])

  /** Overlapping bands: a quantity inside both takes the later band. */
  lemma OverlappingBandsTakeTheLater()
    ensures TierDiscount([Band(Some("Gold"), Some(1), Some(999), 2.0),
                          Band(Some("Gold"), Some(500), Some(999999), 5.0)],
                         GoldLine.(quantity := 700), 0.0) == 5.0
  {
  }

  /** The default matrix gives a Gold line of 600 units 5.0 percent. */
  lemma {:induction false} GoldLineBase()
    ensures TierDiscount(DefaultBands, GoldLine, 0.0) == 5.0
  {
    LastMatchingBandWins(DefaultBands, GoldLine, 0.0, 4);
  }

  /** Under the defaults the Gold line gets 5.0 base plus the July boost of
      2.0, so 700 discount, the early rebate of 500, and a net of 8800. */
  lemma {:induction false} GoldLineEndToEnd()
    ensures RowResult(DefaultConfig, LedgerColumns, GoldLine).finalPct == 7.0
    ensures RowResult(DefaultConfig, LedgerColumns, GoldLine).discount == 700.0
    ensures RowResult(DefaultConfig, LedgerColumns, GoldLine).settlement.adjustment == -500.0
    ensures RowResult(DefaultConfig, LedgerColumns, GoldLine).net == 8800.0
  {
    GoldLineBase();
    var a := Accumulate(DefaultConfig, LedgerColumns, GoldLine);
    assert a == Acc(5.0, 2.0, 0.0);
  }

  lemma LowerPaddedUpperCase()
    ensures Lower(" SPARES ") == " spares "
  {
    var cell := " SPARES ";
    assert LowerChar('S') == 's' && LowerChar('P') == 'p' && LowerChar('A') == 'a';
    assert LowerChar('R') == 'r' && LowerChar('E') == 'e' && LowerChar(' ') == ' ';
    forall i | 0 <= i < 8 ensures Lower(cell)[i] == " spares "[i] {}
  }

  lemma TrimPadded()
    ensures Trim(" spares ") == "spares"
  {
    var padded := " spares ";
    assert IsSpace(padded[0]) && !IsSpace(padded[1]);
    assert SkipSpaces(padded, 0) == 1;
    assert IsSpace(padded[7]) && !IsSpace(padded[6]);
    assert SkipSpacesBack(padded, 1, 8) == 7;
    assert padded[1..7] == "spares";
  }

  /** A rule value matches a cell whatever the case and surrounding spaces of either. */
  lemma CaseAndSpaceInsensitiveMatch()
    ensures RuleSelects(Rule(CategoryColumn, Equals, "spares", Add, 1.0), {CategoryColumn},
                        GoldLine.(category := Some(" SPARES ")))
  {
    LowerPaddedUpperCase();
    TrimPadded();
    var word := "spares";
    FoldKeepsPlainText(word);
  }

  lemma FoldOfGold()
    ensures Fold("Gold") == "gold" && Fold("gold") == "gold"
  {
    assert Lower("Gold") == "gold";
    FoldKeepsPlainText("gold");
  }

  /** A rule on the tier column with value "gold" selects the Gold line. */
  lemma GoldTierSelected(action: Action, amount: real)
    ensures RuleSelects(Rule(TierColumn, Equals, "gold", action, amount), {TierColumn}, GoldLine)
  {
    FoldOfGold();
  }

  /** SetDiscountTo after an Add keeps the Add's custom adjustment but zeroes
      the policy modifiers. */
  lemma SetDiscountKeepsEarlierAdjustments()
    ensures var rules := [Rule(TierColumn, Equals, "gold", Add, 3.0),
                          Rule(TierColumn, Equals, "gold", SetDiscountTo, 4.0)];
            ApplyRules(rules, {TierColumn}, GoldLine, Acc(5.0, 2.0, 0.0)) == Acc(4.0, 0.0, 3.0)
  {
    var rules := [Rule(TierColumn, Equals, "gold", Add, 3.0),
                  Rule(TierColumn, Equals, "gold", SetDiscountTo, 4.0)];
    GoldTierSelected(Add, 3.0);
    GoldTierSelected(SetDiscountTo, 4.0);
    assert rules[..1][..0] == [] && rules[..1] == [rules[0]];
    assert ApplyRules(rules[..1], {TierColumn}, GoldLine, Acc(5.0, 2.0, 0.0)) == Acc(5.0, 2.0, 3.0);
  }

  /** A line whose dealer is missing from the master, with 12.7 units and a
      pending payment, as the merge delivers it. */
  const UnknownDealerLine: RawRow :=
    RawRow(None, Some(12.7), Some(1000.0), Some(Date(100, 7)), Some("PENDING"), None, Some("Spares"),
           map[TierColumn := "nan", QuantityColumn := "12.7", PaymentColumn := "PENDING"])

  lemma LowerOfDefaultTier()
    ensures Lower(DefaultTier) == "unregistered/direct"
  {
    var lowered := "unregistered/direct";
    forall i | 0 <= i < |DefaultTier| ensures Lower(DefaultTier)[i] == lowered[i] {}
  }

  lemma FoldOfDefaultTier()
    ensures Fold(DefaultTier) == "unregistered/direct"
  {
    LowerOfDefaultTier();
    var lowered := "unregistered/direct";
    FoldKeepsPlainText(lowered);
  }

  /** Rules read the filled tier, not the missing cell: a rule for
      "unregistered/direct" selects a line whose dealer is unknown. */
  lemma MissingDealerReadsDefaultTier()
    ensures RuleSelects(Rule(TierColumn, Equals, "unregistered/direct", Add, 1.0), {TierColumn},
                        Normalise(UnknownDealerLine))
  {
    FoldOfDefaultTier();
    var word := "unregistered/direct";
    FoldKeepsPlainText(word);
  }

  /** Rules read the truncated quantity: "12" selects the 12.7-unit line and
      "12.7" does not. */
  lemma TruncatedQuantityMatchesItsInteger()
    ensures RuleSelects(Rule(QuantityColumn, Equals, "12", Add, 1.0), {QuantityColumn},
                        Normalise(UnknownDealerLine))
    ensures !RuleSelects(Rule(QuantityColumn, Equals, "12.7", Add, 1.0), {QuantityColumn},
                         Normalise(UnknownDealerLine))
  {
    var r := Normalise(UnknownDealerLine);
    assert r.quantity == 12;
    assert IntText(12) == "12";
    QuantityEqualsSelectsExactly(12, Add, 1.0, {QuantityColumn}, r);
    var text := "12.7";
    FoldKeepsPlainText(text);
  }

  /** A pending payment reads "NaT", so a rule for "pending" no longer
      selects the line while one for "NaT" does. */
  lemma PendingPaymentReadsNaT()
    ensures !RuleSelects(Rule(PaymentColumn, Equals, "pending", Add, 1.0), {PaymentColumn},
                         Normalise(UnknownDealerLine))
    ensures RuleSelects(Rule(PaymentColumn, Equals, "NaT", Add, 1.0), {PaymentColumn},
                        Normalise(UnknownDealerLine))
  {
    assert Lower("NaT") == "nat";
    var notATime := "nat";
    var pending := "pending";
    FoldKeepsPlainText(notATime);
    FoldKeepsPlainText(pending);
  }
}
