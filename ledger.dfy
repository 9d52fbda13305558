/** One invoice line of the merged sales ledger, before and after the engine
    coerces its typed fields (app.py:230-235). */
module Ledger {
  import opened Wrappers
  import opened Text

  /** A calendar date as the engine uses it: a serial day number, from which
      day gaps are taken, and the calendar month (1-12) the day falls in. */
  datatype Date = Date(day: int, month: int)

  /** The tier a line receives when the dealer master has none for it. */
  const DefaultTier: string := "Unregistered/Direct"

  /** The payment-date cell values that mean "not yet received". */
  const PendingTokens: set<string> := {"PENDING", "pending"}

  /** The ledger columns the engine coerces or reads by name. */
  const TierColumn: string := "Dealer_Tier"
  const QuantityColumn: string := "Quantity"
  const GrossColumn: string := "Gross_Invoice_Value"
  const InvoiceColumn: string := "Invoice_Date"
  const PaymentColumn: string := "Payment_Receipt_Date"
  const CategoryColumn: string := "Product_Category"

  /** The columns app.py:230-235 read and coerce; a ledger without any of them
      stops the run. */
  const CoercedColumns: set<string> := {TierColumn, QuantityColumn, GrossColumn, InvoiceColumn, PaymentColumn}

  /** A merged ledger line as the upstream join delivers it. Numeric and date
      fields hold what the library's coercion made of the cell (`None` when it
      could not parse it); `paymentText` is the payment-date cell when it is text.
      `text` holds the string form of each other cell, and of a parsed gross
      value or date as the library prints it. */
  datatype RawRow = RawRow(
    tier: Option<string>,
    quantity: Option<real>,
    gross: Option<real>,
    invoice: Option<Date>,
    paymentText: Option<string>,
    payment: Option<Date>,
    category: Option<string>,
    text: map<string, string>)

  /** A normalised ledger line. `text` carries the string forms of the cells
      whose rendering the engine does not determine; `CellText` is what custom
      rules read. */
  datatype Row = Row(
    tier: string,
    quantity: int,
    gross: real,
    invoice: Option<Date>,
    payment: Option<Date>,
    category: Option<string>,
    text: map<string, string>)

  /** `astype(int)` on a float: truncation toward zero. */
  function TruncateToInt(x: real): (n: int)
    ensures 0.0 <= x ==> 0 <= n && n as real <= x < n as real + 1.0
    ensures x < 0.0 ==> n <= 0 && n as real - 1.0 < x <= n as real
  {
    if 0.0 <= x then x.Floor else -((-x).Floor)
  }

  /** The decimal digits of a natural number, most significant first. */
  function DigitsOf(n: nat): (s: string)
    ensures |s| >= 1
    ensures forall i :: 0 <= i < |s| ==> '0' <= s[i] <= '9'
    decreases n
  {
    var d := ((n % 10) + '0' as int) as char;
    if n < 10 then [d] else DigitsOf(n / 10) + [d]
  }

  /** The value of a string of decimal digits, read most significant first. */
  function DigitsValue(s: string): int
  {
    if s == [] then 0 else DigitsValue(s[..|s| - 1]) * 10 + (s[|s| - 1] as int - '0' as int)
  }

  lemma {:induction false} DigitsRoundTrip(n: nat)
    ensures DigitsValue(DigitsOf(n)) == n
    decreases n
  {
    if n >= 10 {
      DigitsRoundTrip(n / 10);
      var s := DigitsOf(n);
      assert s[..|s| - 1] == DigitsOf(n / 10);
    }
  }

  /** `str()` of an integer, as an integer column renders: an optional minus
      sign followed by decimal digits. */
  function IntText(n: int): (s: string)
    ensures |s| >= 1 && '0' <= s[|s| - 1] <= '9'
    ensures forall i :: 0 <= i < |s| ==> s[i] == '-' || '0' <= s[i] <= '9'
  {
    if n < 0 then "-" + DigitsOf(-n) else DigitsOf(n)
  }

  /** Reads an integer back from its decimal form. */
  function ParseInt(s: string): int
  {
    if s != [] && s[0] == '-' then -DigitsValue(s[1..]) else DigitsValue(s)
  }

  /** The rendering of an integer reads back as that integer, so distinct
      quantities render differently. */
  lemma {:induction false} IntTextRoundTrip(n: int)
    ensures ParseInt(IntText(n)) == n
  {
    if n < 0 {
      DigitsRoundTrip(-n);
      assert IntText(n)[1..] == DigitsOf(-n);
    } else {
      DigitsRoundTrip(n);
    }
  }

  /** The coercions of app.py:230-235: a missing tier becomes the default tier and
      a present one is stripped; an unparsable quantity becomes 0 and a parsed one
      is truncated to an integer; an unparsable gross value becomes 0.0; a pending
      or unparsable payment date becomes absent. */
  function Normalise(raw: RawRow): (r: Row)
    ensures raw.tier.None? ==> r.tier == DefaultTier
    ensures raw.tier.Some? ==> r.tier == Trim(raw.tier.value)
    ensures raw.quantity.None? ==> r.quantity == 0
    ensures raw.quantity.Some? ==> r.quantity == TruncateToInt(raw.quantity.value)
    ensures r.gross == (if raw.gross.Some? then raw.gross.value else 0.0)
    ensures r.invoice == raw.invoice
    ensures r.payment.Some? <==> raw.payment.Some? && !(raw.paymentText.Some? && raw.paymentText.value in PendingTokens)
    ensures r.payment.Some? ==> r.payment == raw.payment
    ensures r.category == raw.category
    ensures r.text == (if raw.gross.None? then raw.text[GrossColumn := "0.0"] else raw.text)
  {
    var pending := raw.paymentText.Some? && raw.paymentText.value in PendingTokens;
    Row(
      tier := if raw.tier.Some? then Trim(raw.tier.value) else DefaultTier,
      quantity := TruncateToInt(raw.quantity.GetOr(0.0)),
      gross := raw.gross.GetOr(0.0),
      invoice := raw.invoice,
      payment := if pending then None else raw.payment,
      category := raw.category,
      text := if raw.gross.None? then raw.text[GrossColumn := "0.0"] else raw.text)
  }

  /** The string form of a cell as a custom rule reads it (`astype(str)` after
      app.py:230-235 have rewritten the frame): the tier and quantity columns
      render their normalised values, a missing category renders "nan" and a
      missing date "NaT"; every other cell renders as the raw row supplies it,
      and one the row does not carry renders "nan". */
  function CellText(r: Row, column: string): string
  {
    if column == TierColumn then r.tier
    else if column == QuantityColumn then IntText(r.quantity)
    else if column == CategoryColumn then r.category.GetOr("nan")
    else if column == InvoiceColumn && r.invoice.None? then "NaT"
    else if column == PaymentColumn && r.payment.None? then "NaT"
    else if column in r.text then r.text[column] else "nan"
  }

  /** What a custom rule reads from a normalised line: the filled and stripped
      tier, the truncated quantity, "0.0" for an unparsable gross value, "NaT"
      for a pending or unparsable date, and the raw rendering elsewhere. */
  lemma NormalisedCellText(raw: RawRow, column: string)
    ensures column == TierColumn ==>
              CellText(Normalise(raw), column) == (if raw.tier.None? then DefaultTier else Trim(raw.tier.value))
    ensures column == QuantityColumn ==>
              CellText(Normalise(raw), column) == IntText(TruncateToInt(raw.quantity.GetOr(0.0)))
    ensures column == GrossColumn && raw.gross.None? ==> CellText(Normalise(raw), column) == "0.0"
    ensures column == InvoiceColumn && raw.invoice.None? ==> CellText(Normalise(raw), column) == "NaT"
    ensures column == PaymentColumn &&
            (raw.payment.None? || (raw.paymentText.Some? && raw.paymentText.value in PendingTokens)) ==>
              CellText(Normalise(raw), column) == "NaT"
    ensures column == CategoryColumn ==> CellText(Normalise(raw), column) == raw.category.GetOr("nan")
    ensures column !in {TierColumn, QuantityColumn, GrossColumn, InvoiceColumn, PaymentColumn, CategoryColumn} ==>
              CellText(Normalise(raw), column) == (if column in raw.text then raw.text[column] else "nan")
  {
  }
}
