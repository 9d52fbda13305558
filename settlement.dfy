/** The settlement stage (app.py:301-313) and the net amount (app.py:316-317). */
module Settlement {
  import opened Wrappers
  import opened Ledger

  /** The settlement knobs of the policy tab. */
  datatype Terms = Terms(earlyDays: int, earlyRebate: real, lateDays: int, latePenaltyPct: real)

  /** The two settlement columns, `Penalty_Percentage_%` and `Settlement_Adjustment_Amount`. */
  datatype Settlement = Settlement(penaltyPct: real, adjustment: real)

  /** Both settlement columns start at 0.0 (app.py:301-302). */
  const NoSettlement: Settlement := Settlement(0.0, 0.0)

  /** Days from invoice to payment, present only when both dates are. */
  function DaysGap(r: Row): (gap: Option<int>)
    ensures gap.Some? <==> r.invoice.Some? && r.payment.Some?
    ensures gap.Some? ==> r.invoice.value.day + gap.value == r.payment.value.day
  {
    if r.invoice.Some? && r.payment.Some? then Some(r.payment.value.day - r.invoice.value.day) else None
  }

  /** The early mask of app.py:308. */
  predicate IsEarly(t: Terms, r: Row)
  {
    DaysGap(r).Some? && DaysGap(r).value <= t.earlyDays
  }

  /** The late mask of app.py:311. */
  predicate IsLate(t: Terms, r: Row)
  {
    DaysGap(r).Some? && DaysGap(r).value > t.lateDays
  }

  /** The late penalty: `latePenaltyPct` percent of the gross value. */
  function LateSettlement(t: Terms, r: Row): (s: Settlement)
    ensures s.penaltyPct == t.latePenaltyPct
    ensures s.adjustment * 100.0 == r.gross * t.latePenaltyPct
  {
    Settlement(t.latePenaltyPct, r.gross * (t.latePenaltyPct / 100.0))
  }

  /** The early rebate: a credit of `earlyRebate`, no penalty percentage. */
  function EarlySettlement(t: Terms): (s: Settlement)
    ensures s.penaltyPct == 0.0 && s.adjustment == -t.earlyRebate
  {
    Settlement(0.0, -t.earlyRebate)
  }

  /** The settlement a row ends with: the late penalty when late, otherwise the
      early rebate when early, otherwise nothing. */
  function Settle(t: Terms, r: Row): (s: Settlement)
    ensures DaysGap(r).None? ==> s == NoSettlement
    ensures IsLate(t, r) ==> s == LateSettlement(t, r)
    ensures IsEarly(t, r) && !IsLate(t, r) ==> s == EarlySettlement(t)
    ensures !IsEarly(t, r) && !IsLate(t, r) ==> s == NoSettlement
  {
    if IsLate(t, r) then LateSettlement(t, r)
    else if IsEarly(t, r) then EarlySettlement(t)
    else NoSettlement
  }

  /** With the early threshold below the late one the two masks are disjoint:
      a gap up to `earlyDays` earns the rebate, a gap beyond `lateDays` pays the
      penalty, and a gap in between settles at zero. */
  lemma SettlementUnderOrderedTerms(t: Terms, r: Row)
    requires t.earlyDays < t.lateDays
    requires DaysGap(r).Some?
    ensures DaysGap(r).value <= t.earlyDays ==> Settle(t, r) == Settlement(0.0, -t.earlyRebate)
    ensures DaysGap(r).value > t.lateDays ==>
              Settle(t, r) == Settlement(t.latePenaltyPct, r.gross * t.latePenaltyPct / 100.0)
    ensures t.earlyDays < DaysGap(r).value <= t.lateDays ==> Settle(t, r) == NoSettlement
  {
  }

  /** When the thresholds let a gap be both early and late, late wins. */
  lemma LateBeatsEarly(t: Terms, r: Row)
    requires IsEarly(t, r) && IsLate(t, r)
    ensures t.lateDays < t.earlyDays
    ensures Settle(t, r).penaltyPct == t.latePenaltyPct
    ensures Settle(t, r).adjustment * 100.0 == r.gross * t.latePenaltyPct
  {
  }

  /** `Final_Net_Amount`: gross less discount plus settlement, clipped below at 0. */
  function NetAmount(gross: real, discount: real, adjustment: real): (net: real)
    ensures net >= 0.0
    ensures net >= gross - discount + adjustment
    ensures net == gross - discount + adjustment || net == 0.0
  {
    var net := gross - discount + adjustment;
    if net < 0.0 then 0.0 else net
  }
}
