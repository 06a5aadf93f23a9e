/**
 * The risk agent's evaluation of an invoice: a risk score from 1 to 5 built from
 * points for the amount and for the days until the due date, and a yield of a base
 * rate plus a spread per risk point, in basis points. The clock is a parameter.
 * A country check is part of the scoring, but its list of high-risk countries is
 * empty, so it never adds a point.
 */
module RiskAgent {
  import opened Common

  /** The constants the agent sets up when it is created. */
  const BaseYieldBps: int := 300
  const RiskSpreadBps: int := 100
  const SecondsPerDay: int := 86400
  const HighRiskCountries: seq<string> := []

  /** The fields the evaluation reads; each may be absent from the metadata. */
  datatype InvoiceMetadata = InvoiceMetadata(amount: Option<int>, dueDate: Option<int>, debtorCountry: Option<string>)

  datatype Evaluation = Evaluation(riskScore: int, yieldBps: int)

  function Amount(m: InvoiceMetadata): int
  {
    if m.amount.Some? then m.amount.value else 0
  }

  function DueDate(m: InvoiceMetadata): int
  {
    if m.dueDate.Some? then m.dueDate.value else 0
  }

  function DebtorCountry(m: InvoiceMetadata): string
  {
    if m.debtorCountry.Some? then m.debtorCountry.value else ""
  }

  /** Upper case for ASCII letters; other characters are kept. */
  function Upper(s: string): (u: string)
    ensures |u| == |s|
    ensures forall i :: 0 <= i < |s| ==> u[i] == (if 'a' <= s[i] <= 'z' then (s[i] as int - 32) as char else s[i])
  {
    if s == [] then []
    else [if 'a' <= s[0] <= 'z' then (s[0] as int - 32) as char else s[0]] + Upper(s[1..])
  }

  /**
   * Whole days until the due date, never negative: the floor of the seconds left
   * divided by a day (Python's `//`, which for a positive divisor is Dafny's `/`),
   * and 0 once the due date has passed.
   */
  function DaysUntilDue(dueDate: int, now: int): (d: int)
    ensures d >= 0
    ensures dueDate - now >= 0 ==> d * SecondsPerDay <= dueDate - now < (d + 1) * SecondsPerDay
    ensures dueDate - now < SecondsPerDay ==> d == 0
  {
    var days := (dueDate - now) / SecondsPerDay;
    if days > 0 then days else 0
  }

  /** Two points above 1,000,000, one above 500,000. */
  function AmountPoints(amount: int): (p: int)
    ensures 0 <= p <= 2
  {
    if amount > 1000000 then 2 else if amount > 500000 then 1 else 0
  }

  /** Two points beyond 90 days, one beyond 60. */
  function TermPoints(days: int): (p: int)
    ensures 0 <= p <= 2
  {
    if days > 90 then 2 else if days > 60 then 1 else 0
  }

  function CountryPoints(country: string): int
  {
    if Upper(country) in HighRiskCountries then 1 else 0
  }

  /** The risk score: 1 plus the points, capped at 5 and at least 1. */
  function RiskScore(m: InvoiceMetadata, now: int): (score: int)
    ensures 1 <= score <= 5
  {
    var score := 1 + AmountPoints(Amount(m)) + TermPoints(DaysUntilDue(DueDate(m), now)) + CountryPoints(DebtorCountry(m));
    var capped := if score < 5 then score else 5;
    if capped > 1 then capped else 1
  }

  /** `evaluate`: the risk score and the yield of base rate plus spread per point. */
  function Evaluate(m: InvoiceMetadata, now: int): (e: Evaluation)
    ensures 1 <= e.riskScore <= 5
    ensures 400 <= e.yieldBps <= 800
    ensures e.yieldBps == BaseYieldBps + e.riskScore * RiskSpreadBps
  {
    var score := RiskScore(m, now);
    Evaluation(score, BaseYieldBps + score * RiskSpreadBps)
  }

  /** With no high-risk country the cap never bites: the score is exactly 1 plus the amount and term points. */
  lemma RiskScoreIsPoints(m: InvoiceMetadata, now: int)
    ensures RiskScore(m, now) == 1 + AmountPoints(Amount(m)) + TermPoints(DaysUntilDue(DueDate(m), now))
  {
    assert CountryPoints(DebtorCountry(m)) == 0;
  }

  /** The debtor country never changes the evaluation. */
  lemma CountryIndependent(m: InvoiceMetadata, country: Option<string>, now: int)
    ensures Evaluate(m.(debtorCountry := country), now) == Evaluate(m, now)
  {
    RiskScoreIsPoints(m, now);
    RiskScoreIsPoints(m.(debtorCountry := country), now);
  }

  /** A later due date never gives fewer days. */
  lemma DaysMonotone(due1: int, due2: int, now: int)
    requires due1 <= due2
    ensures DaysUntilDue(due1, now) <= DaysUntilDue(due2, now)
  {
  }

  /** At a fixed time, a larger amount or a later due date never lowers the score, nor the yield. */
  lemma EvaluateMonotone(m1: InvoiceMetadata, m2: InvoiceMetadata, now: int)
    requires Amount(m1) <= Amount(m2) && DueDate(m1) <= DueDate(m2)
    ensures Evaluate(m1, now).riskScore <= Evaluate(m2, now).riskScore
    ensures Evaluate(m1, now).yieldBps <= Evaluate(m2, now).yieldBps
  {
    RiskScoreIsPoints(m1, now);
    RiskScoreIsPoints(m2, now);
    DaysMonotone(DueDate(m1), DueDate(m2), now);
  }

  /** Small, near-term invoices score 1 and yield 400; large, long-term ones score 5 and yield 800. */
  lemma EvaluateExtremes(now: int)
    ensures Evaluate(InvoiceMetadata(Some(1000), Some(now), Some("US")), now) == Evaluation(1, 400)
    ensures Evaluate(InvoiceMetadata(Some(2000000), Some(now + 100 * SecondsPerDay), None), now) == Evaluation(5, 800)
  {
    RiskScoreIsPoints(InvoiceMetadata(Some(1000), Some(now), Some("US")), now);
    RiskScoreIsPoints(InvoiceMetadata(Some(2000000), Some(now + 100 * SecondsPerDay), None), now);
  }
}
