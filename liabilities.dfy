/**
 * The liability records shown in the report, and the summary totals the
 * report download computes from them with `reduce`: every amount is in
 * whole cents, and a missing amount counts as zero.
 */
module Liabilities {
  import opened Wrappers

  /** The optional loan details; a credit card's details carry none of these. */
  datatype Details = Details(
    originalAmount: Option<int>, loanTerm: Option<int>,
    remainingTerm: Option<int>, nextPaymentDue: Option<string>)

  /** One liability; `kind` is the `type` field. */
  datatype Liability = Liability(
    kind: string, provider: string, balance: Option<int>, minimumPayment: Option<int>,
    status: string, details: Option<Details>)

  /** The `summary` object of the report data. */
  datatype Summary = Summary(totalDebt: int, totalMinimumPayments: int, creditScore: int)

  /** The credit score the download path fills in for every report. */
  const DefaultCreditScore := 720

  /** `amount || 0`. */
  function OrZero(a: Option<int>): int {
    match a
    case Some(x) => x
    case None => 0
  }

  /** `reduce((sum, x) => sum + (x || 0), 0)` over a list of amounts, left to right. */
  function SumOf(amounts: seq<Option<int>>): (r: int)
    ensures (forall i :: 0 <= i < |amounts| ==> amounts[i].None?) ==> r == 0
  {
    if amounts == [] then 0 else SumOf(amounts[..|amounts| - 1]) + OrZero(amounts[|amounts| - 1])
  }

  function Balances(ls: seq<Liability>): (r: seq<Option<int>>)
    ensures |r| == |ls| && forall i :: 0 <= i < |ls| ==> r[i] == ls[i].balance
  {
    seq(|ls|, i requires 0 <= i < |ls| => ls[i].balance)
  }

  function MinimumPayments(ls: seq<Liability>): (r: seq<Option<int>>)
    ensures |r| == |ls| && forall i :: 0 <= i < |ls| ==> r[i] == ls[i].minimumPayment
  {
    seq(|ls|, i requires 0 <= i < |ls| => ls[i].minimumPayment)
  }

  /** The summary built for the report download (`mockDataForPdf.data.summary`). */
  function SummaryOf(ls: seq<Liability>): (r: Summary)
    ensures r.creditScore == DefaultCreditScore
  {
    Summary(SumOf(Balances(ls)), SumOf(MinimumPayments(ls)), DefaultCreditScore)
  }

  /** The total of two lists is the sum of their totals. */
  lemma {:induction false} SumOfAppend(a: seq<Option<int>>, b: seq<Option<int>>)
    ensures SumOf(a + b) == SumOf(a) + SumOf(b)
    decreases |b|
  {
    if b == [] {
      assert a + b == a;
    } else {
      assert (a + b)[..|a + b| - 1] == a + b[..|b| - 1];
      SumOfAppend(a, b[..|b| - 1]);
    }
  }

  /** Missing amounts add nothing: the total equals the total of the amounts present. */
  lemma {:induction false} SumOfSkipsMissing(a: seq<Option<int>>, b: seq<Option<int>>)
    ensures SumOf(a + [None] + b) == SumOf(a + b)
  {
    SumOfAppend(a + [None], b);
    SumOfAppend(a, b);
    assert (a + [None])[..|a|] == a;
  }

  /** With no negative amount, the total is at least every single amount. */
  lemma {:induction false} SumOfBounds(amounts: seq<Option<int>>, i: nat)
    requires forall j :: 0 <= j < |amounts| ==> OrZero(amounts[j]) >= 0
    requires i < |amounts|
    ensures SumOf(amounts) >= OrZero(amounts[i]) >= 0
    decreases |amounts|
  {
    var n := |amounts| - 1;
    SumOfNonNegative(amounts[..n]);
    if i < n {
      SumOfBounds(amounts[..n], i);
    }
  }

  lemma {:induction false} SumOfNonNegative(amounts: seq<Option<int>>)
    requires forall j :: 0 <= j < |amounts| ==> OrZero(amounts[j]) >= 0
    ensures SumOf(amounts) >= 0
    decreases |amounts|
  {
    if amounts != [] {
      SumOfNonNegative(amounts[..|amounts| - 1]);
    }
  }

  /** The five liabilities of the sandbox data set, amounts in cents. */
  const MockLiabilities := [
    Liability("STUDENT_LOAN", "Federal Student Aid", Some(1500000), Some(15000), "CURRENT",
      Some(Details(Some(2000000), Some(120), Some(85), Some("2023-08-15")))),
    Liability("CREDIT_CARD", "Chase Bank", Some(350000), Some(7500), "CURRENT",
      Some(Details(None, None, None, None))),
    Liability("AUTO_LOAN", "Capital One Auto Finance", Some(1250000), Some(35000), "CURRENT",
      Some(Details(Some(2500000), Some(60), Some(36), Some("2023-08-01")))),
    Liability("MORTGAGE", "Wells Fargo", Some(25000000), Some(120000), "CURRENT",
      Some(Details(Some(30000000), Some(360), Some(320), Some("2023-08-01")))),
    Liability("PERSONAL_LOAN", "Lending Club", Some(800000), Some(25000), "CURRENT",
      Some(Details(Some(1000000), Some(48), Some(32), Some("2023-08-15"))))
  ]

  /** The summary the sandbox data set states for itself. */
  const MockSummary := Summary(28900000, 202500, 720)

  /** The stated summary of the sandbox data agrees with the totals the download path computes. */
  lemma MockTotals()
    ensures SummaryOf(MockLiabilities) == MockSummary
  {
    MockBalances();
    MockMinimumPayments();
  }

  lemma MockBalances()
    ensures SumOf(Balances(MockLiabilities)) == 28900000
  {
    var b := Balances(MockLiabilities);
    assert b == [Some(1500000), Some(350000), Some(1250000), Some(25000000), Some(800000)];
    SumOfFive(b);
  }

  lemma MockMinimumPayments()
    ensures SumOf(MinimumPayments(MockLiabilities)) == 202500
  {
    var m := MinimumPayments(MockLiabilities);
    assert m == [Some(15000), Some(7500), Some(35000), Some(120000), Some(25000)];
    SumOfFive(m);
  }

  lemma SumOfFive(a: seq<Option<int>>)
    requires |a| == 5
    ensures SumOf(a) == OrZero(a[0]) + OrZero(a[1]) + OrZero(a[2]) + OrZero(a[3]) + OrZero(a[4])
  {
    SumOfOne(a, 0);
    SumOfOne(a, 1);
    SumOfOne(a, 2);
    SumOfOne(a, 3);
    SumOfOne(a, 4);
    assert a[..5] == a;
    assert a[..0] == [];
  }

  /** One more step of the reduction. */
  lemma SumOfOne(amounts: seq<Option<int>>, n: nat)
    requires n < |amounts|
    ensures SumOf(amounts[..n + 1]) == SumOf(amounts[..n]) + OrZero(amounts[n])
  {
    assert amounts[..n + 1][..n] == amounts[..n];
  }
}
