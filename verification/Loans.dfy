/** Advances on an expected payout, and their repayment out of the pot. */
module Loans {
  import opened Wrappers
  import opened Ledger
  import opened Tables
  import Credit

  predicate Owes(loan: LoanRow, user: nat) {
    loan.user == user && loan.status.Active?
  }

  predicate HasActive(loans: seq<LoanRow>, user: nat) {
    exists i :: 0 <= i < |loans| && Owes(loans[i], user)
  }

  predicate Taken(loan: LoanRow, user: nat, circle: nat) {
    loan.user == user && loan.circle == circle && (loan.status.Active? || loan.status.Repaid?)
  }

  predicate HasTaken(loans: seq<LoanRow>, user: nat, circle: nat) {
    exists i :: 0 <= i < |loans| && Taken(loans[i], user, circle)
  }

  /** The amounts of a loan against an expected payout, all rounded down to whole kobo. */
  function Terms(user: nat, circle: nat, payoutAmount: int, allowedPercent: int): LoanRow {
    var loanAmount := payoutAmount * allowedPercent / 100;
    var companyFee := payoutAmount * 10 / 100;
    LoanRow(user, circle, payoutAmount, loanAmount, companyFee, payoutAmount - loanAmount - companyFee,
      LoanStatus.Active)
  }

  /** The credit service reads the circle and the membership on a connection of its own, not in the transaction that
      grants the loan, so what it has seen may be out of date by the time the loan is granted. */
  ghost function ApplyLoan(t: Tables, seen: Tables, user: nat, circle: nat, score: int): Result<Tables, Error> {
    if HasActive(t.loans, user) then Failure(LoanAlreadyActive)
    else if circle !in seen.circles then Failure(CircleNotFound)
    else if !seen.circles[circle].status.Active? then Failure(NotEligible)
    else if (circle, user) !in seen.members || !seen.members[(circle, user)].status.Active? then Failure(NotEligible)
    else if Credit.AllowedPercent(score).None? then Failure(NotEligible)
    else if HasTaken(t.loans, user, circle) then Failure(LoanAlreadyTaken)
    else if Of(user) !in t.wallets then Failure(WalletNotFound)
    else
      var c := seen.circles[circle];
      var loan := Terms(user, circle, c.amount * c.filledSlots, Credit.AllowedPercent(score).value);
      if loan.finalPayout <= 0 then Failure(LoanTooLarge)
      else
        var ws :- Pay(t.wallets, Of(user),
          Params(Credit, None, loan.loanAmount, Drawn(LoanDisburse, t.draws), SourceType.Loan, Row(t.draws)));
        Success(t.(wallets := ws, draws := t.draws + 1, loans := t.loans + [loan]))
  }

  method ApplyLoanTx(db: Database, seen: Tables, user: nat, circle: nat, score: int) returns (r: Result<LoanRow, Error>)
    modifies db, db.ledger
    ensures match ApplyLoan(old(db.Snapshot()), seen, user, circle, score)
      case Failure(e) => r == Failure(e) && db.Snapshot() == old(db.Snapshot())
      case Success(t) => r.Success? && db.Snapshot() == t
  {
    if HasActive(db.loans, user) {
      return Failure(LoanAlreadyActive);
    }
    if circle !in seen.circles {
      return Failure(CircleNotFound);
    }
    var c := seen.circles[circle];
    if !c.status.Active? || (circle, user) !in seen.members || !seen.members[(circle, user)].status.Active? {
      return Failure(NotEligible);
    }
    var allowed := Credit.AllowedPercent(score);
    if allowed.None? {
      return Failure(NotEligible);
    }
    if HasTaken(db.loans, user, circle) {
      return Failure(LoanAlreadyTaken);
    }
    if Of(user) !in db.ledger.wallets {
      return Failure(WalletNotFound);
    }
    var payoutAmount := c.amount * c.filledSlots;
    var loanAmount := payoutAmount * allowed.value / 100;
    var companyFee := payoutAmount * 10 / 100;
    var finalPayout := payoutAmount - loanAmount - companyFee;
    if finalPayout <= 0 {
      return Failure(LoanTooLarge);
    }
    var loan := LoanRow(user, circle, payoutAmount, loanAmount, companyFee, finalPayout, LoanStatus.Active);
    var _ :- db.WriteEntry(Of(user),
      Params(Credit, None, loanAmount, Drawn(LoanDisburse, db.draws), SourceType.Loan, Row(db.draws)));
    db.loans := db.loans + [loan];
    db.draws := db.draws + 1;
    return Success(loan);
  }

  // ----- Repayment inside a payout's transaction ---------------------------------------------------

  predicate OwesHere(loan: LoanRow, user: nat, circle: nat) {
    Owes(loan, user) && loan.circle == circle
  }

  /** The first active loan of this recipient against this circle, or |loans|. */
  function FindOwed(loans: seq<LoanRow>, user: nat, circle: nat): (k: nat)
    ensures k <= |loans|
    ensures k < |loans| ==> OwesHere(loans[k], user, circle)
    ensures forall i :: 0 <= i < k ==> !OwesHere(loans[i], user, circle)
  {
    if |loans| == 0 || OwesHere(loans[0], user, circle) then 0
    else
      var k := FindOwed(loans[1..], user, circle);
      assert forall i :: 0 < i < 1 + k ==> loans[i] == loans[1..][i - 1];
      1 + k
  }

  function Deduction(loan: LoanRow): int {
    loan.loanAmount + loan.companyFee
  }

  datatype Repayment = Repayment(loans: seq<LoanRow>, netPayout: int, loanRepaid: bool)

  function Repay(loans: seq<LoanRow>, user: nat, circle: nat, totalPot: int): Repayment {
    var k := FindOwed(loans, user, circle);
    if k == |loans| || Deduction(loans[k]) >= totalPot then Repayment(loans, totalPot, false)
    else Repayment(loans[k := loans[k].(status := LoanStatus.Repaid)], totalPot - Deduction(loans[k]), true)
  }

  // ----- Sums over the loan book -------------------------------------------------------------------

  /** What a loan row adds to the money in the wallets: an active loan was paid out of nothing, and
      repaying it took the loan and the fee out of a pot. */
  function Float(loan: LoanRow): int {
    match loan.status
    case Active => loan.loanAmount
    case Repaid => -loan.companyFee
    case Defaulted | Cancelled => 0
  }

  function FloatSum(loans: seq<LoanRow>): int {
    if |loans| == 0 then 0 else FloatSum(loans[..|loans| - 1]) + Float(loans[|loans| - 1])
  }

  lemma {:induction false} FloatAppend(loans: seq<LoanRow>, loan: LoanRow)
    ensures FloatSum(loans + [loan]) == FloatSum(loans) + Float(loan)
  {
    assert (loans + [loan])[..|loans|] == loans;
  }

  lemma {:induction false} FloatUpdate(loans: seq<LoanRow>, k: nat, loan: LoanRow)
    requires k < |loans|
    ensures FloatSum(loans[k := loan]) == FloatSum(loans) - Float(loans[k]) + Float(loan)
    decreases |loans|
  {
    var n := |loans| - 1;
    if k < n {
      FloatUpdate(loans[..n], k, loan);
      assert loans[k := loan][..n] == loans[..n][k := loan];
    } else {
      assert loans[k := loan][..n] == loans[..n];
    }
  }

  /** Repaying moves exactly the loan and its fee out of the pot and out of the book. */
  lemma {:induction false} RepayBalances(loans: seq<LoanRow>, user: nat, circle: nat, pot: int)
    ensures var r := Repay(loans, user, circle, pot);
      && |r.loans| == |loans|
      && r.netPayout - pot == FloatSum(r.loans) - FloatSum(loans)
      && (pot > 0 ==> r.netPayout > 0)
      && (!r.loanRepaid ==> r.loans == loans && r.netPayout == pot)
  {
    var k := FindOwed(loans, user, circle);
    if k < |loans| && Deduction(loans[k]) < pot {
      FloatUpdate(loans, k, loans[k].(status := LoanStatus.Repaid));
    }
  }

  // ----- The arithmetic of one loan ----------------------------------------------------------------

  /** The loan is the share of the expected payout the tier allows and the company's fee a tenth of that payout, not
      of the loan; both are rounded down to whole kobo and the rest is the final payout. No other amounts are. */
  lemma {:induction false} TermsExactly(user: nat, circle: nat, expected: int, percent: int, loan: LoanRow)
    ensures loan == Terms(user, circle, expected, percent) <==>
      && loan.user == user && loan.circle == circle && loan.status.Active? && loan.payoutAmount == expected
      && 100 * loan.loanAmount <= expected * percent < 100 * (loan.loanAmount + 1)
      && 10 * loan.companyFee <= expected < 10 * (loan.companyFee + 1)
      && loan.finalPayout == expected - loan.loanAmount - loan.companyFee
  {
    Hundredths(expected * percent, loan.loanAmount);
    assert expected * 10 / 100 == loan.companyFee <==> 10 * loan.companyFee <= expected < 10 * (loan.companyFee + 1);
  }

  lemma {:induction false} Hundredths(share: int, loanAmount: int)
    ensures share / 100 == loanAmount <==> 100 * loanAmount <= share < 100 * (loanAmount + 1)
  {
  }

  /** At every tier the borrower keeps at least 40% of a positive expected payout, so the guard
      against a loan that swallows the payout never fires. */
  lemma {:induction false} FinalPayoutFloor(user: nat, circle: nat, payoutAmount: int, score: int)
    requires payoutAmount > 0 && Credit.AllowedPercent(score).Some?
    ensures var loan := Terms(user, circle, payoutAmount, Credit.AllowedPercent(score).value);
      && 100 * loan.finalPayout >= 40 * payoutAmount
      && loan.finalPayout > 0
      && Deduction(loan) + loan.finalPayout == payoutAmount
      && 10 * Deduction(loan) <= 6 * payoutAmount
  {
    Credit.TiersMonotone(score, score);
    var percent := Credit.AllowedPercent(score).value;
    ShareBound(payoutAmount, percent);
  }

  lemma {:induction false} ShareBound(payoutAmount: int, percent: int)
    requires payoutAmount > 0 && 20 <= percent <= 50
    ensures 0 <= 100 * (payoutAmount * percent / 100) <= 50 * payoutAmount
  {
    assert payoutAmount * percent <= payoutAmount * 50;
    assert payoutAmount * percent >= 0;
  }

  /** k contributions of amount each, against a loan sized on n slots. The loan is repaid whenever
      5k > 3n, and with every slot paying in, the borrower gets at least the promised final payout. */
  lemma {:induction false} RepaidWhenEnoughContribute(loans: seq<LoanRow>, user: nat, circle: nat, amount: int,
      n: nat, k: nat, score: int, pot: int)
    requires amount > 0 && n > 0 && Credit.AllowedPercent(score).Some?
    requires FindOwed(loans, user, circle) < |loans|
    requires loans[FindOwed(loans, user, circle)] == Terms(user, circle, amount * n, Credit.AllowedPercent(score).value)
    requires pot >= amount * k
    ensures var r := Repay(loans, user, circle, pot);
      var loan := loans[FindOwed(loans, user, circle)];
      && (r.loanRepaid <==> pot > Deduction(loan))
      && (5 * k > 3 * n ==> r.loanRepaid)
      && (k >= n ==> r.loanRepaid && r.netPayout >= loan.finalPayout)
  {
    assert amount * n > 0;
    FinalPayoutFloor(user, circle, amount * n, score);
    var loan := loans[FindOwed(loans, user, circle)];
    if 5 * k > 3 * n {
      assert amount * (5 * k) > amount * (3 * n);
      assert 5 * (amount * k) > 3 * (amount * n);
      assert 10 * Deduction(loan) < 10 * (amount * k);
    }
    if k >= n {
      assert amount * k >= amount * n;
    }
  }
}
