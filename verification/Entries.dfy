/** The ledger entries each operation on a circle leaves behind, in pairs and in order. */
module Entries {
  import opened Wrappers
  import opened Ledger
  import opened Tables
  import opened Memberships
  import opened Contributions
  import opened Loans
  import opened Payouts

  /** An entry in a wallet's main bucket, from its balance so far. */
  function Line(tag: Label, kind: EntryType, amount: int, before: int, source: SourceType, draw: nat): Entry
    requires kind.Credit? || kind.Debit?
  {
    Entry(Drawn(tag, draw), kind, Main, amount, before, if kind.Credit? then before + amount else before - amount,
      source, Row(draw))
  }

  lemma {:induction false} PayAppends(ws: Wallets, id: WalletId, bucket: Option<BucketType>, tag: Label,
      kind: EntryType, amount: int, source: SourceType, draw: nat, ws': Wallets)
    requires kind.Credit? || kind.Debit?
    requires Pay(ws, id, Params(kind, bucket, amount, Drawn(tag, draw), source, Row(draw))) == Success(ws')
    ensures id in ws && ws'.Keys == ws.Keys
    ensures ws'[id] == Wallet(ws[id].entries + [Line(tag, kind, amount, Balance(ws[id]), source, draw)], ws[id].buckets)
    ensures forall o :: o in ws && o != id ==> ws'[o] == ws[o]
    ensures Balance(ws'[id]) == if kind.Credit? then Balance(ws[id]) + amount else Balance(ws[id]) - amount
  {
    WriteExactly(ws[id], Params(kind, bucket, amount, Drawn(tag, draw), source, Row(draw)));
    hide HasKey;
  }

  /** A contribution is a debit of the member and a credit of the pool, and a late fee a second such pair. */
  lemma {:induction false} ContributionEntries(t: Tables, now: int, user: nat, circle: nat, cycle: int, t': Tables)
    requires MakeContribution(t, now, user, circle, cycle) == Success(t')
    ensures Of(user) in t.wallets && Pool in t.wallets && t'.wallets.Keys == t.wallets.Keys
    ensures circle in t.circles && |t'.contributions| == |t.contributions| + 1
    ensures var member, pool := t.wallets[Of(user)], t.wallets[Pool];
      var amount, fee, n := t.circles[circle].amount, t'.contributions[|t.contributions|].penalty, t.draws;
      var from, into := Balance(member), Balance(pool);
      var contribution := SourceType.Contribution;
      && t'.wallets[Of(user)].entries == member.entries
           + [Line(Contrib, Debit, amount, from, contribution, n)]
           + (if fee > 0 then [Line(Pen, Debit, fee, from - amount, SourceType.Penalty, n)] else [])
      && t'.wallets[Pool].entries == pool.entries
           + [Line(PoolCred, Credit, amount, into, contribution, n)]
           + (if fee > 0 then [Line(PoolPen, Credit, fee, into + amount, SourceType.Penalty, n)] else [])
      && forall id :: id in t.wallets && id != Pool && id != Of(user) ==> t'.wallets[id] == t.wallets[id]
  {
    hide Balance, Pay, HasContributed;
    CollectEntries(t.wallets, user, t.circles[circle].amount, t'.contributions[|t.contributions|].penalty, t.draws,
      t'.wallets);
  }

  lemma {:induction false} CollectEntries(ws: Wallets, user: nat, amount: int, fee: int, n: nat, ws': Wallets)
    requires Collect(ws, user, amount, fee, n) == Success(ws')
    ensures Of(user) in ws && Pool in ws && ws'.Keys == ws.Keys
    ensures ws'[Of(user)].entries == ws[Of(user)].entries
      + [Line(Contrib, Debit, amount, Balance(ws[Of(user)]), SourceType.Contribution, n)]
      + (if fee > 0 then [Line(Pen, Debit, fee, Balance(ws[Of(user)]) - amount, SourceType.Penalty, n)] else [])
    ensures ws'[Pool].entries == ws[Pool].entries
      + [Line(PoolCred, Credit, amount, Balance(ws[Pool]), SourceType.Contribution, n)]
      + (if fee > 0 then [Line(PoolPen, Credit, fee, Balance(ws[Pool]) + amount, SourceType.Penalty, n)] else [])
    ensures forall id :: id in ws && id != Pool && id != Of(user) ==> ws'[id] == ws[id]
  {
    hide Balance, Pay, Line;
    var ws1 := Pay(ws, Of(user), Transfer(Debit, Some(Main), amount, Contrib, SourceType.Contribution, n)).value;
    PayAppends(ws, Of(user), Some(Main), Contrib, Debit, amount, SourceType.Contribution, n, ws1);
    var ws2 := Pay(ws1, Pool, Transfer(Credit, Some(Main), amount, PoolCred, SourceType.Contribution, n)).value;
    PayAppends(ws1, Pool, Some(Main), PoolCred, Credit, amount, SourceType.Contribution, n, ws2);
    if fee > 0 {
      var ws3 := Pay(ws2, Of(user), Transfer(Debit, None, fee, Pen, SourceType.Penalty, n)).value;
      PayAppends(ws2, Of(user), None, Pen, Debit, fee, SourceType.Penalty, n, ws3);
      PayAppends(ws3, Pool, None, PoolPen, Credit, fee, SourceType.Penalty, n, ws');
    }
  }

  /** A payout debits the pool with the whole pot, credits the recipient with the net, and credits the pool with
      the platform's fee when there is one. */
  lemma {:induction false} PayoutEntries(t: Tables, circle: nat, cycle: int, recipient: nat, t': Tables)
    requires (circle, cycle) in t.schedules && PaidOut(t, circle, cycle, recipient) == Success(t')
    ensures Of(recipient) in t.wallets && Pool in t.wallets && t'.wallets.Keys == t.wallets.Keys
    ensures |t'.payouts| == |t.payouts| + 1
    ensures var pot, n := Pot(t.contributions, circle, cycle), t.draws;
      var net, fee := t'.payouts[|t.payouts|].amount, if t'.loans == t.loans then pot * 2 / 100 else 0;
      var pool, own := t.wallets[Pool], t.wallets[Of(recipient)];
      && t'.wallets[Pool].entries == pool.entries
           + [Line(PoolDebit, Debit, pot, Balance(pool), RoscaCircle, n)]
           + (if fee > 0 then [Line(PlatformFeeRef, Credit, fee, Balance(pool) - pot, PlatformFee, n)] else [])
      && t'.wallets[Of(recipient)].entries ==
           own.entries + [Line(PayoutRef, Credit, net, Balance(own), RoscaCircle, n)]
      && forall id :: id in t.wallets && id != Pool && id != Of(recipient) ==> t'.wallets[id] == t.wallets[id]
  {
    hide Balance, Pay, HasPayout, Pot, Line;
    var pot := Pot(t.contributions, circle, cycle);
    var repayment := Repay(t.loans, recipient, circle, pot);
    var fee := FeeOn(pot, repayment.loanRepaid);
    var net := repayment.netPayout - fee;
    var ws1 := Pay(t.wallets, Pool, Transfer(Debit, Some(Main), pot, PoolDebit, RoscaCircle, t.draws)).value;
    PayAppends(t.wallets, Pool, Some(Main), PoolDebit, Debit, pot, RoscaCircle, t.draws, ws1);
    var ws2 := Pay(ws1, Of(recipient), Transfer(Credit, Some(Main), net, PayoutRef, RoscaCircle, t.draws)).value;
    PayAppends(ws1, Of(recipient), Some(Main), PayoutRef, Credit, net, RoscaCircle, t.draws, ws2);
    if fee > 0 {
      PayAppends(ws2, Pool, Some(Main), PlatformFeeRef, Credit, fee, PlatformFee, t.draws, t'.wallets);
    }
    if repayment.loanRepaid {
      assert t'.loans[FindOwed(t.loans, recipient, circle)].status.Repaid?;
    }
  }

  /** A loan is one credit of the borrower, out of no wallet. */
  lemma {:induction false} LoanEntry(t: Tables, seen: Tables, user: nat, circle: nat, score: int, t': Tables)
    requires ApplyLoan(t, seen, user, circle, score) == Success(t')
    ensures Of(user) in t.wallets && |t'.loans| == |t.loans| + 1
    ensures var w := t.wallets[Of(user)];
      var entry := Line(LoanDisburse, Credit, t'.loans[|t.loans|].loanAmount, Balance(w), SourceType.Loan, t.draws);
      t'.wallets == t.wallets[Of(user) := Wallet(w.entries + [entry], w.buckets)]
  {
    hide Balance, Pay, HasActive, HasTaken, Line;
    PayAppends(t.wallets, Of(user), None, LoanDisburse, Credit, t'.loans[|t.loans|].loanAmount, SourceType.Loan,
      t.draws, t'.wallets);
  }

  /** A reversal debits the user it names and credits the pool. */
  lemma {:induction false} ReversalEntries(t: Tables, payout: nat, recipient: nat, amount: int, schedule: (nat, int),
      t': Tables)
    requires ReversePayout(t, payout, recipient, amount, schedule) == Success(t')
    ensures Of(recipient) in t.wallets && Pool in t.wallets && t'.wallets.Keys == t.wallets.Keys
    ensures var pool, own := t.wallets[Pool], t.wallets[Of(recipient)];
      && t'.wallets[Of(recipient)].entries ==
           own.entries + [Line(RevDebit, Debit, amount, Balance(own), SourceType.Reversal, t.draws)]
      && t'.wallets[Pool].entries ==
           pool.entries + [Line(RevCred, Credit, amount, Balance(pool), SourceType.Reversal, t.draws)]
  {
    hide Balance, Pay, Line;
    var ws1 := Pay(t.wallets, Of(recipient),
      Transfer(Debit, Some(Main), amount, RevDebit, SourceType.Reversal, t.draws)).value;
    PayAppends(t.wallets, Of(recipient), Some(Main), RevDebit, Debit, amount, SourceType.Reversal, t.draws, ws1);
    PayAppends(ws1, Pool, Some(Main), RevCred, Credit, amount, SourceType.Reversal, t.draws, t'.wallets);
  }

  /** Collateral is reserved under the membership it is for, and released to a leaver under the same. */
  lemma {:induction false} CollateralEntries(t: Tables, now: int, user: nat, circle: nat, t': Tables)
    requires RequestToJoin(t, now, user, circle) == Success(t')
    ensures Of(user) in t.wallets && Of(user) in t'.wallets && (circle, user) in t'.members
    ensures var w, m := t.wallets[Of(user)], t'.members[(circle, user)];
      && t'.wallets[Of(user)].entries == w.entries + [Entry(Drawn(CollRes, t.draws), Reserve, Rosca, m.collateral,
           Balance(w), Balance(w), CollateralReserve, m.id)]
      && Key(Rosca, m.id) in t'.wallets[Of(user)].buckets
  {
    hide Balance, HasKey, Available;
  }

  lemma {:induction false} RefundEntries(t: Tables, user: nat, m: MembershipRow, ws: Wallets)
    requires m.collateral > 0 && Refund(t, user, m) == Success(ws)
    ensures Of(user) in t.wallets && Of(user) in ws
    ensures var w := t.wallets[Of(user)];
      ws[Of(user)].entries == w.entries + [Entry(Drawn(CollRel, t.draws), Release, Rosca, m.collateral,
        Balance(w), Balance(w), CollateralReserve, m.id)]
  {
    hide Balance, HasKey, Available;
  }

  /** Completion releases under another source type, whoever the member is. */
  lemma {:induction false} ReleaseEntries(t: Tables, circle: nat, user: nat)
    requires Due(t, circle, user) && ReleasedWallet(t, circle, user).Success?
    ensures var w, m := t.wallets[Of(user)], t.members[(circle, user)];
      ReleasedWallet(t, circle, user).value.entries == w.entries + [Entry(Drawn(CollRel, t.draws), Release, Rosca,
        m.collateral, Balance(w), Balance(w), CollateralRelease, m.id)]
  {
    hide Balance, HasKey, Available;
  }
}
