/** When a payout goes through, what reversing it restores, and what a batch of due payouts achieves. */
module Guarantees {
  import opened Wrappers
  import opened Ledger
  import opened Tables
  import opened Contributions
  import opened Loans
  import opened Payouts
  import opened Platform
  import opened Preservation
  import opened Runs

  // ----- The ledger never refuses a payout ---------------------------------------------------------------

  lemma {:induction false} OtherKey(w: Wallet, e: Entry, ref: Reference, source: SourceType, id: SourceId)
    requires !HasKey(w.entries, ref, source, id) && e.ref != ref
    ensures !HasKey(w.entries + [e], ref, source, id)
  {
  }

  /** A main-bucket transfer with a new key and, for a debit, the money for it. */
  predicate Payable(p: Params) {
    !Holds(p.kind) && p.amount > 0 && (p.bucket.None? || p.bucket.value.Main?)
  }

  lemma {:induction false} PaySucceeds(ws: Wallets, id: WalletId, p: Params)
    requires id in ws && Payable(p) && !HasKey(ws[id].entries, p.ref, p.source, p.sourceId)
    requires p.kind.Debit? ==> p.amount <= Available(ws[id])
    ensures Pay(ws, id, p).Success?
    ensures Pay(ws, id, p).value.Keys == ws.Keys
    ensures var w' := Pay(ws, id, p).value[id];
      w' == Wallet(ws[id].entries + [EntryFor(Balance(ws[id]), p)], ws[id].buckets)
    ensures forall o :: o in ws && o != id ==> Pay(ws, id, p).value[o] == ws[o]
  {
    hide HasKey, Available, Balance;
  }

  lemma {:induction false} PoolIsFree(ws: Wallets, n: nat)
    requires WalletsInv(ws, n)
    ensures Available(ws[Pool]) == Balance(ws[Pool]) && FreshEntries(ws[Pool].entries, n)
  {
    assert GoodWallet(ws[Pool], n);
    hide Sound, Balance;
  }

  lemma {:induction false} DisburseSucceeds(ws: Wallets, recipient: nat, pot: int, net: int, fee: int, draw: nat)
    requires WalletsInv(ws, draw) && Of(recipient) in ws
    requires 0 < pot <= Balance(ws[Pool]) && net > 0
    ensures Disburse(ws, recipient, pot, net, fee, draw).Success?
  {
    hide Balance, Available, HasKey, Pay;
    PoolIsFree(ws, draw);
    assert GoodWallet(ws[Of(recipient)], draw);
    var p1 := Transfer(Debit, Some(Main), pot, PoolDebit, SourceType.RoscaCircle, draw);
    var p2 := Transfer(Credit, Some(Main), net, PayoutRef, SourceType.RoscaCircle, draw);
    NewKey(ws[Pool], draw, p1.ref, p1.source, p1.sourceId);
    PaySucceeds(ws, Pool, p1);
    var ws1 := Pay(ws, Pool, p1).value;
    NewKey(ws[Of(recipient)], draw, p2.ref, p2.source, p2.sourceId);
    PaySucceeds(ws1, Of(recipient), p2);
    var ws2 := Pay(ws1, Of(recipient), p2).value;
    assert Pool in ws1 && ws2[Pool] == ws1[Pool];
    if fee > 0 {
      var p3 := Transfer(Credit, Some(Main), fee, PlatformFeeRef, SourceType.PlatformFee, draw);
      NewKey(ws[Pool], draw, p3.ref, p3.source, p3.sourceId);
      OtherKey(ws[Pool], EntryFor(Balance(ws[Pool]), p1), p3.ref, p3.source, p3.sourceId);
      PaySucceeds(ws2, Pool, p3);
    }
  }

  lemma {:induction false} OwedNotNegative(rows: seq<ContributionRow>, payouts: seq<PayoutRow>)
    requires forall i :: 0 <= i < |rows| ==> Paid(rows[i]) > 0
    ensures Owed(rows, payouts) >= 0
    decreases |rows|
  {
    if |rows| > 0 {
      OwedNotNegative(rows[..|rows| - 1], payouts);
    }
  }

  /** The pool always holds the pot of a cycle that was never paid. */
  lemma {:induction false} PoolCoversPot(t: Tables, circle: nat, cycle: int)
    requires PoolInv(t) && !HasPayout(t.payouts, circle, cycle)
    ensures 0 <= Pot(t.contributions, circle, cycle) <= Balance(t.wallets[Pool])
  {
    hide Balance, HasPayout, Pot, Owed;
    var p := PayoutRow(circle, cycle, 0, 0, PayoutStatus.Completed);
    OwedAfterPayout(t.contributions, t.payouts, p);
    OwedNotNegative(t.contributions, t.payouts + [p]);
    PotPositive(t.contributions, circle, cycle);
  }

  lemma {:induction false} NetPositive(loans: seq<LoanRow>, recipient: nat, circle: nat, pot: int)
    requires pot > 0
    ensures var r := Repay(loans, recipient, circle, pot);
      r.netPayout - FeeOn(pot, r.loanRepaid) > 0
  {
    RepayBalances(loans, recipient, circle, pot);
    hide Repay;
  }

  lemma {:induction false} PaidOutSucceeds(t: Tables, h: History, circle: nat, cycle: int, recipient: nat)
    requires Inv(World(t, h)) && (circle, cycle) in t.schedules && Pot(t.contributions, circle, cycle) != 0
    requires t.schedules[(circle, cycle)].recipient == Some(recipient)
    requires !HasPayout(t.payouts, circle, cycle)
    ensures PaidOut(t, circle, cycle, recipient).Success?
  {
    hide WalletsInv, CollateralInv, LoansInv, Conserved, Balance, HasPayout, Disburse, Pot, Repay, Owed;
    var pot := Pot(t.contributions, circle, cycle);
    PoolCoversPot(t, circle, cycle);
    NetPositive(t.loans, recipient, circle, pot);
    var repayment := Repay(t.loans, recipient, circle, pot);
    var fee := FeeOn(pot, repayment.loanRepaid);
    DisburseSucceeds(t.wallets, recipient, pot, repayment.netPayout - fee, fee, t.draws);
  }

  /** What a payout needs: nothing about money is in it. */
  predicate Eligible(t: Tables, circle: nat, cycle: int) {
    && circle in t.circles && t.circles[circle].status.Active?
    && (circle, cycle) in t.schedules && t.schedules[(circle, cycle)].recipient.Some?
    && !HasPayout(t.payouts, circle, cycle)
    && Pot(t.contributions, circle, cycle) != 0
  }

  lemma {:induction false} LiveIsPayout(payouts: seq<PayoutRow>, circle: nat, cycle: int)
    ensures HasLivePayout(payouts, circle, cycle) ==> HasPayout(payouts, circle, cycle)
  {
  }

  /** In every reachable state a payout succeeds exactly when the circle is active, the cycle has a
      recipient and a contribution, and no payout row exists for it. Neither the pool's balance, the
      unique ledger key, a loan nor the release of collateral ever stops it. */
  lemma {:induction false} PayoutExactly(t: Tables, h: History, circle: nat, cycle: int)
    requires Inv(World(t, h))
    ensures ProcessPayout(t, circle, cycle).Success? <==> Eligible(t, circle, cycle)
  {
    hide Inv, HasPayout, HasLivePayout, Pot, Finalize, Disburse;
    LiveIsPayout(t.payouts, circle, cycle);
    RecipientsHaveWallets(t, h);
    PoolExists(t, h);
    if Eligible(t, circle, cycle) {
      var recipient := t.schedules[(circle, cycle)].recipient.value;
      PaidOutSucceeds(t, h, circle, cycle, recipient);
      var paid := PaidOut(t, circle, cycle, recipient).value;
      PaidOutKeeps(t, h, circle, cycle, recipient, paid);
      PaidOutCircles(t, circle, cycle, recipient, paid);
      FinalizeSucceeds(paid, h, circle);
    }
  }

  lemma {:induction false} PoolExists(t: Tables, h: History)
    requires Inv(World(t, h))
    ensures Pool in t.wallets
  {
  }

  // ----- Reversing a payout ------------------------------------------------------------------------------

  lemma {:induction false} SameBucketsAvailable(w: Wallet, w': Wallet)
    requires w'.buckets == w.buckets
    ensures Available(w') - Available(w) == Balance(w') - Balance(w)
  {
    hide Balance;
  }

  /** What the payout's own writes leave behind. */
  lemma {:induction false} PaidOutMoney(t: Tables, h: History, circle: nat, cycle: int, recipient: nat, t': Tables)
    requires Inv(World(t, h)) && (circle, cycle) in t.schedules
    requires PaidOut(t, circle, cycle, recipient) == Success(t')
    ensures Pool in t.wallets && Of(recipient) in t.wallets && t'.wallets.Keys == t.wallets.Keys
    ensures |t'.payouts| == |t.payouts| + 1 && (circle, cycle) in t'.schedules
    ensures var net := t'.payouts[|t.payouts|].amount;
      && t'.payouts == t.payouts + [PayoutRow(circle, cycle, recipient, net, PayoutStatus.Completed)]
      && Balance(t'.wallets[Pool]) == Balance(t.wallets[Pool]) + (FloatSum(t'.loans) - FloatSum(t.loans)) - net
      && Balance(t'.wallets[Of(recipient)]) == Balance(t.wallets[Of(recipient)]) + net
      && Available(t'.wallets[Of(recipient)]) >= net
      && net > 0
      && var pot := Pot(t.contributions, circle, cycle);
      && var repayment := Repay(t.loans, recipient, circle, pot);
      && net == repayment.netPayout - FeeOn(pot, repayment.loanRepaid)
      && t'.loans == repayment.loans
  {
    hide Balance, Available, Disburse, WalletsInv, CollateralInv, LoansInv, PoolInv, Conserved, HasPayout, Repay, Pot;
    var pot := Pot(t.contributions, circle, cycle);
    var repayment := Repay(t.loans, recipient, circle, pot);
    var fee := FeeOn(pot, repayment.loanRepaid);
    RepayBalances(t.loans, recipient, circle, pot);
    DisburseKeeps(t.wallets, recipient, pot, repayment.netPayout - fee, fee, t.draws, t'.wallets);
    NetFromDisburse(t.wallets, recipient, pot, repayment.netPayout - fee, fee, t.draws);
    SameBucketsAvailable(t.wallets[Of(recipient)], t'.wallets[Of(recipient)]);
    AvailableNow(t, h, Of(recipient));
    FeeNotNegative(pot, repayment.loanRepaid);
  }

  lemma {:induction false} NetFromDisburse(ws: Wallets, recipient: nat, pot: int, net: int, fee: int, draw: nat)
    requires Disburse(ws, recipient, pot, net, fee, draw).Success?
    ensures net > 0 && pot > 0
  {
    hide HasKey, Available, Balance;
  }

  lemma {:induction false} FeeNotNegative(pot: int, repaid: bool)
    ensures pot > 0 ==> FeeOn(pot, repaid) >= 0
  {
  }

  lemma {:induction false} AvailableNow(t: Tables, h: History, id: WalletId)
    requires Inv(World(t, h)) && id in t.wallets
    ensures Available(t.wallets[id]) >= 0 && FreshEntries(t.wallets[id].entries, t.draws)
  {
    hide CollateralInv, PoolInv, LoansInv, Conserved, Available, FreshEntries, Sound;
    assert GoodWallet(t.wallets[id], t.draws);
  }

  lemma {:induction false} FinalizeMoney(t: Tables, h: History, circle: nat, t': Tables, id: WalletId)
    requires Inv(World(t, h)) && circle in t.circles && Finalize(t, circle) == Success(t') && id in t.wallets
    ensures id in t'.wallets && Balance(t'.wallets[id]) == Balance(t.wallets[id])
    ensures Available(t'.wallets[id]) >= Available(t.wallets[id])
  {
    hide Balance, Available, ReleasedWallet, Inv;
    if id.Of? && Due(t, circle, id.user) {
      ReleaseSucceeds(t, h, circle, id.user);
    }
  }

  /** A payout leaves the net in the recipient's wallet, even when it also completes the circle. */
  lemma {:induction false} PayoutMoney(t: Tables, h: History, circle: nat, cycle: int, recipient: nat, t': Tables)
    requires Inv(World(t, h)) && ProcessPayout(t, circle, cycle) == Success(t')
    requires recipient == t.schedules[(circle, cycle)].recipient.value
    ensures Inv(World(t', h)) && Pool in t.wallets && Of(recipient) in t.wallets && t'.wallets.Keys == t.wallets.Keys
    ensures |t'.payouts| == |t.payouts| + 1 && (circle, cycle) in t'.schedules
    ensures var net := t'.payouts[|t.payouts|].amount;
      && t'.payouts == t.payouts + [PayoutRow(circle, cycle, recipient, net, PayoutStatus.Completed)]
      && Balance(t'.wallets[Pool]) == Balance(t.wallets[Pool]) + (FloatSum(t'.loans) - FloatSum(t.loans)) - net
      && Balance(t'.wallets[Of(recipient)]) == Balance(t.wallets[Of(recipient)]) + net
      && Available(t'.wallets[Of(recipient)]) >= net
      && net > 0
      && var pot := Pot(t.contributions, circle, cycle);
      && var repayment := Repay(t.loans, recipient, circle, pot);
      && net == repayment.netPayout - FeeOn(pot, repayment.loanRepaid)
      && t'.loans == repayment.loans
  {
    hide Balance, Available, Finalize, Inv, Disburse, HasPayout, HasLivePayout, Repay, Pot;
    PayoutKeeps(t, h, circle, cycle, t');
    var paid := PaidOut(t, circle, cycle, recipient).value;
    PaidOutMoney(t, h, circle, cycle, recipient, paid);
    PaidOutKeeps(t, h, circle, cycle, recipient, paid);
    PaidOutCircles(t, circle, cycle, recipient, paid);
    if cycle == t.circles[circle].durationCycles {
      FinalizeMoney(paid, h, circle, t', Pool);
      FinalizeMoney(paid, h, circle, t', Of(recipient));
      FinalizeFrame(paid, circle, t');
    }
  }

  /** Where a pot goes. Normally the recipient gets it less 2%, which stays in the pool. When it covers what the
      recipient owes on a loan against this circle, the loan and its fee come off instead, the pool keeps
      nothing, and that loan is the one marked repaid. */
  lemma {:induction false} PotGoes(t: Tables, h: History, circle: nat, cycle: int, recipient: nat, t': Tables)
    requires Inv(World(t, h)) && ProcessPayout(t, circle, cycle) == Success(t')
    requires recipient == t.schedules[(circle, cycle)].recipient.value
    ensures Pool in t.wallets && Pool in t'.wallets && Of(recipient) in t.wallets && Of(recipient) in t'.wallets
    ensures |t'.payouts| == |t.payouts| + 1 && t'.payouts[|t.payouts|].recipient == recipient
    ensures var pot := Pot(t.contributions, circle, cycle);
      var k := FindOwed(t.loans, recipient, circle);
      var repaid := k < |t.loans| && t.loans[k].loanAmount + t.loans[k].companyFee < pot;
      var net := if repaid then pot - t.loans[k].loanAmount - t.loans[k].companyFee else pot - pot * 2 / 100;
      && t'.payouts[|t.payouts|].amount == net
      && Balance(t'.wallets[Of(recipient)]) == Balance(t.wallets[Of(recipient)]) + net
      && Balance(t'.wallets[Pool]) == Balance(t.wallets[Pool]) - (if repaid then pot else pot - pot * 2 / 100)
      && t'.loans == (if repaid then t.loans[k := t.loans[k].(status := LoanStatus.Repaid)] else t.loans)
  {
    hide Inv, ProcessPayout, Pot, Balance, Available, FloatSum;
    PayoutMoney(t, h, circle, cycle, recipient, t');
    RepayBalances(t.loans, recipient, circle, Pot(t.contributions, circle, cycle));
  }

  /** The rows a payout writes: its own, COMPLETED, for the recipient and the net; the cycle's schedule becomes
      COMPLETED; the last cycle's payout completes the circle. Contributions, invites and other rows stay, and before
      the last cycle the memberships and circles do too. */
  lemma {:induction false} PayoutWrites(t: Tables, h: History, circle: nat, cycle: int, recipient: nat, t': Tables)
    requires Inv(World(t, h)) && ProcessPayout(t, circle, cycle) == Success(t')
    requires recipient == t.schedules[(circle, cycle)].recipient.value
    ensures |t'.payouts| == |t.payouts| + 1 && circle in t.circles && (circle, cycle) in t.schedules
    ensures t'.payouts ==
      t.payouts + [PayoutRow(circle, cycle, recipient, t'.payouts[|t.payouts|].amount, PayoutStatus.Completed)]
    ensures t'.schedules ==
      t.schedules[(circle, cycle) := t.schedules[(circle, cycle)].(status := ScheduleStatus.Completed)]
    ensures t'.contributions == t.contributions && t'.invites == t.invites
    ensures cycle != t.circles[circle].durationCycles ==> t'.circles == t.circles && t'.members == t.members
    ensures cycle == t.circles[circle].durationCycles ==>
      t'.circles == t.circles[circle := t.circles[circle].(status := CircleStatus.Completed)]
  {
    hide Inv, Pot, Balance, Available, FloatSum, HasPayout, HasLivePayout, Disburse, Repay, Finalize;
    PayoutMoney(t, h, circle, cycle, recipient, t');
    var paid := PaidOut(t, circle, cycle, recipient).value;
    if cycle == t.circles[circle].durationCycles {
      FinalizeFrame(paid, circle, t');
    }
  }

  lemma {:induction false} FinalizeFrame(t: Tables, circle: nat, t': Tables)
    requires circle in t.circles && Finalize(t, circle) == Success(t')
    ensures t' == t.(wallets := t'.wallets, members := t'.members, circles := t'.circles, draws := t.draws + 1)
    ensures t'.wallets.Keys == t.wallets.Keys
    ensures t'.circles == t.circles[circle := t.circles[circle].(status := CircleStatus.Completed)]
  {
    hide ReleasedWallet, Due;
  }

  lemma {:induction false} ReversalSucceeds(t: Tables, h: History, payout: nat, recipient: nat, amount: int,
      schedule: (nat, int))
    requires Inv(World(t, h)) && payout < |t.payouts| && !t.payouts[payout].status.Failed?
    requires Of(recipient) in t.wallets && 0 < amount <= Available(t.wallets[Of(recipient)]) && schedule in t.schedules
    ensures ReversePayout(t, payout, recipient, amount, schedule).Success?
  {
    hide Inv, Available, Balance, HasKey, Pay, FreshEntries;
    PoolExists(t, h);
    AvailableNow(t, h, Of(recipient));
    AvailableNow(t, h, Pool);
    var p1 := Transfer(Debit, Some(Main), amount, RevDebit, SourceType.Reversal, t.draws);
    var p2 := Transfer(Credit, Some(Main), amount, RevCred, SourceType.Reversal, t.draws);
    NewKey(t.wallets[Of(recipient)], t.draws, p1.ref, p1.source, p1.sourceId);
    NewKey(t.wallets[Pool], t.draws, p2.ref, p2.source, p2.sourceId);
    PaySucceeds(t.wallets, Of(recipient), p1);
    PaySucceeds(Pay(t.wallets, Of(recipient), p1).value, Pool, p2);
  }

  /** Taking a payout straight back by its net amount always works and gives the recipient's balance
      back. The pool's balance is restored exactly when the payout repaid no loan: a loan it repaid is
      not reopened, and its repayment has left the pool. */
  lemma {:induction false} PayoutThenReversal(t: Tables, h: History, circle: nat, cycle: int, t': Tables)
    requires Inv(World(t, h)) && ProcessPayout(t, circle, cycle) == Success(t')
    ensures |t'.payouts| == |t.payouts| + 1
    ensures var row := t'.payouts[|t.payouts|];
      var r := ReversePayout(t', |t.payouts|, row.recipient, row.amount, (circle, cycle));
      && r.Success?
      && Pool in t.wallets && Of(row.recipient) in t.wallets && r.value.wallets.Keys == t.wallets.Keys
      && r.value.loans == t'.loans
      && Balance(r.value.wallets[Of(row.recipient)]) == Balance(t.wallets[Of(row.recipient)])
      && Balance(r.value.wallets[Pool]) == Balance(t.wallets[Pool]) + (FloatSum(t'.loans) - FloatSum(t.loans))
      && (Balance(r.value.wallets[Pool]) == Balance(t.wallets[Pool]) <==> t'.loans == t.loans)
  {
    hide Balance, Available, Inv, Pay, ProcessPayout, Repay, Pot;
    var recipient := RecipientOf(t, circle, cycle, t');
    PayoutMoney(t, h, circle, cycle, recipient, t');
    var row := t'.payouts[|t.payouts|];
    ReversalSucceeds(t', h, |t.payouts|, recipient, row.amount, (circle, cycle));
    ReversalMoney(t', h, |t.payouts|, recipient, row.amount, (circle, cycle));
    RepaymentShrinks(t, h, recipient, circle, Pot(t.contributions, circle, cycle));
  }

  ghost function RecipientOf(t: Tables, circle: nat, cycle: int, t': Tables): (recipient: nat)
    requires ProcessPayout(t, circle, cycle) == Success(t')
    ensures (circle, cycle) in t.schedules && t.schedules[(circle, cycle)].recipient == Some(recipient)
  {
    t.schedules[(circle, cycle)].recipient.value
  }

  lemma {:induction false} ReversalMoney(t: Tables, h: History, payout: nat, recipient: nat, amount: int,
      schedule: (nat, int))
    requires Inv(World(t, h)) && ReversePayout(t, payout, recipient, amount, schedule).Success?
    ensures var t' := ReversePayout(t, payout, recipient, amount, schedule).value;
      && t'.wallets.Keys == t.wallets.Keys && Pool in t.wallets && Of(recipient) in t.wallets
      && t'.loans == t.loans
      && Balance(t'.wallets[Pool]) == Balance(t.wallets[Pool]) + amount
      && Balance(t'.wallets[Of(recipient)]) == Balance(t.wallets[Of(recipient)]) - amount
  {
    hide Balance, WalletsInv, CollateralInv, PoolInv, LoansInv, Conserved, Pay;
    var ws1 := Pay(t.wallets, Of(recipient),
      Transfer(Debit, Some(Main), amount, RevDebit, SourceType.Reversal, t.draws)).value;
    ReverseWrites(t.wallets, t.draws, recipient, amount, ws1,
      ReversePayout(t, payout, recipient, amount, schedule).value.wallets);
  }

  lemma {:induction false} RepaymentShrinks(t: Tables, h: History, user: nat, circle: nat, pot: int)
    requires Inv(World(t, h))
    ensures var r := Repay(t.loans, user, circle, pot);
      FloatSum(r.loans) == FloatSum(t.loans) <==> r.loans == t.loans
  {
    hide WalletsInv, CollateralInv, PoolInv, Conserved, FloatSum;
    RepayBalances(t.loans, user, circle, pot);
    var k := FindOwed(t.loans, user, circle);
    assert k < |t.loans| ==> FairTerms(t.loans[k]);
  }
}
