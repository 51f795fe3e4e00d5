/** Payouts out of the pool, their reversal, and the release of collateral when a circle completes. */
module Payouts {
  import opened Wrappers
  import opened Ledger
  import opened Tables
  import opened Contributions
  import opened Loans

  // ----- The pot ----------------------------------------------------------------------------------

  function Paid(row: ContributionRow): int {
    row.amount + row.penalty
  }

  /** Everything contributed to one cycle, penalties included. */
  function Pot(rows: seq<ContributionRow>, circle: nat, cycle: int): int {
    if |rows| == 0 then 0
    else
      var row := rows[|rows| - 1];
      Pot(rows[..|rows| - 1], circle, cycle) + if ForCycle(row, circle, cycle) then Paid(row) else 0
  }

  method SumPot(rows: seq<ContributionRow>, circle: nat, cycle: int) returns (sum: int)
    ensures sum == Pot(rows, circle, cycle)
  {
    sum := 0;
    for i := 0 to |rows|
      invariant sum == Pot(rows[..i], circle, cycle)
    {
      assert rows[..i + 1][..i] == rows[..i];
      if ForCycle(rows[i], circle, cycle) {
        sum := sum + rows[i].amount + rows[i].penalty;
      }
    }
    assert rows[..|rows|] == rows;
  }

  // ----- Completing a circle ----------------------------------------------------------------------

  function ReleaseParams(m: MembershipRow, draw: nat): Params {
    Params(Release, Some(Rosca), m.collateral, Drawn(CollRel, draw), CollateralRelease, m.id)
  }

  /** The memberships the completion query selects, less those whose user has no wallet. */
  predicate Due(t: Tables, circle: nat, user: nat) {
    (circle, user) in t.members && !t.members[(circle, user)].released && Of(user) in t.wallets
  }

  ghost function ReleasedWallet(t: Tables, circle: nat, user: nat): Result<Wallet, LedgerError>
    requires Due(t, circle, user)
  {
    Write(t.wallets[Of(user)], ReleaseParams(t.members[(circle, user)], t.draws))
  }

  /** Every due membership is released at once; a membership touches only its own user's wallet. */
  ghost function ReleaseAll(t: Tables, circle: nat): Wallets
    requires forall u: nat :: Due(t, circle, u) ==> ReleasedWallet(t, circle, u).Success?
  {
    map w | w in t.wallets ::
      if w.Of? && Due(t, circle, w.user) then ReleasedWallet(t, circle, w.user).value else t.wallets[w]
  }

  function Close(m: MembershipRow): MembershipRow {
    m.(released := true, status := MembershipStatus.Completed)
  }

  function CloseAll(t: Tables, circle: nat): map<(nat, nat), MembershipRow> {
    map k | k in t.members :: if k.0 == circle && Due(t, circle, k.1) then Close(t.members[k]) else t.members[k]
  }

  ghost function Finalize(t: Tables, circle: nat): Result<Tables, Error>
    requires circle in t.circles
  {
    if exists u: nat :: Due(t, circle, u) && ReleasedWallet(t, circle, u).Failure? then Failure(ReleaseFailed)
    else
      Success(t.(wallets := ReleaseAll(t, circle), members := CloseAll(t, circle), draws := t.draws + 1,
                 circles := t.circles[circle := t.circles[circle].(status := CircleStatus.Completed)]))
  }

  // ----- processPayout ----------------------------------------------------------------------------

  predicate IsFor(p: PayoutRow, circle: nat, cycle: int) {
    p.circle == circle && p.cycle == cycle
  }

  predicate Live(p: PayoutRow) {
    p.status.Completed? || p.status.Processing?
  }

  predicate HasLivePayout(payouts: seq<PayoutRow>, circle: nat, cycle: int) {
    exists i :: 0 <= i < |payouts| && IsFor(payouts[i], circle, cycle) && Live(payouts[i])
  }

  /** The unique index on the payout table's schedule column looks at failed payouts too. */
  predicate HasPayout(payouts: seq<PayoutRow>, circle: nat, cycle: int) {
    exists i :: 0 <= i < |payouts| && IsFor(payouts[i], circle, cycle)
  }

  function FeeOn(pot: int, loanRepaid: bool): int {
    if loanRepaid then 0 else pot * 2 / 100
  }

  /** The pool pays the whole pot out, the recipient gets the net, and the fee comes back. */
  ghost function Disburse(ws: Wallets, recipient: nat, pot: int, net: int, fee: int,
      draw: nat): Result<Wallets, Error> {
    var ws1 :- Pay(ws, Pool, Transfer(Debit, Some(Main), pot, PoolDebit, SourceType.RoscaCircle, draw));
    var ws2 :- Pay(ws1, Of(recipient), Transfer(Credit, Some(Main), net, PayoutRef, SourceType.RoscaCircle, draw));
    if fee > 0 then Pay(ws2, Pool, Transfer(Credit, Some(Main), fee, PlatformFeeRef, SourceType.PlatformFee, draw))
    else Success(ws2)
  }

  /** The state after a payout's own writes, before the circle is completed. */
  ghost function PaidOut(t: Tables, circle: nat, cycle: int, recipient: nat): Result<Tables, Error>
    requires (circle, cycle) in t.schedules
  {
    var pot := Pot(t.contributions, circle, cycle);
    var repayment := Repay(t.loans, recipient, circle, pot);
    var fee := FeeOn(pot, repayment.loanRepaid);
    var net := repayment.netPayout - fee;
    var ws :- Disburse(t.wallets, recipient, pot, net, fee, t.draws);
    if HasPayout(t.payouts, circle, cycle) then Failure(UniqueViolation)
    else
      Success(t.(wallets := ws, loans := repayment.loans, draws := t.draws + 1,
                 payouts := t.payouts + [PayoutRow(circle, cycle, recipient, net, PayoutStatus.Completed)],
                 schedules := t.schedules[(circle, cycle) :=
                   t.schedules[(circle, cycle)].(status := ScheduleStatus.Completed)]))
  }

  ghost function ProcessPayout(t: Tables, circle: nat, cycle: int): Result<Tables, Error> {
    if circle !in t.circles then Failure(CircleNotFound)
    else if !t.circles[circle].status.Active? then Failure(CircleNotActive)
    else if (circle, cycle) !in t.schedules then Failure(NoSchedule)
    else if t.schedules[(circle, cycle)].recipient.None? then Failure(NoRecipient)
    else if HasLivePayout(t.payouts, circle, cycle) then Failure(AlreadyPaid)
    else if Pot(t.contributions, circle, cycle) == 0 then Failure(NothingToPay)
    else if Pool !in t.wallets then Failure(PoolNotConfigured)
    else if Of(t.schedules[(circle, cycle)].recipient.value) !in t.wallets then Failure(WalletNotFound)
    else
      var t' :- PaidOut(t, circle, cycle, t.schedules[(circle, cycle)].recipient.value);
      if cycle == t.circles[circle].durationCycles then Finalize(t', circle) else Success(t')
  }

  // ----- reversePayout and retryPayout --------------------------------------------------------------

  /** The amount, recipient and schedule come from the request, not from the payout row. */
  ghost function ReversePayout(t: Tables, payout: nat, recipient: nat, amount: int,
      schedule: (nat, int)): Result<Tables, Error> {
    if payout >= |t.payouts| then Failure(PayoutNotFound)
    else if t.payouts[payout].status.Failed? then Failure(AlreadyFailed)
    else if Pool !in t.wallets then Failure(PoolNotConfigured)
    else if Of(recipient) !in t.wallets then Failure(WalletNotFound)
    else
      var ws1 :- Pay(t.wallets, Of(recipient),
        Transfer(Debit, Some(Main), amount, RevDebit, SourceType.Reversal, t.draws));
      var ws2 :- Pay(ws1, Pool, Transfer(Credit, Some(Main), amount, RevCred, SourceType.Reversal, t.draws));
      if schedule !in t.schedules then Failure(NoSchedule)
      else
        Success(t.(wallets := ws2, draws := t.draws + 1,
                   payouts := t.payouts[payout := t.payouts[payout].(status := PayoutStatus.Failed)],
                   schedules := t.schedules[schedule := t.schedules[schedule].(status := ScheduleStatus.Upcoming)]))
  }

  ghost function RetryPayout(t: Tables, payout: nat): Result<Tables, Error> {
    if payout >= |t.payouts| then Failure(PayoutNotFound)
    else if !t.payouts[payout].status.Failed? then Failure(PayoutNotFailed)
    else ProcessPayout(t, t.payouts[payout].circle, t.payouts[payout].cycle)
  }

  /** A retry is offered only for a payout that failed, whose row still holds its schedule's place
      in the unique index. So no retry ever succeeds, whatever the state. */
  lemma {:induction false} RetryNeverSucceeds(t: Tables, payout: nat)
    ensures RetryPayout(t, payout).Failure?
  {
    if payout < |t.payouts| && t.payouts[payout].status.Failed? {
      assert IsFor(t.payouts[payout], t.payouts[payout].circle, t.payouts[payout].cycle);
      assert HasPayout(t.payouts, t.payouts[payout].circle, t.payouts[payout].cycle);
    }
  }

  // ----- The transactions ---------------------------------------------------------------------------

  method DisburseTx(db: Database, recipient: nat, pot: int, net: int, fee: int) returns (r: Result<(), Error>)
    modifies db.ledger
    ensures match Disburse(old(db.ledger.wallets), recipient, pot, net, fee, db.draws)
      case Failure(e) => r == Failure(e) && db.ledger.wallets == old(db.ledger.wallets)
      case Success(ws) => r.Success? && db.ledger.wallets == ws
  {
    hide Pay;
    var saved := db.ledger.wallets;
    var w := db.WriteEntry(Pool, Transfer(Debit, Some(Main), pot, PoolDebit, SourceType.RoscaCircle, db.draws));
    if w.Success? {
      w := db.WriteEntry(Of(recipient), Transfer(Credit, Some(Main), net, PayoutRef, SourceType.RoscaCircle, db.draws));
    }
    if w.Success? && fee > 0 {
      w := db.WriteEntry(Pool, Transfer(Credit, Some(Main), fee, PlatformFeeRef, SourceType.PlatformFee, db.draws));
    }
    if w.Failure? {
      db.ledger.wallets := saved;
      return Failure(w.error);
    }
    return Success(());
  }

  /** processLoanRepaymentInTx: the loan row is marked in place. */
  method RepayTx(db: Database, user: nat, circle: nat, totalPot: int) returns (netPayout: int, loanRepaid: bool)
    modifies db
    ensures db.Snapshot() == old(db.Snapshot()).(loans := Repay(old(db.loans), user, circle, totalPot).loans)
    ensures netPayout == Repay(old(db.loans), user, circle, totalPot).netPayout
    ensures loanRepaid == Repay(old(db.loans), user, circle, totalPot).loanRepaid
  {
    var k := FindOwed(db.loans, user, circle);
    if k == |db.loans| {
      return totalPot, false;
    }
    var totalDeduction := db.loans[k].loanAmount + db.loans[k].companyFee;
    if totalDeduction >= totalPot {
      return totalPot, false;
    }
    db.loans := db.loans[k := db.loans[k].(status := LoanStatus.Repaid)];
    return totalPot - totalDeduction, true;
  }

  /** The wallet w once everybody outside todo is released. */
  ghost function WalletThen(t: Tables, circle: nat, todo: set<nat>, w: WalletId): Wallet
    requires w in t.wallets
    requires forall u: nat :: Due(t, circle, u) && u !in todo ==> ReleasedWallet(t, circle, u).Success?
  {
    if w.Of? && w.user !in todo && Due(t, circle, w.user) then ReleasedWallet(t, circle, w.user).value
    else t.wallets[w]
  }

  ghost function MemberThen(t: Tables, circle: nat, todo: set<nat>, k: (nat, nat)): MembershipRow
    requires k in t.members
  {
    if k.0 == circle && k.1 !in todo && Due(t, circle, k.1) then Close(t.members[k]) else t.members[k]
  }

  /** Halfway through the loop: the memberships of todo are still as they were, the rest are closed. */
  ghost predicate ReleasedExcept(t: Tables, ws: Wallets, ms: map<(nat, nat), MembershipRow>, circle: nat,
      todo: set<nat>) {
    && ws.Keys == t.wallets.Keys
    && ms.Keys == t.members.Keys
    && (forall u: nat :: Due(t, circle, u) && u !in todo ==> ReleasedWallet(t, circle, u).Success?)
    && (forall w :: w in t.wallets ==> ws[w] == WalletThen(t, circle, todo, w))
    && (forall k :: k in t.members ==> ms[k] == MemberThen(t, circle, todo, k))
  }

  lemma {:induction false} ReleaseStep(t: Tables, ws: Wallets, ms: map<(nat, nat), MembershipRow>, circle: nat,
                                       todo: set<nat>, user: nat)
    requires user in todo && Due(t, circle, user)
    requires ReleasedExcept(t, ws, ms, circle, todo)
    ensures ws[Of(user)] == t.wallets[Of(user)] && ms[(circle, user)] == t.members[(circle, user)]
    ensures ReleasedWallet(t, circle, user).Success? ==>
      ReleasedExcept(t, ws[Of(user) := ReleasedWallet(t, circle, user).value],
                     ms[(circle, user) := Close(ms[(circle, user)])], circle, todo - {user})
  {
    hide ReleasedWallet;
  }

  lemma {:induction false} ReleaseSkip(t: Tables, ws: Wallets, ms: map<(nat, nat), MembershipRow>, circle: nat,
                                       todo: set<nat>, user: nat)
    requires !Due(t, circle, user)
    requires ReleasedExcept(t, ws, ms, circle, todo)
    ensures ReleasedExcept(t, ws, ms, circle, todo - {user})
  {
    hide ReleasedWallet;
  }

  lemma {:induction false} ReleaseDone(t: Tables, ws: Wallets, ms: map<(nat, nat), MembershipRow>, circle: nat)
    requires ReleasedExcept(t, ws, ms, circle, {})
    ensures ws == ReleaseAll(t, circle) && ms == CloseAll(t, circle)
  {
    hide ReleasedWallet;
  }

  /** One turn of the loop. A user without a wallet is passed over. */
  method ReleaseMember(db: Database, ghost t: Tables, circle: nat, ghost todo: set<nat>, user: nat)
    returns (r: Result<(), Error>)
    requires user in todo && (circle, user) in t.members && !t.members[(circle, user)].released
    requires ReleasedExcept(t, db.ledger.wallets, db.members, circle, todo)
    requires db.Snapshot() == t.(wallets := db.ledger.wallets, members := db.members)
    modifies db`members, db.ledger
    ensures r.Failure? ==> Due(t, circle, user) && ReleasedWallet(t, circle, user).Failure?
    ensures r.Success? ==> ReleasedExcept(t, db.ledger.wallets, db.members, circle, todo - {user})
  {
    if Of(user) !in db.ledger.wallets {
      ReleaseSkip(t, db.ledger.wallets, db.members, circle, todo, user);
      return Success(());
    }
    ReleaseStep(t, db.ledger.wallets, db.members, circle, todo, user);
    hide ReleasedExcept, Write;
    var member := db.members[(circle, user)];
    var _ :- db.WriteEntry(Of(user), ReleaseParams(member, db.draws));
    db.members := db.members[(circle, user) := member.(released := true, status := MembershipStatus.Completed)];
    return Success(());
  }

  lemma {:induction false} DueSelected(t: Tables, circle: nat, selected: set<nat>)
    requires selected == set k | k in t.members && k.0 == circle && !t.members[k].released :: k.1
    ensures forall u: nat :: Due(t, circle, u) ==> u in selected
    ensures forall u :: u in selected ==> (circle, u) in t.members && !t.members[(circle, u)].released
  {
    forall u: nat | Due(t, circle, u) ensures u in selected {
      assert (circle, u) in t.members;
    }
  }

  /** The loop over the memberships the query selects. */
  method ReleaseMembers(db: Database, circle: nat) returns (r: Result<(), Error>)
    modifies db`members, db.ledger
    ensures r.Failure? ==>
      exists u: nat :: Due(old(db.Snapshot()), circle, u) && ReleasedWallet(old(db.Snapshot()), circle, u).Failure?
    ensures r.Success? ==> ReleasedExcept(old(db.Snapshot()), db.ledger.wallets, db.members, circle, {})
  {
    ghost var t := db.Snapshot();
    var memberships := set k | k in db.members && k.0 == circle && !db.members[k].released :: k.1;
    DueSelected(t, circle, memberships);
    var rest := memberships;
    ReleaseStart(t, circle, rest);
    hide ReleasedExcept, ReleasedWallet, Due, ReleaseAll, CloseAll;
    while rest != {}
      invariant rest <= memberships
      invariant ReleasedExcept(t, db.ledger.wallets, db.members, circle, rest)
      invariant db.Snapshot() == t.(wallets := db.ledger.wallets, members := db.members)
      decreases |rest|
    {
      var user :| user in rest;
      r := ReleaseMember(db, t, circle, rest, user);
      if r.Failure? {
        return;
      }
      rest := rest - {user};
    }
    return Success(());
  }

  method FinalizeTx(db: Database, circle: nat) returns (r: Result<(), Error>)
    requires circle in db.circles
    modifies db, db.ledger
    ensures match Finalize(old(db.Snapshot()), circle)
      case Failure(e) => r.Failure?
      case Success(t) => r.Success? && db.Snapshot() == t
  {
    hide ReleasedExcept, ReleasedWallet, Due, ReleaseAll, CloseAll;
    ghost var t := db.Snapshot();
    r := ReleaseMembers(db, circle);
    if r.Failure? {
      return;
    }
    ReleaseDone(t, db.ledger.wallets, db.members, circle);
    ReleasedNobodyLeft(t, db.ledger.wallets, db.members, circle);
    db.circles := db.circles[circle := db.circles[circle].(status := CircleStatus.Completed)];
    db.draws := db.draws + 1;
    return Success(());
  }

  lemma {:induction false} ReleaseStart(t: Tables, circle: nat, todo: set<nat>)
    requires forall u: nat :: Due(t, circle, u) ==> u in todo
    ensures ReleasedExcept(t, t.wallets, t.members, circle, todo)
  {
    hide ReleasedWallet;
  }

  lemma {:induction false} ReleasedNobodyLeft(t: Tables, ws: Wallets, ms: map<(nat, nat), MembershipRow>, circle: nat)
    requires ReleasedExcept(t, ws, ms, circle, {})
    ensures forall u: nat :: Due(t, circle, u) ==> ReleasedWallet(t, circle, u).Success?
  {
  }

  method ProcessPayoutTx(db: Database, circle: nat, cycle: int) returns (r: Result<(), Error>)
    modifies db, db.ledger
    ensures match ProcessPayout(old(db.Snapshot()), circle, cycle)
      case Failure(e) => r.Failure? && db.Snapshot() == old(db.Snapshot())
      case Success(t) => r.Success? && db.Snapshot() == t
  {
    hide Finalize, Disburse, Repay, HasPayout, HasLivePayout;
    if circle !in db.circles {
      return Failure(CircleNotFound);
    }
    var c := db.circles[circle];
    if !c.status.Active? {
      return Failure(CircleNotActive);
    }
    if (circle, cycle) !in db.schedules {
      return Failure(NoSchedule);
    }
    var schedule := db.schedules[(circle, cycle)];
    if schedule.recipient.None? {
      return Failure(NoRecipient);
    }
    if HasLivePayout(db.payouts, circle, cycle) {
      return Failure(AlreadyPaid);
    }
    var totalPot := SumPot(db.contributions, circle, cycle);
    if totalPot == 0 {
      return Failure(NothingToPay);
    }
    if Pool !in db.ledger.wallets {
      return Failure(PoolNotConfigured);
    }
    var recipient := schedule.recipient.value;
    if Of(recipient) !in db.ledger.wallets {
      return Failure(WalletNotFound);
    }

    var saved := db.Snapshot();
    var postLoanPayout, loanRepaid := RepayTx(db, recipient, circle, totalPot);
    var platformFee := if loanRepaid then 0 else totalPot * 2 / 100;
    var netPayout := postLoanPayout - platformFee;
    var w := DisburseTx(db, recipient, totalPot, netPayout, platformFee);
    if w.Success? && HasPayout(db.payouts, circle, cycle) {
      w := Failure(UniqueViolation);
    }
    if w.Success? {
      db.payouts := db.payouts + [PayoutRow(circle, cycle, recipient, netPayout, PayoutStatus.Completed)];
      db.schedules := db.schedules[(circle, cycle) := schedule.(status := ScheduleStatus.Completed)];
      db.draws := db.draws + 1;
      assert PaidOut(saved, circle, cycle, recipient) == Success(db.Snapshot());
      if cycle == c.durationCycles {
        w := FinalizeTx(db, circle);
      }
    }
    if w.Failure? {
      db.Restore(saved);
    }
    return w;
  }

  method ReversePayoutTx(db: Database, payout: nat, recipient: nat, amount: int,
      schedule: (nat, int)) returns (r: Result<(), Error>)
    modifies db, db.ledger
    ensures match ReversePayout(old(db.Snapshot()), payout, recipient, amount, schedule)
      case Failure(e) => r == Failure(e) && db.Snapshot() == old(db.Snapshot())
      case Success(t) => r.Success? && db.Snapshot() == t
  {
    hide Pay;
    if payout >= |db.payouts| {
      return Failure(PayoutNotFound);
    }
    if db.payouts[payout].status.Failed? {
      return Failure(AlreadyFailed);
    }
    if Pool !in db.ledger.wallets {
      return Failure(PoolNotConfigured);
    }
    if Of(recipient) !in db.ledger.wallets {
      return Failure(WalletNotFound);
    }
    var saved := db.Snapshot();
    var w := db.WriteEntry(Of(recipient), Transfer(Debit, Some(Main), amount, RevDebit, SourceType.Reversal, db.draws));
    if w.Success? {
      w := db.WriteEntry(Pool, Transfer(Credit, Some(Main), amount, RevCred, SourceType.Reversal, db.draws));
    }
    if w.Success? && schedule !in db.schedules {
      w := Failure(NoSchedule);
    }
    if w.Failure? {
      db.Restore(saved);
      return Failure(w.error);
    }
    db.payouts := db.payouts[payout := db.payouts[payout].(status := PayoutStatus.Failed)];
    db.schedules := db.schedules[schedule := db.schedules[schedule].(status := ScheduleStatus.Upcoming)];
    db.draws := db.draws + 1;
    return Success(());
  }
}
