/** What a run is remembered for beyond its tables: on how many slots each loan was sized, and where every kobo
    in the pool came from. */
module Books {
  import opened Wrappers
  import opened Ledger
  import opened Tables
  import opened Memberships
  import opened Contributions
  import opened Loans
  import opened Payouts
  import opened Circles
  import opened Platform
  import opened Preservation
  import opened Runs
  import opened Guarantees
  import opened Frames
  import opened Records
  import opened Outcomes
  import opened Theorems
  import A = Audit
  import Credit

  datatype Grant = Grant(slots: int, score: int)

  /** The platform's fees, the money paid in for cycles already paid out, and the money reversals brought back. */
  datatype Accounts = Accounts(grants: seq<Grant>, fees: int, stranded: int, returned: int)

  const NO_ACCOUNTS: Accounts := Accounts([], 0, 0, 0)

  ghost function Booked(t: Tables, b: Accounts, step: Step): Accounts
    requires Accepted(t, step)
  {
    match step
    case Borrow(_, circle, score, seen) => b.(grants := b.grants + [Grant(seen.circles[circle].filledSlots, score)])
    case Contribute(now, _, circle, cycle) =>
      if HasPayout(t.payouts, circle, cycle) then b.(stranded := b.stranded + DueNow(t, now, circle, cycle)) else b
    case Payout(circle, cycle) =>
      var pot := Pot(t.contributions, circle, cycle);
      var repayment := Repay(t.loans, t.schedules[(circle, cycle)].recipient.value, circle, pot);
      b.(fees := b.fees + FeeOn(pot, repayment.loanRepaid))
    case Reverse(_, _, amount, _) => b.(returned := b.returned + amount)
    case _ => b
  }

  ghost function Keep(w: World, b: Accounts, step: Step): Accounts {
    if Accepted(w.tables, step) then Booked(w.tables, b, step) else b
  }

  ghost function Audited(w: World, b: Accounts, steps: seq<Step>): Accounts
    decreases |steps|
  {
    if |steps| == 0 then b else Audited(Platform.Apply(w, steps[0]), Keep(w, b, steps[0]), steps[1..])
  }

  // ----- Loans ---------------------------------------------------------------------------------------------------

  /** The loan was sized on so many slots at the amount its circle still has. */
  predicate SizedOn(t: Tables, loan: LoanRow, g: Grant) {
    && Started(t.circles, loan.circle) && Credit.AllowedPercent(g.score).Some?
    && loan == Terms(loan.user, loan.circle, t.circles[loan.circle].amount * g.slots,
         Credit.AllowedPercent(g.score).value)
         .(status := loan.status)
  }

  ghost predicate GoodGrants(t: Tables, grants: seq<Grant>) {
    |grants| == |t.loans| && forall i :: 0 <= i < |t.loans| ==> SizedOn(t, t.loans[i], grants[i])
  }

  lemma {:induction false} SizeStays(t: Tables, step: Step, t': Tables, loan: LoanRow, status: LoanStatus, g: Grant)
    requires CirclesMove(t, step, t') && SizedOn(t, loan, g)
    ensures SizedOn(t', loan.(status := status), g)
  {
    StaysStarted(t, step, t', loan.circle);
  }

  lemma {:induction false} OldLoans(t: Tables, step: Step, t': Tables, i: nat)
    requires RowsMove(t, step, t') && i < |t.loans|
    ensures i < |t'.loans| && t'.loans[i] == t.loans[i].(status := t'.loans[i].status)
    ensures !step.Borrow? ==> |t'.loans| == |t.loans|
  {
    hide FreshRow, SamePayouts, HasPayout, Pot;
  }

  lemma {:induction false} NewLoan(t: Tables, seen: Tables, user: nat, circle: nat, score: int, t': Tables)
    requires ApplyLoan(t, seen, user, circle, score) == Success(t') && Earlier(seen, t, circle, user)
    ensures |t'.loans| == |t.loans| + 1 && t'.circles == t.circles && circle in seen.circles
    ensures SizedOn(t', t'.loans[|t.loans|], Grant(seen.circles[circle].filledSlots, score))
  {
    hide Pay, HasActive, HasTaken;
  }

  lemma {:induction false} LoanCount(t: Tables, step: Step, t': Tables)
    requires RowsMove(t, step, t')
    ensures |t'.loans| == |t.loans| + if step.Borrow? then 1 else 0
  {
    hide FreshRow, SamePayouts, HasPayout, Pot;
  }

  lemma {:induction false} GrantsBooked(t: Tables, b: Accounts, step: Step)
    requires Accepted(t, step)
    ensures step.Borrow? ==> step.circle in step.seen.circles
    ensures Booked(t, b, step).grants ==
      b.grants + if step.Borrow? then [Grant(step.seen.circles[step.circle].filledSlots, step.score)] else []
  {
    hide Enabled, MakeContribution, ReversePayout, ProcessPayout, Pot, Repay, HasPayout, Pay, HasActive, HasTaken;
  }

  lemma {:induction false} GrantsStay(t: Tables, b: Accounts, step: Step, t': Tables)
    requires GoodGrants(t, b.grants) && Does(t, step, t')
    ensures GoodGrants(t', Booked(t, b, step).grants)
  {
    hide Enabled, SchedulesMove, MembersMove, CirclesMove, RowsMove, SizedOn, Platform.Attempt, Booked;
    StepFrame(t, step, t');
    StepRows(t, step, t');
    LoanCount(t, step, t');
    GrantsBooked(t, b, step);
    forall i | 0 <= i < |t'.loans| ensures SizedOn(t', t'.loans[i], Booked(t, b, step).grants[i]) {
      if i < |t.loans| {
        OldLoans(t, step, t', i);
        SizeStays(t, step, t', t.loans[i], t'.loans[i].status, b.grants[i]);
      } else {
        LastGrant(t, step, t');
      }
    }
  }

  lemma {:induction false} LastGrant(t: Tables, step: Step, t': Tables)
    requires step.Borrow? && Does(t, step, t')
    ensures |t'.loans| == |t.loans| + 1 && step.circle in step.seen.circles
    ensures SizedOn(t', t'.loans[|t.loans|], Grant(step.seen.circles[step.circle].filledSlots, step.score))
  {
    hide ApplyLoan, SizedOn;
    NewLoan(t, step.seen, step.user, step.circle, step.score, t');
  }

  // ----- The pool ------------------------------------------------------------------------------------------------

  /** Every kobo in the pool is owed to an unpaid cycle, a fee, came for a paid cycle, or was brought back. */
  ghost predicate PoolExact(t: Tables, b: Accounts) {
    && Pool in t.wallets
    && Balance(t.wallets[Pool]) == Owed(t.contributions, t.payouts) + b.fees + b.stranded + b.returned
    && b.fees >= 0 && b.stranded >= 0 && b.returned >= 0
  }

  ghost predicate PoolStill(t: Tables, t': Tables) {
    Pool in t.wallets ==> Pool in t'.wallets && t'.wallets[Pool] == t.wallets[Pool]
  }

  lemma {:induction false} MembersPool(t: Tables, step: Step, t': Tables)
    requires ForMembers(step) && Does(t, step, t')
    ensures PoolStill(t, t')
  {
    hide RequestToJoin, JoinByInvite, LeaveCircle, CancelJoinRequest, RejectMember, PoolStill;
    match step
    case Join(now, user, circle) => JoinPool(t, now, user, circle, t');
    case JoinInvited(now, user, token) => InvitePool(t, now, user, token, t');
    case Leave(user, circle) => LeavePool(t, user, circle, t');
    case Cancel(user, circle) => CancelPool(t, user, circle, t');
    case Reject(circle, admin, user) => RejectPool(t, circle, admin, user, t');
    case Approve(circle, admin, user) => ApprovePool(t, circle, admin, user, t');
  }

  lemma {:induction false} JoinPool(t: Tables, now: int, user: nat, circle: nat, t': Tables)
    requires RequestToJoin(t, now, user, circle) == Success(t')
    ensures PoolStill(t, t')
  {
    hide Write, Collateral, NewMember;
  }

  lemma {:induction false} InvitePool(t: Tables, now: int, user: nat, token: nat, t': Tables)
    requires JoinByInvite(t, now, user, token) == Success(t')
    ensures PoolStill(t, t')
  {
    hide Write, Collateral, NewMember;
  }

  lemma {:induction false} RefundPool(t: Tables, user: nat, m: MembershipRow)
    requires Refund(t, user, m).Success? && Pool in t.wallets
    ensures Pool in Refund(t, user, m).value && Refund(t, user, m).value[Pool] == t.wallets[Pool]
  {
    hide Write;
  }

  lemma {:induction false} LeavePool(t: Tables, user: nat, circle: nat, t': Tables)
    requires LeaveCircle(t, user, circle) == Success(t')
    ensures PoolStill(t, t')
  {
    hide Refund;
    if Pool in t.wallets {
      RefundPool(t, user, t.members[(circle, user)]);
    }
  }

  lemma {:induction false} CancelPool(t: Tables, user: nat, circle: nat, t': Tables)
    requires CancelJoinRequest(t, user, circle) == Success(t')
    ensures PoolStill(t, t')
  {
    hide Refund;
    if Pool in t.wallets {
      RefundPool(t, user, t.members[(circle, user)]);
    }
  }

  lemma {:induction false} RejectPool(t: Tables, circle: nat, admin: nat, user: nat, t': Tables)
    requires RejectMember(t, circle, admin, user) == Success(t')
    ensures PoolStill(t, t')
  {
    hide Refund;
    if Pool in t.wallets {
      RefundPool(t, user, t.members[(circle, user)]);
    }
  }

  lemma {:induction false} ApprovePool(t: Tables, circle: nat, admin: nat, user: nat, t': Tables)
    requires ApproveMember(t, circle, admin, user) == Success(t')
    ensures PoolStill(t, t')
  {
  }

  lemma {:induction false} CirclesPool(t: Tables, step: Step, t': Tables)
    requires ForCircles(step) && Does(t, step, t')
    ensures PoolStill(t, t')
  {
    hide Ready, Listing, Positioned, Scheduled, Order, Rows, Assigned, Unrepeated, Placed, Holdings, GoodPositions;
  }

  lemma {:induction false} UsersPool(t: Tables, step: Step, t': Tables)
    requires step.OpenWallet? || step.External? || step.Borrow?
    requires Does(t, step, t')
    ensures PoolStill(t, t')
  {
    hide Write, A.Attempt, HasActive, HasTaken;
  }

  lemma {:induction false} ContributePool(t: Tables, h: History, b: Accounts, step: Step, t': Tables)
    requires Inv(World(t, h)) && PoolExact(t, b) && step.Contribute? && Does(t, step, t')
    ensures PoolExact(t', Booked(t, b, step))
  {
    hide Inv, MakeContribution, Balance, Owed, HasPayout, Paid, FixedTerms, LateFee;
    var now, user, circle, cycle := step.now, step.user, step.circle, step.cycle;
    ContributionMoves(t, h, now, user, circle, cycle, t', Pool);
    PaysSomething(t, h, now, user, circle, cycle);
    OwedAppend(t.contributions, t'.contributions[|t.contributions|], t.payouts);
    PaidIsDue(t, now, circle, cycle, user, t'.contributions[|t.contributions|]);
  }

  lemma {:induction false} PaysSomething(t: Tables, h: History, now: int, user: nat, circle: nat, cycle: int)
    requires Inv(World(t, h)) && MakeContribution(t, now, user, circle, cycle).Success?
    ensures circle in t.circles && (circle, cycle) in t.schedules && DueNow(t, now, circle, cycle) > 0
  {
    hide WalletsInv, PoolInv, LoansInv, Conserved, Collect, HasContributed, GoodMember, GoodBucket, GoodRefund;
    AmountsPositive(t, h);
    LatePenaltyBounds(t.circles[circle].amount, now > t.schedules[(circle, cycle)].deadline);
  }

  lemma {:induction false} PaidIsDue(t: Tables, now: int, circle: nat, cycle: int, user: nat, row: ContributionRow)
    requires circle in t.circles && (circle, cycle) in t.schedules
    requires row.amount == t.circles[circle].amount
    requires row.penalty == LateFee(row.amount, now > t.schedules[(circle, cycle)].deadline)
    ensures Paid(row) == DueNow(t, now, circle, cycle)
  {
    hide LateFee;
  }

  lemma {:induction false} PayoutPool(t: Tables, h: History, b: Accounts, step: Step, t': Tables)
    requires Inv(World(t, h)) && PoolExact(t, b) && step.Payout? && Does(t, step, t')
    ensures PoolExact(t', Booked(t, b, step))
  {
    hide Inv, Balance, Owed, HasPayout, Pot, PaidOut, Finalize, HasLivePayout, FloatSum;
    var circle, cycle := step.circle, step.cycle;
    var recipient := t.schedules[(circle, cycle)].recipient.value;
    PotGoes(t, h, circle, cycle, recipient, t');
    PotCovered(t, h, circle, cycle);
    PayoutLeavesRows(t, step, t');
    OwedAfterPayout(t.contributions, t.payouts, t'.payouts[|t.payouts|]);
  }

  lemma {:induction false} PayoutLeavesRows(t: Tables, step: Step, t': Tables)
    requires step.Payout? && Does(t, step, t')
    ensures |t'.payouts| == |t.payouts| + 1 && t'.contributions == t.contributions
    ensures var row := t'.payouts[|t.payouts|];
      t'.payouts == t.payouts + [row] && row.circle == step.circle && row.cycle == step.cycle
      && !HasPayout(t.payouts, row.circle, row.cycle)
  {
    hide Platform.Attempt, HasPayout, Pot, Repay;
    PayoutRows(t, step, t');
  }

  lemma {:induction false} PotCovered(t: Tables, h: History, circle: nat, cycle: int)
    requires Inv(World(t, h))
    ensures Pot(t.contributions, circle, cycle) >= 0
  {
    hide WalletsInv, CollateralInv, LoansInv, Conserved, Pot, Owed, Balance;
    PotPositive(t.contributions, circle, cycle);
  }

  lemma {:induction false} ReversePool(t: Tables, h: History, b: Accounts, step: Step, t': Tables)
    requires Inv(World(t, h)) && PoolExact(t, b) && step.Reverse? && Does(t, step, t')
    ensures PoolExact(t', Booked(t, b, step))
  {
    hide Inv, Balance, Owed, Pay, Available;
    ReversalMoney(t, h, step.payout, step.recipient, step.amount, step.schedule);
    ReverseExactly(t, h, step.payout, step.recipient, step.amount, step.schedule, 0, 0, (0, 0));
    OwedIgnoresStatus(t.contributions, t.payouts, t'.payouts);
  }

  lemma {:induction false} StillExact(t: Tables, b: Accounts, step: Step, t': Tables)
    requires PoolExact(t, b) && PoolStill(t, t') && Does(t, step, t')
    requires !step.Contribute? && !step.Payout? && !step.Reverse? && !step.Retry?
    ensures PoolExact(t', Booked(t, b, step))
  {
    hide Owed, Balance, Pot, HasPayout, Repay, FreshRow;
    StepRows(t, step, t');
    SameOwed(t, step, t');
    hide Platform.Attempt;
  }

  lemma {:induction false} SameOwed(t: Tables, step: Step, t': Tables)
    requires RowsMove(t, step, t') && !step.Contribute? && !step.Payout?
    ensures Owed(t'.contributions, t'.payouts) == Owed(t.contributions, t.payouts)
  {
    hide Owed, Pot, HasPayout, FreshRow;
    OwedIgnoresStatus(t.contributions, t.payouts, t'.payouts);
  }

  lemma {:induction false} PoolStays(t: Tables, h: History, b: Accounts, step: Step, t': Tables)
    requires Inv(World(t, h)) && PoolExact(t, b) && Does(t, step, t')
    ensures PoolExact(t', Booked(t, b, step))
  {
    hide Inv, Platform.Attempt, Enabled, PoolExact, Booked, PoolStill;
    if step.Contribute? {
      ContributePool(t, h, b, step, t');
    } else if step.Payout? {
      PayoutPool(t, h, b, step, t');
    } else if step.Reverse? {
      ReversePool(t, h, b, step, t');
    } else if step.Retry? {
      RetryRefused(t, step);
    } else {
      if ForMembers(step) {
        MembersPool(t, step, t');
      } else if ForCircles(step) {
        CirclesPool(t, step, t');
      } else {
        UsersPool(t, step, t');
      }
      StillExact(t, b, step, t');
    }
  }

  // ----- Every run -----------------------------------------------------------------------------------------------

  ghost predicate GoodBooks(t: Tables, b: Accounts) {
    GoodGrants(t, b.grants) && PoolExact(t, b)
  }

  lemma {:induction false} RunBooks(w: World, b: Accounts, steps: seq<Step>)
    requires Inv(w) && GoodBooks(w.tables, b)
    ensures GoodBooks(Platform.Run(w, steps).tables, Audited(w, b, steps))
    decreases |steps|
  {
    hide Inv, GoodGrants, PoolExact, Platform.Attempt, Enabled, Booked, Track;
    if |steps| > 0 {
      StepKeeps(w, steps[0]);
      if Accepted(w.tables, steps[0]) {
        var t' := Platform.Attempt(w.tables, steps[0]).value;
        GrantsStay(w.tables, b, steps[0], t');
        PoolStays(w.tables, w.history, b, steps[0], t');
      }
      RunBooks(Platform.Apply(w, steps[0]), Keep(w, b, steps[0]), steps[1..]);
    }
  }

  ghost function BooksOf(past: seq<Step>): Accounts {
    Audited(Genesis(), NO_ACCOUNTS, past)
  }

  lemma {:induction false} ReachedBooks(past: seq<Step>)
    ensures GoodBooks(Reached(past).tables, BooksOf(past))
  {
    hide Inv, Platform.Run, Audited;
    GenesisInv();
    RunBooks(Genesis(), NO_ACCOUNTS, past);
  }

  /** In every run the pool holds exactly the pots of the cycles without a payout, the platform's fees, whatever
      came in for cycles that had been paid out, and whatever reversals brought back. */
  lemma {:induction false} EveryRunPoolExactly(past: seq<Step>)
    ensures var t, b := Reached(past).tables, BooksOf(past);
      && Pool in t.wallets
      && Balance(t.wallets[Pool]) == Owed(t.contributions, t.payouts) + b.fees + b.stranded + b.returned
      && b.fees >= 0 && b.stranded >= 0 && b.returned >= 0
  {
    hide Reached, BooksOf, GoodGrants, Owed, Balance;
    ReachedBooks(past);
  }

  /** Each loan of every run is on the terms of its grant, with expected the amount of its circle on the slots as seen
      when it was granted: the loan is the granted score's share of that, the company's fee a tenth of it, both in
      whole kobo, and the final payout what is left. */
  lemma {:induction false} EveryLoanOnItsTerms(past: seq<Step>, i: nat)
    requires i < |Reached(past).tables.loans|
    ensures var t, grants := Reached(past).tables, BooksOf(past).grants;
      && |grants| == |t.loans| && t.loans[i].circle in t.circles && grants[i].score >= 550
      && var loan, score := t.loans[i], grants[i].score;
      var expected := t.circles[loan.circle].amount * grants[i].slots;
      var percent := if score >= 750 then 50 else if score >= 700 then 45 else if score >= 650 then 40
        else if score >= 600 then 30 else 20;
      && loan.payoutAmount == expected
      && 100 * loan.loanAmount <= expected * percent < 100 * (loan.loanAmount + 1)
      && 10 * loan.companyFee <= expected < 10 * (loan.companyFee + 1)
      && loan.finalPayout == expected - loan.loanAmount - loan.companyFee
  {
    hide Reached, BooksOf, PoolExact, Credit.AllowedPercent, Terms;
    ReachedBooks(past);
    var t := Reached(past).tables;
    var loan, g := t.loans[i], BooksOf(past).grants[i];
    assert SizedOn(t, loan, g);
    Credit.TierTable(g.score);
    var expected := t.circles[loan.circle].amount * g.slots;
    TermsExactly(loan.user, loan.circle, expected, Credit.AllowedPercent(g.score).value,
      loan.(status := LoanStatus.Active));
    TermsStatus(loan, expected, Credit.AllowedPercent(g.score).value);
  }

  lemma {:induction false} TermsStatus(loan: LoanRow, expected: int, percent: int)
    requires loan == Terms(loan.user, loan.circle, expected, percent).(status := loan.status)
    ensures loan.(status := LoanStatus.Active) == Terms(loan.user, loan.circle, expected, percent)
  {
  }

  // ----- What never leaves ---------------------------------------------------------------------------------------

  lemma {:induction false} AuditedConcat(w: World, b: Accounts, before: seq<Step>, after: seq<Step>)
    ensures Audited(w, b, before + after) == Audited(Platform.Run(w, before), Audited(w, b, before), after)
    decreases |before|
  {
    hide Platform.Apply, Keep;
    if |before| == 0 {
      assert before + after == after;
    } else {
      assert (before + after)[0] == before[0] && (before + after)[1..] == before[1..] + after;
      AuditedConcat(Platform.Apply(w, before[0]), Keep(w, b, before[0]), before[1..], after);
    }
  }

  predicate NoLess(b: Accounts, b': Accounts) {
    b'.fees >= b.fees && b'.stranded >= b.stranded && b'.returned >= b.returned
  }

  lemma {:induction false} BooksGrow(t: Tables, h: History, b: Accounts, step: Step)
    requires Inv(World(t, h)) && Accepted(t, step)
    ensures NoLess(b, Booked(t, b, step))
  {
    hide Inv, MakeContribution, ProcessPayout, ReversePayout, ApplyLoan, DueNow, Pot, Repay, HasPayout, Enabled;
    if step.Contribute? {
      PaysSomething(t, h, step.now, step.user, step.circle, step.cycle);
    } else if step.Payout? {
      PotCovered(t, h, step.circle, step.cycle);
    } else if step.Reverse? {
      ReverseExactly(t, h, step.payout, step.recipient, step.amount, step.schedule, 0, 0, (0, 0));
    }
  }

  lemma {:induction false} RunBooksGrow(w: World, b: Accounts, steps: seq<Step>)
    requires Inv(w)
    ensures NoLess(b, Audited(w, b, steps))
    decreases |steps|
  {
    hide Inv, Platform.Attempt, Enabled, Booked, Track;
    if |steps| > 0 {
      StepKeeps(w, steps[0]);
      if Accepted(w.tables, steps[0]) {
        BooksGrow(w.tables, w.history, b, steps[0]);
      }
      RunBooksGrow(Platform.Apply(w, steps[0]), Keep(w, b, steps[0]), steps[1..]);
    }
  }

  /** Nothing but the pots of unpaid cycles ever leaves the pool. Whatever a run has brought in as fees, for cycles
      paid out before, or by reversals is in the pool's balance after every continuation of the run, on top of what
      the pool owes then. */
  lemma {:induction false} StrandedStaysInPool(past: seq<Step>, later: seq<Step>)
    ensures var t, b := Reached(past + later).tables, BooksOf(past);
      && Pool in t.wallets
      && Balance(t.wallets[Pool]) >= Owed(t.contributions, t.payouts) + b.fees + b.stranded + b.returned
  {
    hide Inv, Platform.Run, Audited, Owed, Balance;
    AuditedConcat(Genesis(), NO_ACCOUNTS, past, later);
    RunConcat(Genesis(), past, later);
    ReachedInv(past);
    RunBooksGrow(Reached(past), BooksOf(past), later);
    EveryRunPoolExactly(past + later);
  }

  /** A contribution that goes through for a cycle paid out before goes to that account, every kobo of it. */
  lemma {:induction false} PaidCycleStrands(past: seq<Step>, now: int, user: nat, circle: nat, cycle: int)
    requires MakeContribution(Reached(past).tables, now, user, circle, cycle).Success?
    ensures var t := Reached(past).tables;
      var step := Contribute(now, user, circle, cycle);
      && circle in t.circles && (circle, cycle) in t.schedules
      && BooksOf(past + [step]).stranded ==
           BooksOf(past).stranded + if HasPayout(t.payouts, circle, cycle) then DueNow(t, now, circle, cycle) else 0
  {
    hide Platform.Run, Audited, HasPayout, MakeContribution, DueNow, Inv;
    var step := Contribute(now, user, circle, cycle);
    ReachedInv(past);
    var w := Reached(past);
    PaysSomething(w.tables, w.history, now, user, circle, cycle);
    AuditedConcat(Genesis(), NO_ACCOUNTS, past, [step]);
    AuditedOne(w, BooksOf(past), step);
  }

  lemma {:induction false} AuditedOne(w: World, b: Accounts, step: Step)
    ensures Audited(w, b, [step]) == Keep(w, b, step)
  {
    hide Keep, Platform.Apply;
    assert [step][1..] == [];
  }

  // ----- A payout repays the recipient's loan ----------------------------------------------------------------

  function CountFor(rows: seq<ContributionRow>, circle: nat, cycle: int): nat {
    if |rows| == 0 then 0
    else CountFor(rows[..|rows| - 1], circle, cycle) + if ForCycle(rows[|rows| - 1], circle, cycle) then 1 else 0
  }

  /** Each contribution to a cycle brings at least the circle's amount. */
  lemma {:induction false} PotCounts(rows: seq<ContributionRow>, circle: nat, cycle: int, amount: int)
    requires forall i :: 0 <= i < |rows| && rows[i].circle == circle ==>
      rows[i].amount == amount && rows[i].penalty >= 0
    ensures Pot(rows, circle, cycle) >= amount * CountFor(rows, circle, cycle)
    decreases |rows|
  {
    if |rows| > 0 {
      PotCounts(rows[..|rows| - 1], circle, cycle, amount);
    }
  }

  lemma {:induction false} RowsAtAmount(t: Tables, h: History, circle: nat)
    requires Inv(World(t, h)) && Recorded(t) && circle in t.circles
    ensures forall i :: 0 <= i < |t.contributions| && t.contributions[i].circle == circle ==>
      t.contributions[i].amount == t.circles[circle].amount && t.contributions[i].penalty >= 0
    ensures t.circles[circle].amount > 0
  {
    hide WalletsInv, PoolInv, LoansInv, Conserved, GoodMember, GoodBucket, GoodRefund, GoodTimetable;
    AmountsPositive(t, h);
    forall i | 0 <= i < |t.contributions| && t.contributions[i].circle == circle
      ensures t.contributions[i].amount == t.circles[circle].amount && t.contributions[i].penalty >= 0
    {
      assert GoodContribution(t, t.contributions[i]);
    }
  }

  lemma {:induction false} SlotsPositive(t: Tables, h: History, i: nat, g: Grant)
    requires Inv(World(t, h)) && i < |t.loans| && SizedOn(t, t.loans[i], g) && t.circles[t.loans[i].circle].amount > 0
    ensures g.slots > 0
  {
    hide WalletsInv, CollateralInv, PoolInv, Conserved;
    assert FairTerms(t.loans[i]);
    var amount := t.circles[t.loans[i].circle].amount;
    assert g.slots <= 0 ==> amount * g.slots <= 0;
  }

  /** In every run: a payout to a borrower marks the loan REPAID exactly when the pot exceeds loan and fee, and that
      borrower then owes nothing any more. It does whenever more than three fifths as many contributions came in for
      the cycle as the loan was sized on slots; and when there were as many, the payout is at least the final payout
      promised with the loan. */
  lemma {:induction false} PayoutRepaysLoan(past: seq<Step>, circle: nat, cycle: int, t': Tables)
    requires ProcessPayout(Reached(past).tables, circle, cycle) == Success(t')
    ensures var t := Reached(past).tables;
      (circle, cycle) in t.schedules && t.schedules[(circle, cycle)].recipient.Some?
    ensures var t := Reached(past).tables;
      var recipient := t.schedules[(circle, cycle)].recipient.value;
      var i := FindOwed(t.loans, recipient, circle);
      i < |t.loans| ==>
        var paidIn := CountFor(t.contributions, circle, cycle);
        && i < |BooksOf(past).grants| && i < |t'.loans| && |t'.payouts| == |t.payouts| + 1
        && var slots := BooksOf(past).grants[i].slots;
        && (t'.loans[i].status.Repaid? <==> Pot(t.contributions, circle, cycle) > Deduction(t.loans[i]))
        && (t'.loans[i].status.Repaid? ==> !HasActive(t'.loans, recipient))
        && (5 * paidIn > 3 * slots ==> t'.loans[i].status.Repaid?)
        && (paidIn >= slots ==> t'.loans[i].status.Repaid? && t'.payouts[|t.payouts|].amount >= t.loans[i].finalPayout)
  {
    hide Reached, BooksOf, Inv, Recorded, ProcessPayout, PoolExact;
    ReachedInv(past);
    ReachedRecords(past);
    ReachedBooks(past);
    var w := Reached(past);
    var recipient := RecipientOf(w.tables, circle, cycle, t');
    PaidCircle(w.tables, circle, cycle);
    PotGoes(w.tables, w.history, circle, cycle, recipient, t');
    if FindOwed(w.tables.loans, recipient, circle) < |w.tables.loans| {
      EnoughCame(w.tables, w.history, BooksOf(past).grants, recipient, circle, cycle);
      PotRepaysLoan(past, recipient, circle, Pot(w.tables.contributions, circle, cycle));
    }
  }

  lemma {:induction false} PaidCircle(t: Tables, circle: nat, cycle: int)
    requires ProcessPayout(t, circle, cycle).Success?
    ensures circle in t.circles
  {
  }

  lemma {:induction false} EnoughCame(t: Tables, h: History, grants: seq<Grant>, recipient: nat, circle: nat,
      cycle: int)
    requires Inv(World(t, h)) && Recorded(t) && GoodGrants(t, grants) && circle in t.circles
    requires FindOwed(t.loans, recipient, circle) < |t.loans|
    ensures var i := FindOwed(t.loans, recipient, circle);
      var pot := Pot(t.contributions, circle, cycle);
      var paidIn := CountFor(t.contributions, circle, cycle);
      && (5 * paidIn > 3 * grants[i].slots ==> Deduction(t.loans[i]) < pot)
      && (paidIn >= grants[i].slots ==> Deduction(t.loans[i]) < pot)
      && (paidIn >= grants[i].slots ==> pot - Deduction(t.loans[i]) >= t.loans[i].finalPayout)
  {
    hide Inv, Recorded, Pot, CountFor;
    var i := FindOwed(t.loans, recipient, circle);
    var loan, g := t.loans[i], grants[i];
    assert SizedOn(t, loan, g) && OwesHere(loan, recipient, circle);
    RowsAtAmount(t, h, circle);
    SlotsPositive(t, h, i, g);
    PotCounts(t.contributions, circle, cycle, t.circles[circle].amount);
    RepaidWhenEnoughContribute(t.loans, recipient, circle, t.circles[circle].amount, g.slots,
      CountFor(t.contributions, circle, cycle), g.score, Pot(t.contributions, circle, cycle));
  }

  // ----- Loans that come too late ----------------------------------------------------------------------------

  /** A running loan whose borrower has been paid in every cycle of the circle that was theirs. */
  ghost predicate TooLate(t: Tables, i: nat) {
    && i < |t.loans| && t.loans[i].status.Active? && Started(t.circles, t.loans[i].circle)
    && forall k :: k in t.schedules && k.0 == t.loans[i].circle && t.schedules[k].recipient == Some(t.loans[i].user) ==>
         HasPayout(t.payouts, k.0, k.1)
  }

  lemma {:induction false} PayoutsStay(t: Tables, step: Step, t': Tables, c: nat, k: int)
    requires RowsMove(t, step, t') && HasPayout(t.payouts, c, k)
    ensures HasPayout(t'.payouts, c, k)
  {
    hide FreshRow, Pot, Repay;
    var i :| 0 <= i < |t.payouts| && IsFor(t.payouts[i], c, k);
    assert IsFor(t'.payouts[i], c, k);
  }

  lemma {:induction false} StaysTooLate(t: Tables, step: Step, t': Tables, i: nat)
    requires Recorded(t) && TooLate(t, i) && Does(t, step, t')
    ensures TooLate(t', i) && t'.loans[i] == t.loans[i]
  {
    hide Platform.Attempt, Enabled, GoodRows, HasPayout, Pot, FreshRow, SamePayouts, MembersMove, CircleMoves,
         GoodTimetable;
    StepFrame(t, step, t');
    StepRows(t, step, t');
    SameLoan(t, step, t', i);
    StaysStarted(t, step, t', t.loans[i].circle);
    hide RowsMove, CirclesMove;
    forall k | k in t'.schedules && k.0 == t.loans[i].circle && t'.schedules[k].recipient == Some(t.loans[i].user)
      ensures HasPayout(t'.payouts, k.0, k.1)
    {
      NoNewSchedule(t, step, t', k);
      OldSchedule(t, step, t', k);
      PayoutsStay(t, step, t', k.0, k.1);
    }
  }

  lemma {:induction false} NoNewSchedule(t: Tables, step: Step, t': Tables, k: (nat, int))
    requires SchedulesMove(t, step, t') && k in t'.schedules && Started(t.circles, k.0)
    requires Does(t, step, t')
    ensures k in t.schedules
  {
    hide Platform.Attempt, Enabled, Ready;
    if step.Activate? {
      ActivatesDraft(t, step, t');
    }
  }

  /** Only a payout to this borrower from this circle could repay it, and each of those has been made. */
  lemma {:induction false} SameLoan(t: Tables, step: Step, t': Tables, i: nat)
    requires TooLate(t, i) && RowsMove(t, step, t')
    ensures i < |t'.loans| && t'.loans[i] == t.loans[i]
  {
    hide FreshRow, SamePayouts, HasPayout, Pot;
    if step.Payout? {
      var row := t'.payouts[|t.payouts|];
      var j := FindOwed(t.loans, row.recipient, row.circle);
      assert j == i ==> HasPayout(t.payouts, (row.circle, row.cycle).0, (row.circle, row.cycle).1);
    }
  }

  /** Borrowing does not ask whether the member has been paid already. Once every cycle that was theirs has its
      payout, a loan against the circle stays ACTIVE in every later run. */
  lemma {:induction false} LateLoanNeverRepaid(w: World, steps: seq<Step>, i: nat)
    requires Recorded(w.tables) && TooLate(w.tables, i)
    ensures var t' := Platform.Run(w, steps).tables;
      i < |t'.loans| && t'.loans[i] == w.tables.loans[i] && t'.loans[i].status.Active?
    decreases |steps|
  {
    hide Platform.Attempt, Enabled, Track, Recorded;
    if |steps| > 0 {
      if Accepted(w.tables, steps[0]) {
        StaysTooLate(w.tables, steps[0], Platform.Attempt(w.tables, steps[0]).value, i);
        StepRecords(w.tables, steps[0], Platform.Attempt(w.tables, steps[0]).value);
      }
      LateLoanNeverRepaid(Platform.Apply(w, steps[0]), steps[1..], i);
    }
  }

  /** Neither the payouts made so far nor the end of the circle stops a loan: whoever may borrow gets one, and it is
      too late when every cycle that was theirs has its payout. */
  lemma {:induction false} PaidMembersStillBorrow(past: seq<Step>, seen: Tables, user: nat, circle: nat, score: int)
    requires var t := Reached(past).tables;
      && Earlier(seen, t, circle, user) && MayBorrow(t, seen, user, circle, score)
      && (forall k :: k in t.schedules && k.0 == circle && t.schedules[k].recipient == Some(user) ==>
            HasPayout(t.payouts, k.0, k.1))
    ensures var t := Reached(past).tables;
      var r := ApplyLoan(t, seen, user, circle, score);
      && Credit.AllowedPercent(score).Some?
      && (r.Success? <==>
            seen.circles[circle].amount * seen.circles[circle].filledSlots * Credit.AllowedPercent(score).value >= 100)
      && (r.Success? ==> TooLate(r.value, |t.loans|))
  {
    hide Reached, Inv, HasPayout, HasActive, HasTaken, Pay;
    ReachedInv(past);
    BorrowExactly(Reached(past).tables, Reached(past).history, seen, user, circle, score, seen);
  }

  // ----- Money a completed circle leaves behind ----------------------------------------------------------------

  lemma {:induction false} OverStep(t: Tables, step: Step, t': Tables, c: nat, k: int)
    requires IsOver(t.circles, c) && Does(t, step, t')
    ensures HasPayout(t'.payouts, c, k) <==> HasPayout(t.payouts, c, k)
    ensures Pot(t'.contributions, c, k) == Pot(t.contributions, c, k)
  {
    hide Platform.Attempt, Enabled, Repay, HasContributed, LatePenalty, Pot;
    StepRows(t, step, t');
    if step.Contribute? {
      OtherPot(t.contributions, t'.contributions[|t.contributions|], c, k);
    }
    if step.Payout? {
      PaidNow(t.payouts, t'.payouts[|t.payouts|], c, k);
    } else {
      SameHas(t.payouts, t'.payouts, c, k);
    }
  }

  /** A cycle still unpaid when its circle completes is never paid, and its pot stays among what the pool owes:
      the money paid in for it is in the pool for good. */
  lemma {:induction false} UnpaidAtCompletionStays(w: World, steps: seq<Step>, c: nat, k: int)
    requires Inv(w) && IsOver(w.tables.circles, c) && !HasPayout(w.tables.payouts, c, k)
    ensures var t' := Platform.Run(w, steps).tables;
      && !HasPayout(t'.payouts, c, k) && Pot(t'.contributions, c, k) == Pot(w.tables.contributions, c, k)
      && Pool in t'.wallets && Pot(w.tables.contributions, c, k) <= Balance(t'.wallets[Pool])
    decreases |steps|
  {
    hide Inv, Platform.Attempt, Enabled, Track, HasPayout, Pot, Balance;
    if |steps| > 0 {
      StepKeeps(w, steps[0]);
      StepKeepsCircle(w, steps[0], c);
      if Accepted(w.tables, steps[0]) {
        OverStep(w.tables, steps[0], Platform.Attempt(w.tables, steps[0]).value, c, k);
      }
      UnpaidAtCompletionStays(Platform.Apply(w, steps[0]), steps[1..], c, k);
    } else {
      PotInPool(w, c, k);
    }
  }

  lemma {:induction false} PotInPool(w: World, c: nat, k: int)
    requires Inv(w) && !HasPayout(w.tables.payouts, c, k)
    ensures Pool in w.tables.wallets && Pot(w.tables.contributions, c, k) <= Balance(w.tables.wallets[Pool])
  {
    hide WalletsInv, CollateralInv, LoansInv, Conserved, HasPayout, Pot, Balance, Owed;
    PoolCoversPot(w.tables, c, k);
  }
}
