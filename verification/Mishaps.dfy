/** Runs from the empty platform that end where they should not: a loan that came too late, and money paid in for a
    cycle that had been paid out. */
module Mishaps {
  import opened Wrappers
  import opened Ledger
  import opened Tables
  import opened Contributions
  import opened Loans
  import opened Payouts
  import opened Platform
  import opened Preservation
  import opened Runs
  import opened Guarantees
  import opened Frames
  import opened Records
  import opened Outcomes
  import opened Fairness
  import opened FairWitness
  import B = Books
  import Credit

  lemma {:induction false} ReachedThen(past: seq<Step>, steps: seq<Step>)
    ensures Reached(past + steps) == Platform.Run(Reached(past), steps)
  {
    hide Platform.Run;
    RunConcat(Genesis(), past, steps);
  }

  // ----- A loan that came too late -----------------------------------------------------------------------------------

  /** After the first round its recipient has been paid in every cycle that is theirs. */
  lemma {:induction false} PaidForGood(g: Game, t: Tables, r: nat)
    requires Begun(g) && At(g, t, 1, []) && Recorded(t) && |g.listing| > 1
    requires (g.circle, 1) in g.start.schedules && g.start.schedules[(g.circle, 1)].recipient == Some(r)
    ensures forall k :: k in t.schedules && k.0 == g.circle && t.schedules[k].recipient == Some(r) ==>
      HasPayout(t.payouts, k.0, k.1)
  {
    hide Begun, Inv, Money, HasContributed, HasPayout, Pot, GoodRows, Before;
    GameActive(g);
    CycleRecipient(g, 1);
    forall k | k in t.schedules && k.0 == g.circle && t.schedules[k].recipient == Some(r)
      ensures HasPayout(t.payouts, k.0, k.1)
    {
      assert GoodSchedule(t, k);
      assert k == (g.circle, k.1);
      CycleRecipient(g, k.1);
    }
  }

  lemma {:induction false} MemberBorrows(g: Game, t: Tables, r: nat)
    requires Begun(g) && At(g, t, 1, []) && r in g.listing && g.start.loans == []
    ensures MayBorrow(t, t, r, g.circle, 550) && Earlier(t, t, g.circle, r)
    ensures g.circle in t.circles && t.circles == g.start.circles
  {
    hide Begun, At, Setting;
    GameActive(g);
    EverybodyPlays(g, r);
    CycleRecipient(g, 1);
    WalletKept(g, t, r);
    AtSetting(g, t);
    SameTable(g, t, r, 1);
    NoLoans(t, r, g.circle);
  }

  lemma {:induction false} AtSetting(g: Game, t: Tables)
    requires At(g, t, 1, [])
    ensures Setting(g, t) && g.circle in g.start.circles
  {
    hide Inv, Setting, Money, HasContributed, HasPayout, Pot;
  }

  lemma {:induction false} NoLoans(t: Tables, user: nat, circle: nat)
    requires t.loans == []
    ensures !HasActive(t.loans, user) && !HasTaken(t.loans, user, circle)
  {
  }

  lemma {:induction false} WalletKept(g: Game, t: Tables, r: nat)
    requires At(g, t, 1, []) && Plays(g, r)
    ensures Of(r) in t.wallets
  {
    hide Inv, Balance;
  }

  /** The circle opens and plays its first round. */
  ghost function FirstRound(n: nat, c: nat): (past: seq<Step>)
    requires n > 1 && c >= 10
  {
    OpeningRuns(n, c);
    Opening(n, c) + Rounds(0, Timetable(Opened(n, c))[..1])
  }

  lemma {:induction false} FirstRoundRuns(n: nat, c: nat)
    requires n > 1 && c >= 10
    ensures At(Opened(n, c), Reached(FirstRound(n, c)).tables, 1, [])
  {
    hide Begun, AllAfford, Timetabled, At, OnTime, Reached, Finished, Schedule, Opened;
    var g := Opened(n, c);
    OpeningRuns(n, c);
    TimetableOnTime(g);
    ReachedThen(Opening(n, c), Rounds(0, Timetable(g)[..1]));
    RoundsRun(g, Timetable(g)[..1]);
  }

  /** In a circle of any size above one the first recipient, paid once and for all, can still borrow: a run ends with
      a loan that no later run repays. */
  lemma {:induction false} LateLoansHappen(n: nat, c: nat)
    requires n > 1 && c >= 10
    ensures exists past, i :: B.TooLate(Reached(past).tables, i)
  {
    hide Begun, AllAfford, Timetabled, At, Recorded, Reached, MayBorrow, ApplyLoan, B.TooLate, HasPayout, FirstRound,
         Opened;
    var g, past := Opened(n, c), FirstRound(n, c);
    OpeningRuns(n, c);
    FirstRoundRuns(n, c);
    ReachedRecords(past);
    var t := Reached(past).tables;
    CycleRecipient(g, 1);
    var r := g.start.schedules[(g.circle, 1)].recipient.value;
    PaidForGood(g, t, r);
    MemberBorrows(g, t, r);
    B.PaidMembersStillBorrow(past, t, r, 0, 550);
    Credit.TierTable(550);
    Lendable(n, c, Credit.AllowedPercent(550).value);
    OneBorrow(past, r, 0, 550, t);
    assert B.TooLate(Reached(past + [Borrow(r, 0, 550, t)]).tables, |t.loans|);
  }

  lemma {:induction false} OneBorrow(past: seq<Step>, user: nat, circle: nat, score: int, seen: Tables)
    requires Earlier(seen, Reached(past).tables, circle, user)
    requires ApplyLoan(Reached(past).tables, seen, user, circle, score).Success?
    ensures Reached(past + [Borrow(user, circle, score, seen)]).tables ==
      ApplyLoan(Reached(past).tables, seen, user, circle, score).value
  {
    hide Reached, ApplyLoan, Earlier;
    var borrow := Borrow(user, circle, score, seen);
    ReachedThen(past, [borrow]);
    RunOne(Reached(past), borrow);
    BorrowApplied(Reached(past), user, circle, score, seen);
  }

  lemma {:induction false} Lendable(n: nat, c: nat, percent: int)
    requires n > 1 && c >= 10 && percent >= 20
    ensures c * n * percent >= 100
  {
    assert c * n >= 10 * n;
    assert c * n * percent >= 20 * percent;
  }

  lemma {:induction false} BorrowApplied(w: World, user: nat, circle: nat, score: int, seen: Tables)
    requires Earlier(seen, w.tables, circle, user) && ApplyLoan(w.tables, seen, user, circle, score).Success?
    ensures Platform.Apply(w, Borrow(user, circle, score, seen)).tables ==
      ApplyLoan(w.tables, seen, user, circle, score).value
  {
    hide ApplyLoan, Earlier;
  }

  // ----- A contribution that came too late -------------------------------------------------------------------------

  /** A payout leaves nobody but the pool with less. */
  lemma {:induction false} NobodyPoorer(t: Tables, h: History, circle: nat, cycle: int, t': Tables, u: nat)
    requires Inv(World(t, h)) && ProcessPayout(t, circle, cycle) == Success(t') && Of(u) in t.wallets
    requires cycle != t.circles[circle].durationCycles
    ensures Of(u) in t'.wallets && Available(t'.wallets[Of(u)]) >= Available(t.wallets[Of(u)])
    ensures t'.circles == t.circles && t'.members == t.members && t'.contributions == t.contributions
  {
    hide Disburse, Pot, Balance, Available, WalletsInv, CollateralInv, PoolInv, LoansInv, Conserved, HasPayout,
         HasLivePayout, Repay;
    var recipient := t.schedules[(circle, cycle)].recipient.value;
    var pot := Pot(t.contributions, circle, cycle);
    var repayment := Repay(t.loans, recipient, circle, pot);
    var fee := FeeOn(pot, repayment.loanRepaid);
    DisburseKeeps(t.wallets, recipient, pot, repayment.netPayout - fee, fee, t.draws, t'.wallets);
    NetFromDisburse(t.wallets, recipient, pot, repayment.netPayout - fee, fee, t.draws);
    SameBucketsAvailable(t.wallets[Of(u)], t'.wallets[Of(u)]);
  }

  /** With one contribution in, the first cycle can be paid out. */
  lemma {:induction false} PayableEarly(g: Game, t: Tables, u: nat)
    requires Begun(g) && At(g, t, 0, [u])
    ensures Eligible(t, g.circle, 1) && t.circles == g.start.circles
  {
    hide Begun, Inv, Money, HasContributed, HasPayout, Pot;
    GameActive(g);
    CycleRecipient(g, 1);
    EverybodyPlays(g, g.start.schedules[(g.circle, 1)].recipient.value);
  }

  /** The second member has not paid in yet, and can. */
  lemma {:induction false} SecondMayPay(g: Game, t: Tables, u: nat, v: nat, now: int, t': Tables)
    requires Begun(g) && AllAfford(g) && At(g, t, 0, [u]) && u != v && v in g.listing && |g.listing| > 1
    requires (g.circle, 1) in g.start.schedules && now == g.start.schedules[(g.circle, 1)].deadline
    requires ProcessPayout(t, g.circle, 1) == Success(t')
    ensures MakeContribution(t', now, v, g.circle, 1).Success?
    ensures g.circle in t'.circles && (g.circle, 1) in t'.schedules && DueNow(t', now, g.circle, 1) == Amount(g)
  {
    hide Begun, AllAfford, Inv, HasContributed, ProcessPayout, MakeContribution, Available, LatePenalty,
         Fairness.Paying, Money, Affords;
    GameActive(g);
    EverybodyPlays(g, v);
    CycleRecipient(g, 1);
    SpareMoney(g, t, u, v);
    NotYet(g, t, 0, [u], v);
    NobodyPoorer(t, g.history, g.circle, 1, t', v);
    PayoutKeeps(t, g.history, g.circle, 1, t');
    TimetableKept(t, g.circle, 1, t');
    ContributeExactly(t', g.history, now, v, g.circle, 1, 0, 0);
  }

  lemma {:induction false} SpareMoney(g: Game, t: Tables, u: nat, v: nat)
    requires Begun(g) && AllAfford(g) && At(g, t, 0, [u]) && u != v && v in g.listing
    ensures Of(v) in t.wallets && Available(t.wallets[Of(v)]) >= Amount(g)
  {
    hide Begun, Inv, Money, Fairness.Paying, Setting, Affords, Available;
    GameActive(g);
    CanTakeTurn(g, t, 0, [u], v);
  }

  lemma {:induction false} TimetableKept(t: Tables, circle: nat, cycle: int, t': Tables)
    requires ProcessPayout(t, circle, cycle) == Success(t')
    ensures (circle, cycle) in t.schedules && (circle, cycle) in t'.schedules
    ensures SameSchedule(t.schedules[(circle, cycle)], t'.schedules[(circle, cycle)])
  {
    hide ProcessPayout;
    StepFrame(t, Payout(circle, cycle), t');
    ScheduleThere(t, circle, cycle);
  }

  lemma {:induction false} ScheduleThere(t: Tables, circle: nat, cycle: int)
    ensures ProcessPayout(t, circle, cycle).Success? ==> (circle, cycle) in t.schedules
  {
    hide PaidOut, Finalize, HasLivePayout, Pot;
  }

  /** In a circle of any size above one a cycle can be paid out when only one member has paid in, and the next
      contribution to it goes through and is stranded: it is in the pool after every later run, on top of all the pool
      owes. */
  lemma {:induction false} StrandingHappens(n: nat, c: nat)
    requires n > 1 && c >= 10
    ensures exists past :: B.BooksOf(past).stranded >= c
  {
    hide Inv, Begun, AllAfford, Timetabled, At, Reached, MakeContribution, ProcessPayout, B.BooksOf, HasPayout, Affords,
         Plays, Eligible, DueNow, Platform.Apply;
    var g := Opened(n, c);
    OpeningRuns(n, c);
    StartOfGame(g);
    ListedOnce(g);
    TimeToPay(g);
    var u, v, now := g.listing[0], g.listing[1], g.start.schedules[(g.circle, 1)].deadline;
    var first, payout, second := Contribute(now, u, 0, 1), Payout(0, 1), Contribute(now, v, 0, 1);
    FirstTurn(g, u, now);
    var t1 := MakeContribution(g.start, now, u, 0, 1).value;
    PayableEarly(g, t1, u);
    InvAt(g, t1, u);
    PayoutExactly(t1, g.history, 0, 1);
    var t2 := ProcessPayout(t1, 0, 1).value;
    SecondMayPay(g, t1, u, v, now, t2);
    var past := Opening(n, c) + [first] + [payout];
    ReachedThen(Opening(n, c), [first]);
    RunOne(Reached(Opening(n, c)), first);
    ContributionApplied(g, g.start, Turn(u, now), 1);
    ReachedThen(Opening(n, c) + [first], [payout]);
    RunOne(World(t1, g.history), payout);
    PayoutApplied(g, t1, 1);
    B.PaidCycleStrands(past, now, v, 0, 1);
    PayoutHas(t1, 0, 1, t2);
    B.EveryRunPoolExactly(past);
    assert B.BooksOf(past + [second]).stranded >= c;
  }

  lemma {:induction false} PayoutHas(t: Tables, circle: nat, cycle: int, t': Tables)
    requires ProcessPayout(t, circle, cycle) == Success(t')
    ensures HasPayout(t'.payouts, circle, cycle)
  {
    hide ProcessPayout;
    StepRows(t, Payout(circle, cycle), t');
    assert IsFor(t'.payouts[|t.payouts|], circle, cycle);
  }

  lemma {:induction false} InvAt(g: Game, t: Tables, u: nat)
    requires At(g, t, 0, [u])
    ensures Inv(World(t, g.history))
  {
    hide Inv;
  }

  lemma {:induction false} ListedOnce(g: Game)
    requires Begun(g) && |g.listing| > 1
    ensures g.listing[0] != g.listing[1]
  {
    hide Inv;
  }

  lemma {:induction false} TimeToPay(g: Game)
    requires Begun(g)
    ensures (g.circle, 1) in g.start.schedules
  {
    hide Begun;
    GameActive(g);
    CycleRecipient(g, 1);
  }

  lemma {:induction false} FirstTurn(g: Game, u: nat, now: int)
    requires Begun(g) && AllAfford(g) && At(g, g.start, 0, []) && u in g.listing
    requires (g.circle, 1) in g.start.schedules && now <= g.start.schedules[(g.circle, 1)].deadline
    ensures var r := MakeContribution(g.start, now, u, g.circle, 1);
      r.Success? && At(g, r.value, 0, [u])
  {
    hide Begun, At, MakeContribution, Affords, Plays;
    GameActive(g);
    TurnKeeps(g, g.start, 0, [], Turn(u, now));
    assert [] + [u] == [u];
  }
}
