/** A circle whose members keep their side, followed through any run: other circles, other users, the provider and
    the circle's own members do what they like in between. */
module FairRuns {
  import opened Wrappers
  import opened Ledger
  import opened Tables
  import opened Contributions
  import opened Loans
  import opened Payouts
  import opened Circles
  import opened Platform
  import opened Preservation
  import opened Runs
  import opened Guarantees
  import opened Theorems
  import opened Frames
  import opened Records
  import opened Outcomes
  import opened Fairness
  import B = Books
  import Sorter

  // ----- What is asked of the run ----------------------------------------------------------------------------

  predicate PaidIn(g: Game, t: Tables, u: nat, k: int) {
    (g.circle, u) in g.start.members && HasPaidIn(g, t, u, k)
  }

  ghost predicate AllPaidIn(g: Game, t: Tables, k: int) {
    forall u :: u in g.listing ==> PaidIn(g, t, u, k)
  }

  /** Contributions to the circle come from its members and on time, a cycle pays out once everybody has paid in,
      the last cycle pays out last, nobody borrows against the circle, and no payout of it is reversed. */
  ghost predicate Fair(g: Game, t: Tables, step: Step) {
    match step
    case Contribute(now, user, circle, cycle) =>
      circle == g.circle ==>
        user in g.listing && (circle, cycle) in t.schedules && now <= t.schedules[(circle, cycle)].deadline
    case Payout(circle, cycle) =>
      circle == g.circle ==>
        && AllPaidIn(g, t, cycle)
        && (cycle == |g.listing| ==> forall k :: 1 <= k < |g.listing| ==> HasPayout(t.payouts, circle, k))
    case Borrow(_, circle, _, _) => circle != g.circle
    case Reverse(payout, _, _, _) => payout < |t.payouts| ==> t.payouts[payout].circle != g.circle
    case _ => true
  }

  /** Only steps that go through matter. */
  ghost predicate FairRun(g: Game, w: World, steps: seq<Step>)
    decreases |steps|
  {
    |steps| > 0 ==>
      && (Accepted(w.tables, steps[0]) ==> Fair(g, w.tables, steps[0]))
      && FairRun(g, Platform.Apply(w, steps[0]), steps[1..])
  }

  // ----- Money through the circle ------------------------------------------------------------------------------

  /** The steps that move money into or out of wallets on behalf of the circle. */
  predicate Involves(c: nat, t: Tables, step: Step) {
    match step
    case Contribute(_, _, circle, _) => circle == c
    case Payout(circle, _) => circle == c
    case Borrow(_, circle, _, _) => circle == c
    case Reverse(payout, _, _, _) => payout < |t.payouts| && t.payouts[payout].circle == c
    case _ => false
  }

  ghost function BalanceOf(t: Tables, id: WalletId): int {
    if id in t.wallets then Balance(t.wallets[id]) else 0
  }

  ghost function Flow(c: nat, w: World, step: Step, id: WalletId): int {
    if Involves(c, w.tables, step) then BalanceOf(Platform.Apply(w, step).tables, id) - BalanceOf(w.tables, id) else 0
  }

  /** By how much the circle's own steps moved a wallet's balance. */
  ghost function Through(c: nat, w: World, steps: seq<Step>, id: WalletId): int
    decreases |steps|
  {
    if |steps| == 0 then 0 else Flow(c, w, steps[0], id) + Through(c, Platform.Apply(w, steps[0]), steps[1..], id)
  }

  // ----- Where a fair run stands -------------------------------------------------------------------------------

  function Payers(g: Game, t: Tables, users: seq<nat>, k: int): nat {
    if |users| == 0 then 0
    else Payers(g, t, users[..|users| - 1], k) + if PaidIn(g, t, users[|users| - 1], k) then 1 else 0
  }

  function CyclesPaid(g: Game, t: Tables, u: nat, n: nat): nat {
    if n == 0 then 0 else CyclesPaid(g, t, u, n - 1) + if PaidIn(g, t, u, n) then 1 else 0
  }

  /** What a payout brings its recipient. */
  function Prize(g: Game): int
    requires g.circle in g.start.circles
  {
    |g.listing| * Amount(g) - Fee(g)
  }

  function PoolStake(g: Game, t: Tables, n: nat): int
    requires g.circle in g.start.circles
  {
    if n == 0 then 0
    else
      PoolStake(g, t, n - 1) + Amount(g) * Payers(g, t, g.listing, n)
        - if HasPayout(t.payouts, g.circle, n) then Prize(g) else 0
  }

  function MemberStake(g: Game, t: Tables, u: nat): int
    requires g.circle in g.start.circles && Plays(g, u)
  {
    (if HasPayout(t.payouts, g.circle, Spot(g, u)) then Prize(g) else 0) - Amount(g) * CyclesPaid(g, t, u, |g.listing|)
  }

  function Stake(g: Game, t: Tables, id: WalletId): int
    requires g.circle in g.start.circles
  {
    match id
    case Pool => PoolStake(g, t, |g.listing|)
    case Of(u) => if u in g.listing && Plays(g, u) then MemberStake(g, t, u) else 0
  }

  predicate StillMember(g: Game, t: Tables, u: nat) {
    && (g.circle, u) in g.start.members && (g.circle, u) in t.members && UnderWay(t, (g.circle, u))
    && t.members[(g.circle, u)].id == g.start.members[(g.circle, u)].id
    && (t.circles[g.circle].status.Active? ==> t.members[(g.circle, u)].status.Active?)
  }

  /** The circle keeps its terms, its members and its timetable, carries no loan, and is over once the last cycle
      has been paid out. */
  ghost predicate Course(g: Game, t: Tables) {
    && g.circle in g.start.circles && g.circle in t.circles
    && t.circles[g.circle].amount == Amount(g) && t.circles[g.circle].durationCycles == |g.listing|
    && (t.circles[g.circle].status.Active? || t.circles[g.circle].status.Completed?)
    && (t.circles[g.circle].status.Completed? <==> HasPayout(t.payouts, g.circle, |g.listing|))
    && (forall u :: u in g.listing ==> StillMember(g, t, u))
    && (forall k :: (g.circle, k) in t.schedules ==>
          && (g.circle, k) in g.start.schedules
          && SameSchedule(g.start.schedules[(g.circle, k)], t.schedules[(g.circle, k)]))
    && (forall i :: 0 <= i < |t.loans| ==> t.loans[i].circle != g.circle)
  }

  /** Every pot is what its payers paid, and only full pots were paid out. */
  ghost predicate Pots(g: Game, t: Tables) {
    && g.circle in g.start.circles
    && (forall k :: Pot(t.contributions, g.circle, k) == Amount(g) * Payers(g, t, g.listing, k))
    && (forall k :: HasPayout(t.payouts, g.circle, k) ==> 1 <= k <= |g.listing| && AllPaidIn(g, t, k))
    && (forall k :: HasPayout(t.payouts, g.circle, |g.listing|) && 1 <= k <= |g.listing| ==>
         HasPayout(t.payouts, g.circle, k))
  }

  // ----- Counting ----------------------------------------------------------------------------------------------

  ghost predicate SameRecord(g: Game, t: Tables, t': Tables) {
    && (forall u: nat, k: int :: PaidIn(g, t', u, k) <==> PaidIn(g, t, u, k))
    && (forall k :: HasPayout(t'.payouts, g.circle, k) <==> HasPayout(t.payouts, g.circle, k))
    && (forall k :: Pot(t'.contributions, g.circle, k) == Pot(t.contributions, g.circle, k))
  }

  lemma {:induction false} SamePayers(g: Game, t: Tables, t': Tables, users: seq<nat>, k: int)
    requires forall u :: u in users ==> (PaidIn(g, t', u, k) <==> PaidIn(g, t, u, k))
    ensures Payers(g, t', users, k) == Payers(g, t, users, k)
    decreases |users|
  {
    hide PaidIn;
    if |users| > 0 {
      SamePayers(g, t, t', users[..|users| - 1], k);
    }
  }

  lemma {:induction false} OnePayerMore(g: Game, t: Tables, t': Tables, users: seq<nat>, k: int, u: nat)
    requires Sorter.Distinct(users) && u in users && PaidIn(g, t', u, k) && !PaidIn(g, t, u, k)
    requires forall v :: v in users && v != u ==> (PaidIn(g, t', v, k) <==> PaidIn(g, t, v, k))
    ensures Payers(g, t', users, k) == Payers(g, t, users, k) + 1
    decreases |users|
  {
    hide PaidIn;
    var n := |users| - 1;
    if users[n] == u {
      SamePayers(g, t, t', users[..n], k);
    } else {
      OnePayerMore(g, t, t', users[..n], k, u);
    }
  }

  lemma {:induction false} EverybodyPaid(g: Game, t: Tables, users: seq<nat>, k: int)
    requires forall u :: u in users ==> PaidIn(g, t, u, k)
    ensures Payers(g, t, users, k) == |users|
    decreases |users|
  {
    hide PaidIn;
    if |users| > 0 {
      EverybodyPaid(g, t, users[..|users| - 1], k);
    }
  }

  lemma {:induction false} NobodyPaid(g: Game, t: Tables, users: seq<nat>, k: int)
    requires forall u :: u in users ==> !PaidIn(g, t, u, k)
    ensures Payers(g, t, users, k) == 0
    decreases |users|
  {
    hide PaidIn;
    if |users| > 0 {
      NobodyPaid(g, t, users[..|users| - 1], k);
    }
  }

  lemma {:induction false} SameCycles(g: Game, t: Tables, t': Tables, u: nat, n: nat)
    requires forall k :: 1 <= k <= n ==> (PaidIn(g, t', u, k) <==> PaidIn(g, t, u, k))
    ensures CyclesPaid(g, t', u, n) == CyclesPaid(g, t, u, n)
    decreases n
  {
    hide PaidIn;
    if n > 0 {
      SameCycles(g, t, t', u, n - 1);
    }
  }

  lemma {:induction false} OneCycleMore(g: Game, t: Tables, t': Tables, u: nat, n: nat, k: int)
    requires 1 <= k <= n && PaidIn(g, t', u, k) && !PaidIn(g, t, u, k)
    requires forall j :: j != k ==> (PaidIn(g, t', u, j) <==> PaidIn(g, t, u, j))
    ensures CyclesPaid(g, t', u, n) == CyclesPaid(g, t, u, n) + 1
    decreases n
  {
    hide PaidIn;
    if k == n {
      SameCycles(g, t, t', u, n - 1);
    } else {
      OneCycleMore(g, t, t', u, n - 1, k);
    }
  }

  lemma {:induction false} CyclesCounted(g: Game, t: Tables, u: nat, n: nat)
    ensures (forall k :: 1 <= k <= n ==> PaidIn(g, t, u, k)) ==> CyclesPaid(g, t, u, n) == n
    ensures (forall k :: 1 <= k <= n ==> !PaidIn(g, t, u, k)) ==> CyclesPaid(g, t, u, n) == 0
    decreases n
  {
    hide PaidIn;
    if n > 0 {
      CyclesCounted(g, t, u, n - 1);
    }
  }

  /** The pool's stake moves by one cycle at a time. */
  lemma {:induction false} PoolStakeMoves(g: Game, t: Tables, t': Tables, n: nat, k: int, change: int)
    requires g.circle in g.start.circles
    requires forall j :: j != k ==> Payers(g, t', g.listing, j) == Payers(g, t, g.listing, j)
    requires forall j :: j != k ==> (HasPayout(t'.payouts, g.circle, j) <==> HasPayout(t.payouts, g.circle, j))
    requires change == Amount(g) * (Payers(g, t', g.listing, k) - Payers(g, t, g.listing, k))
      - (if HasPayout(t'.payouts, g.circle, k) then Prize(g) else 0)
      + (if HasPayout(t.payouts, g.circle, k) then Prize(g) else 0)
    ensures PoolStake(g, t', n) == PoolStake(g, t, n) + if 1 <= k <= n then change else 0
    decreases n
  {
    hide Payers, HasPayout, Prize;
    if n > 0 {
      PoolStakeMoves(g, t, t', n - 1, k, change);
    }
  }

  lemma {:induction false} SameStake(g: Game, t: Tables, t': Tables, id: WalletId)
    requires g.circle in g.start.circles && SameRecord(g, t, t')
    ensures Stake(g, t', id) == Stake(g, t, id)
    ensures forall k :: Payers(g, t', g.listing, k) == Payers(g, t, g.listing, k)
  {
    hide PaidIn, HasPayout, Pot, Prize, Plays;
    forall k ensures Payers(g, t', g.listing, k) == Payers(g, t, g.listing, k) {
      SamePayers(g, t, t', g.listing, k);
    }
    match id
    case Pool => PoolStakeMoves(g, t, t', |g.listing|, 0, 0);
    case Of(u) => SameCycles(g, t, t', u, |g.listing|);
  }

  // ----- Steps that do not involve the circle --------------------------------------------------------------------

  lemma {:induction false} ForeignStep(g: Game, t: Tables, step: Step, t': Tables)
    requires Does(t, step, t') && !Involves(g.circle, t, step)
    ensures SameRecord(g, t, t')
  {
    hide Platform.Attempt, Enabled, Repay, LatePenalty, LateFee, HasContributed, HasPayout, Pot, FreshRow, SamePayouts;
    StepRows(t, step, t');
    if step.Contribute? {
      var row := t'.contributions[|t.contributions|];
      forall u: nat, k: int ensures PaidIn(g, t', u, k) <==> PaidIn(g, t, u, k) {
        if (g.circle, u) in g.start.members {
          ContributedAppend(t.contributions, row, g.circle, g.start.members[(g.circle, u)].id, k);
        }
      }
      forall k ensures Pot(t'.contributions, g.circle, k) == Pot(t.contributions, g.circle, k) {
        OtherPot(t.contributions, row, g.circle, k);
      }
    }
    forall k ensures HasPayout(t'.payouts, g.circle, k) <==> HasPayout(t.payouts, g.circle, k) {
      if step.Payout? {
        PaidNow(t.payouts, t'.payouts[|t.payouts|], g.circle, k);
      } else {
        SameHas(t.payouts, t'.payouts, g.circle, k);
      }
    }
  }

  lemma {:induction false} SamePots(g: Game, t: Tables, t': Tables)
    requires Pots(g, t) && SameRecord(g, t, t')
    ensures Pots(g, t')
  {
    hide PaidIn, HasPayout, Pot;
    SameStake(g, t, t', Pool);
  }

  // ----- The circle's frame ----------------------------------------------------------------------------------------

  lemma {:induction false} TermsStay(g: Game, t: Tables, step: Step, t': Tables)
    requires Course(g, t) && CirclesMove(t, step, t')
    requires HasPayout(t'.payouts, g.circle, |g.listing|) <==>
      HasPayout(t.payouts, g.circle, |g.listing|) ||
        (step.Payout? && step.circle == g.circle && step.cycle == |g.listing|)
    requires step.Payout? && step.circle == g.circle && step.cycle == |g.listing| ==> IsOver(t'.circles, g.circle)
    ensures g.circle in t'.circles
    ensures t'.circles[g.circle].amount == Amount(g) && t'.circles[g.circle].durationCycles == |g.listing|
    ensures t'.circles[g.circle].status.Active? || t'.circles[g.circle].status.Completed?
    ensures t'.circles[g.circle].status.Completed? <==> HasPayout(t'.payouts, g.circle, |g.listing|)
  {
    hide HasPayout, StillMember, SameSchedule;
  }

  lemma {:induction false} MemberStays(g: Game, t: Tables, step: Step, t': Tables, u: nat)
    requires StillMember(g, t, u) && MembersMove(t, t') && CirclesMove(t, step, t')
    ensures StillMember(g, t', u)
  {
    assert CircleMoves(t.circles[g.circle], t'.circles[g.circle], g.circle, step);
  }

  lemma {:induction false} ScheduleKept(g: Game, t: Tables, step: Step, t': Tables, k: int)
    requires Recorded(t) && Course(g, t) && Does(t, step, t')
    requires SchedulesMove(t, step, t') && (g.circle, k) in t'.schedules
    ensures (g.circle, k) in g.start.schedules
    ensures SameSchedule(g.start.schedules[(g.circle, k)], t'.schedules[(g.circle, k)])
  {
    hide Platform.Attempt, Enabled, GoodRows, GoodTimetable, StillMember, HasPayout;
    B.NoNewSchedule(t, step, t', (g.circle, k));
    OldSchedule(t, step, t', (g.circle, k));
  }

  lemma {:induction false} LoansElsewhere(g: Game, t: Tables, step: Step, t': Tables)
    requires forall i :: 0 <= i < |t.loans| ==> t.loans[i].circle != g.circle
    requires Recorded(t) && RowsMove(t, step, t') && Does(t, step, t')
    requires step.Borrow? ==> step.circle != g.circle
    ensures forall i :: 0 <= i < |t'.loans| ==> t'.loans[i].circle != g.circle
  {
    hide Platform.Attempt, Enabled, RowsMove, Recorded;
    B.LoanCount(t, step, t');
    if step.Borrow? {
      Lends(t, step, t');
    }
    forall i | 0 <= i < |t'.loans| ensures t'.loans[i].circle != g.circle {
      if i < |t.loans| {
        B.OldLoans(t, step, t', i);
      }
    }
  }

  lemma {:induction false} CourseStays(g: Game, t: Tables, step: Step, t': Tables)
    requires Recorded(t) && Course(g, t) && Does(t, step, t')
    requires step.Borrow? ==> step.circle != g.circle
    requires HasPayout(t'.payouts, g.circle, |g.listing|) <==>
      HasPayout(t.payouts, g.circle, |g.listing|) ||
        (step.Payout? && step.circle == g.circle && step.cycle == |g.listing|)
    requires step.Payout? && step.circle == g.circle && step.cycle == |g.listing| ==> IsOver(t'.circles, g.circle)
    ensures Course(g, t')
  {
    hide Platform.Attempt, Enabled, Recorded, HasPayout, StillMember, CirclesMove, SchedulesMove, MembersMove,
         RowsMove, IsOver;
    StepFrame(t, step, t');
    StepRows(t, step, t');
    TermsStay(g, t, step, t');
    LoansElsewhere(g, t, step, t');
    forall u | u in g.listing ensures StillMember(g, t', u) {
      MemberStays(g, t, step, t', u);
    }
    forall k | (g.circle, k) in t'.schedules
      ensures (g.circle, k) in g.start.schedules
      ensures SameSchedule(g.start.schedules[(g.circle, k)], t'.schedules[(g.circle, k)])
    {
      ScheduleKept(g, t, step, t', k);
    }
  }

  // ----- A contribution ----------------------------------------------------------------------------------------------

  /** A contribution by a member of the circle is one more payer, one more paid cycle and one more amount. */
  lemma {:induction false} ContributionCounts(g: Game, t: Tables, u: nat, k: int, t': Tables)
    requires Begun(g) && Pots(g, t) && u in g.listing && (g.circle, u) in g.start.members && !PaidIn(g, t, u, k)
    requires t'.payouts == t.payouts
    requires t'.contributions == t.contributions +
      [ContributionRow(g.circle, u, g.start.members[(g.circle, u)].id, k, Amount(g), 0)]
    ensures forall v, j :: v in g.listing ==> (PaidIn(g, t', v, j) <==> PaidIn(g, t, v, j) || (v == u && j == k))
    ensures forall j :: Payers(g, t', g.listing, j) == Payers(g, t, g.listing, j) + if j == k then 1 else 0
    ensures Pots(g, t')
  {
    hide Begun, HasContributed, HasPayout, Pot;
    var row := t'.contributions[|t.contributions|];
    forall v, j | v in g.listing ensures PaidIn(g, t', v, j) <==> PaidIn(g, t, v, j) || (v == u && j == k) {
      PaidInMoves(g, t, u, k, t', row, v, j);
    }
    hide PaidIn;
    ListedOnce(g);
    forall j ensures Payers(g, t', g.listing, j) == Payers(g, t, g.listing, j) + if j == k then 1 else 0 {
      if j == k {
        OnePayerMore(g, t, t', g.listing, j, u);
      } else {
        SamePayers(g, t, t', g.listing, j);
      }
    }
    forall j ensures Pot(t'.contributions, g.circle, j) == Amount(g) * Payers(g, t', g.listing, j) {
      ContributedAppend(t.contributions, row, g.circle, row.member, j);
      Distributes(Amount(g), Payers(g, t, g.listing, j));
    }
    forall j | HasPayout(t'.payouts, g.circle, j) ensures AllPaidIn(g, t', j) {
      assert AllPaidIn(g, t, j);
    }
  }

  lemma {:induction false} Distributes(a: int, n: nat)
    ensures a * (n + 1) == a * n + a
  {
  }

  lemma {:induction false} ListedOnce(g: Game)
    requires Begun(g)
    ensures Sorter.Distinct(g.listing)
  {
    hide Inv;
  }

  lemma {:induction false} PaidInMoves(g: Game, t: Tables, u: nat, k: int, t': Tables, row: ContributionRow, v: nat,
      j: int)
    requires Begun(g) && u in g.listing && (g.circle, u) in g.start.members && v in g.listing
    requires row == ContributionRow(g.circle, u, g.start.members[(g.circle, u)].id, k, Amount(g), 0)
    requires t'.contributions == t.contributions + [row]
    ensures PaidIn(g, t', v, j) <==> PaidIn(g, t, v, j) || (v == u && j == k)
  {
    hide Begun, HasContributed;
    EverybodyPlays(g, v);
    ContributedAppend(t.contributions, row, g.circle, g.start.members[(g.circle, v)].id, j);
    if v != u {
      IdOf(g, u, v);
    }
  }

  lemma {:induction false} ContributionFair(g: Game, t: Tables, h: History, step: Step, t': Tables, id: WalletId)
    requires Begun(g) && Inv(World(t, h)) && Recorded(t) && Course(g, t) && Pots(g, t)
    requires step.Contribute? && step.circle == g.circle && Fair(g, t, step) && Does(t, step, t')
    ensures Pots(g, t') && t'.payouts == t.payouts
    ensures Stake(g, t', id) - Stake(g, t, id) == BalanceOf(t', id) - BalanceOf(t, id)
  {
    hide Begun, Inv, HasContributed, HasPayout, Pot, MakeContribution, PaidIn, Pots, Recorded, Balance, FixedTerms;
    var u, k := step.user, step.cycle;
    WasFree(g, t, step);
    OneOfTheCycles(g, t, step);
    ContributionMoves(t, h, step.now, u, g.circle, k, t', Pool) by {
      PoolExists(t, h);
    }
    ContributionCounts(g, t, u, k, t');
    StakeAfterContribution(g, t, u, k, t', id);
    WalletOf(t, h, (g.circle, u));
    BalanceAfterContribution(t, h, step, t', id);
  }

  lemma {:induction false} WasFree(g: Game, t: Tables, step: Step)
    requires Course(g, t) && step.Contribute? && step.circle == g.circle && step.user in g.listing
    requires Accepted(t, step)
    ensures (g.circle, step.user) in g.start.members && !PaidIn(g, t, step.user, step.cycle)
    ensures (g.circle, step.user) in t.members
    ensures t.members[(g.circle, step.user)].id == g.start.members[(g.circle, step.user)].id
  {
    hide HasContributed, HasPayout, Collect;
    assert StillMember(g, t, step.user);
  }

  lemma {:induction false} OneOfTheCycles(g: Game, t: Tables, step: Step)
    requires Recorded(t) && Course(g, t) && step.Contribute? && step.circle == g.circle
    requires Accepted(t, step)
    ensures 1 <= step.cycle <= |g.listing| && (g.circle, step.cycle) in t.schedules
  {
    hide HasContributed, HasPayout, Collect, GoodRows, StillMember, Before;
    assert (g.circle, step.cycle) in t.schedules;
    assert GoodSchedule(t, (g.circle, step.cycle));
  }

  lemma {:induction false} WalletOf(t: Tables, h: History, k: (nat, nat))
    requires Inv(World(t, h)) && k in t.members
    ensures Of(k.1) in t.wallets && Pool in t.wallets
  {
    hide Inv;
    MemberLocks(t, h, k);
    PoolExists(t, h);
  }

  lemma {:induction false} BalanceAfterContribution(t: Tables, h: History, step: Step, t': Tables, id: WalletId)
    requires Inv(World(t, h)) && step.Contribute? && Does(t, step, t')
    requires step.circle in t.circles && (step.circle, step.cycle) in t.schedules
    requires step.now <= t.schedules[(step.circle, step.cycle)].deadline
    requires Of(step.user) in t.wallets && Pool in t.wallets
    ensures BalanceOf(t', id) - BalanceOf(t, id) ==
      if id == Pool then t.circles[step.circle].amount
      else if id == Of(step.user) then -t.circles[step.circle].amount else 0
  {
    hide Inv, MakeContribution, Balance;
    if id in t.wallets {
      ContributionMoves(t, h, step.now, step.user, step.circle, step.cycle, t', id);
    } else {
      NoNewWallet(t, step, t', id);
    }
  }

  lemma {:induction false} NoNewWallet(t: Tables, step: Step, t': Tables, id: WalletId)
    requires step.Contribute? || step.Payout?
    requires Does(t, step, t') && id !in t.wallets
    ensures id !in t'.wallets
  {
    hide MakeContribution, ProcessPayout;
    match step
    case Contribute(now, user, circle, cycle) => CollectedWallets(t, now, user, circle, cycle, t');
    case Payout(circle, cycle) => PaidWallets(t, circle, cycle, t');
  }

  lemma {:induction false} CollectedWallets(t: Tables, now: int, user: nat, circle: nat, cycle: int, t': Tables)
    requires MakeContribution(t, now, user, circle, cycle) == Success(t')
    ensures t'.wallets.Keys == t.wallets.Keys
  {
    hide Write, MakeContribution, LateFee;
    ContributionMade(t, now, user, circle, cycle, t');
  }

  lemma {:induction false} PaidWallets(t: Tables, circle: nat, cycle: int, t': Tables)
    requires ProcessPayout(t, circle, cycle) == Success(t')
    ensures t'.wallets.Keys == t.wallets.Keys
  {
    hide PaidOut, Finalize, HasLivePayout, Pot;
    var recipient := t.schedules[(circle, cycle)].recipient.value;
    var paid := PaidOut(t, circle, cycle, recipient).value;
    DisbursedWallets(t, circle, cycle, recipient, paid);
    if cycle == t.circles[circle].durationCycles {
      PaidOutCircles(t, circle, cycle, recipient, paid);
      FinalizeFrame(paid, circle, t');
    }
  }

  lemma {:induction false} DisbursedWallets(t: Tables, circle: nat, cycle: int, recipient: nat, t': Tables)
    requires (circle, cycle) in t.schedules && PaidOut(t, circle, cycle, recipient) == Success(t')
    ensures t'.wallets.Keys == t.wallets.Keys
  {
    hide Write, Repay, HasPayout, Pot;
  }

  lemma {:induction false} StakeAfterContribution(g: Game, t: Tables, u: nat, k: int, t': Tables, id: WalletId)
    requires Begun(g) && u in g.listing && 1 <= k <= |g.listing| && t'.payouts == t.payouts && !PaidIn(g, t, u, k)
    requires forall v, j :: v in g.listing ==> (PaidIn(g, t', v, j) <==> PaidIn(g, t, v, j) || (v == u && j == k))
    requires forall j :: Payers(g, t', g.listing, j) == Payers(g, t, g.listing, j) + if j == k then 1 else 0
    ensures g.circle in g.start.circles
    ensures Stake(g, t', id) - Stake(g, t, id) ==
      if id == Pool then Amount(g) else if id == Of(u) then -Amount(g) else 0
  {
    hide Begun, PaidIn, HasPayout, Prize, Payers;
    GameActive(g);
    match id
    case Pool =>
      PoolStakeMoves(g, t, t', |g.listing|, k, Amount(g));
    case Of(v) =>
      if v in g.listing {
        EverybodyPlays(g, v);
        if v == u {
          OneCycleMore(g, t, t', v, |g.listing|, k);
          Distributes(Amount(g), CyclesPaid(g, t, v, |g.listing|));
        } else {
          SameCycles(g, t, t', v, |g.listing|);
        }
      }
  }

  // ----- A payout ----------------------------------------------------------------------------------------------------

  lemma {:induction false} NoLoanHere(loans: seq<LoanRow>, user: nat, circle: nat)
    requires forall i :: 0 <= i < |loans| ==> loans[i].circle != circle
    ensures FindOwed(loans, user, circle) == |loans|
  {
  }

  /** A payout moves the pool and its recipient, and nobody else. */
  lemma {:induction false} PayoutElsewhere(t: Tables, h: History, circle: nat, cycle: int, t': Tables, id: WalletId)
    requires Inv(World(t, h)) && ProcessPayout(t, circle, cycle) == Success(t')
    requires id != Pool && id != Of(t.schedules[(circle, cycle)].recipient.value) && id in t.wallets
    ensures id in t'.wallets && Balance(t'.wallets[id]) == Balance(t.wallets[id])
  {
    hide Inv, Balance, Available, Finalize, PaidOut, HasLivePayout, Pot;
    var recipient := t.schedules[(circle, cycle)].recipient.value;
    var paid := PaidOut(t, circle, cycle, recipient).value;
    PaidOutElsewhere(t, h, circle, cycle, recipient, paid, id);
    PaidOutKeeps(t, h, circle, cycle, recipient, paid);
    PaidOutCircles(t, circle, cycle, recipient, paid);
    if cycle == t.circles[circle].durationCycles {
      FinalizeMoney(paid, h, circle, t', id);
    }
  }

  lemma {:induction false} PaidOutElsewhere(t: Tables, h: History, circle: nat, cycle: int, recipient: nat,
      paid: Tables, id: WalletId)
    requires Inv(World(t, h)) && (circle, cycle) in t.schedules && PaidOut(t, circle, cycle, recipient) == Success(paid)
    requires id != Pool && id != Of(recipient) && id in t.wallets
    ensures id in paid.wallets && paid.wallets[id] == t.wallets[id]
  {
    hide Disburse, Pot, Balance, WalletsInv, CollateralInv, PoolInv, LoansInv, Conserved, HasPayout, Repay;
    var pot := Pot(t.contributions, circle, cycle);
    var repayment := Repay(t.loans, recipient, circle, pot);
    var fee := FeeOn(pot, repayment.loanRepaid);
    DisburseKeeps(t.wallets, recipient, pot, repayment.netPayout - fee, fee, t.draws, paid.wallets);
  }

  lemma {:induction false} FullPot(g: Game, t: Tables, k: int)
    requires Pots(g, t) && AllPaidIn(g, t, k)
    ensures Payers(g, t, g.listing, k) == |g.listing|
    ensures Pot(t.contributions, g.circle, k) == |g.listing| * Amount(g)
  {
    hide PaidIn, HasPayout, Pot, Payers;
    EverybodyPaid(g, t, g.listing, k);
  }

  predicate PaysTo(t: Tables, circle: nat, k: int, recipient: nat) {
    (circle, k) in t.schedules && t.schedules[(circle, k)].recipient == Some(recipient)
  }

  /** A cycle of the circle that is paid out is the spot of one of its members. */
  lemma {:induction false} PaidCycle(g: Game, t: Tables, k: int, t': Tables) returns (recipient: nat)
    requires Begun(g) && Recorded(t) && Course(g, t) && ProcessPayout(t, g.circle, k) == Success(t')
    ensures 1 <= k <= |g.listing| && PaysTo(t, g.circle, k, recipient)
    ensures recipient in g.listing && Plays(g, recipient) && Spot(g, recipient) == k
  {
    hide Begun, HasPayout, HasLivePayout, GoodRows, StillMember, Before, PaidOut, Finalize, Pot;
    assert (g.circle, k) in t.schedules;
    assert GoodSchedule(t, (g.circle, k));
    CycleRecipient(g, k);
    recipient := t.schedules[(g.circle, k)].recipient.value;
  }

  lemma {:induction false} LastEnds(g: Game, t: Tables, t': Tables)
    requires Course(g, t) && ProcessPayout(t, g.circle, |g.listing|) == Success(t')
    ensures IsOver(t'.circles, g.circle)
  {
    hide HasPayout, HasLivePayout, StillMember, PaidOut, Finalize, Pot;
    var recipient := t.schedules[(g.circle, |g.listing|)].recipient.value;
    LastPayout(t, g.circle, |g.listing|, recipient, PaidOut(t, g.circle, |g.listing|, recipient).value, t');
  }

  /** The recipient gets what a full pot leaves after the fee, and nobody else's balance moves but the pool's. */
  lemma {:induction false} BalanceAfterPayout(g: Game, t: Tables, h: History, k: int, recipient: nat, t': Tables,
      id: WalletId)
    requires g.circle in g.start.circles && Inv(World(t, h)) && Course(g, t) && Pots(g, t) && AllPaidIn(g, t, k)
    requires PaysTo(t, g.circle, k, recipient) && ProcessPayout(t, g.circle, k) == Success(t')
    ensures BalanceOf(t', id) - BalanceOf(t, id) ==
      if id == Pool then -Prize(g) else if id == Of(recipient) then Prize(g) else 0
  {
    hide Inv, Balance, Pots, PaidIn, HasPayout, Pot, ProcessPayout, StillMember, AllPaidIn, BalanceOf, Prize;
    NoLoanHere(t.loans, recipient, g.circle);
    FullPot(g, t, k);
    PotGoes(t, h, g.circle, k, recipient, t');
    FeeOfPot(g, |g.listing| * Amount(g));
    BalanceOfIs(t, t', id);
    if id != Pool && id != Of(recipient) {
      if id in t.wallets {
        PayoutElsewhere(t, h, g.circle, k, t', id);
      } else {
        NoNewWallet(t, Payout(g.circle, k), t', id);
      }
    }
  }

  lemma {:induction false} BalanceOfIs(t: Tables, t': Tables, id: WalletId)
    ensures id in t.wallets && id in t'.wallets ==>
      BalanceOf(t', id) - BalanceOf(t, id) == Balance(t'.wallets[id]) - Balance(t.wallets[id])
    ensures id !in t.wallets && id !in t'.wallets ==> BalanceOf(t', id) == BalanceOf(t, id)
  {
  }

  lemma {:induction false} FeeOfPot(g: Game, pot: int)
    requires g.circle in g.start.circles && pot == |g.listing| * Amount(g)
    ensures pot - pot * 2 / 100 == Prize(g)
  {
    assert pot * 2 == 2 * |g.listing| * Amount(g);
  }

  /** A payout is one more paid cycle, and its recipient the member whose cycle it is. */
  lemma {:induction false} StakeAfterPayout(g: Game, t: Tables, k: int, recipient: nat, t': Tables, id: WalletId)
    requires Begun(g) && 1 <= k <= |g.listing| && t'.contributions == t.contributions
    requires recipient in g.listing && Plays(g, recipient) && Spot(g, recipient) == k
    requires !HasPayout(t.payouts, g.circle, k)
    requires forall j :: HasPayout(t'.payouts, g.circle, j) <==> HasPayout(t.payouts, g.circle, j) || j == k
    ensures g.circle in g.start.circles
    ensures Stake(g, t', id) - Stake(g, t, id) ==
      if id == Pool then -Prize(g) else if id == Of(recipient) then Prize(g) else 0
  {
    hide Begun, HasPayout, Prize, HasContributed;
    GameActive(g);
    forall j ensures Payers(g, t', g.listing, j) == Payers(g, t, g.listing, j) {
      SamePayers(g, t, t', g.listing, j);
    }
    match id
    case Pool =>
      PoolStakeMoves(g, t, t', |g.listing|, k, -Prize(g));
    case Of(v) =>
      if v in g.listing {
        EverybodyPlays(g, v);
        SameCycles(g, t, t', v, |g.listing|);
        if v != recipient {
          TwoSpots(g, v, recipient);
        }
      }
  }

  lemma {:induction false} TwoSpots(g: Game, u: nat, v: nat)
    requires Begun(g) && u in g.listing && v in g.listing && u != v
    ensures Plays(g, u) && Plays(g, v) && Spot(g, u) != Spot(g, v)
  {
    hide Begun;
    EverybodyPlays(g, u);
    EverybodyPlays(g, v);
  }

  lemma {:induction false} PotsAfterPayout(g: Game, t: Tables, k: int, t': Tables)
    requires Pots(g, t) && AllPaidIn(g, t, k) && 1 <= k <= |g.listing| && t'.contributions == t.contributions
    requires k == |g.listing| ==> forall j :: 1 <= j < |g.listing| ==> HasPayout(t.payouts, g.circle, j)
    requires forall j :: HasPayout(t'.payouts, g.circle, j) <==> HasPayout(t.payouts, g.circle, j) || j == k
    ensures Pots(g, t')
  {
    hide HasPayout, HasContributed, Pot;
    forall j ensures Payers(g, t', g.listing, j) == Payers(g, t, g.listing, j) {
      SamePayers(g, t, t', g.listing, j);
    }
    forall j | HasPayout(t'.payouts, g.circle, j) ensures AllPaidIn(g, t', j) {
      assert AllPaidIn(g, t, j);
    }
  }

  lemma {:induction false} PaidRows(t: Tables, circle: nat, k: int, t': Tables)
    requires ProcessPayout(t, circle, k) == Success(t')
    ensures t'.contributions == t.contributions && !HasPayout(t.payouts, circle, k)
    ensures forall j :: HasPayout(t'.payouts, circle, j) <==> HasPayout(t.payouts, circle, j) || j == k
  {
    hide ProcessPayout, HasPayout;
    B.PayoutLeavesRows(t, Payout(circle, k), t');
    forall j ensures HasPayout(t'.payouts, circle, j) <==> HasPayout(t.payouts, circle, j) || j == k {
      PaidNow(t.payouts, t'.payouts[|t.payouts|], circle, j);
    }
  }

  lemma {:induction false} PayoutFair(g: Game, t: Tables, h: History, k: int, t': Tables, id: WalletId)
    requires g.circle in g.start.circles && Begun(g) && Inv(World(t, h)) && Recorded(t) && Course(g, t) && Pots(g, t)
    requires AllPaidIn(g, t, k) && ProcessPayout(t, g.circle, k) == Success(t')
    requires k == |g.listing| ==> forall j :: 1 <= j < |g.listing| ==> HasPayout(t.payouts, g.circle, j)
    ensures Pots(g, t')
    ensures forall j :: HasPayout(t'.payouts, g.circle, j) <==> HasPayout(t.payouts, g.circle, j) || j == k
    ensures k == |g.listing| ==> IsOver(t'.circles, g.circle)
    ensures Stake(g, t', id) - Stake(g, t, id) == BalanceOf(t', id) - BalanceOf(t, id)
  {
    hide Begun, Inv, HasPayout, ProcessPayout, Pots, Recorded, AllPaidIn, BalanceOf, Stake, Prize, Course, IsOver,
         PaysTo;
    var recipient := PaidCycle(g, t, k, t');
    PaidRows(t, g.circle, k, t');
    if k == |g.listing| {
      LastEnds(g, t, t');
    }
    PotsAfterPayout(g, t, k, t');
    StakeAfterPayout(g, t, k, recipient, t', id);
    BalanceAfterPayout(g, t, h, k, recipient, t', id);
  }

  // ----- Every fair step, every fair run ----------------------------------------------------------------------------

  lemma {:induction false} FairStep(g: Game, w: World, step: Step, id: WalletId)
    requires Begun(g) && Inv(w) && Recorded(w.tables) && Course(g, w.tables) && Pots(g, w.tables)
    requires Accepted(w.tables, step) && Fair(g, w.tables, step)
    ensures var t' := Platform.Apply(w, step).tables;
      && Course(g, t') && Pots(g, t')
      && Stake(g, t', id) == Stake(g, w.tables, id) + Flow(g.circle, w, step, id)
  {
    hide Begun, Inv, HasPayout, Pots, Recorded, BalanceOf, Stake, Course, IsOver, Platform.Attempt, Enabled, Track,
         SameRecord;
    var t, t' := w.tables, Platform.Attempt(w.tables, step).value;
    if step.Contribute? && step.circle == g.circle {
      ContributionFair(g, t, w.history, step, t', id);
    } else if step.Payout? && step.circle == g.circle {
      InStart(g);
      PayoutDoes(t, step, t');
      PayoutFair(g, t, w.history, step.cycle, t', id);
    } else {
      NotInvolved(g, t, step);
      ForeignStep(g, t, step, t');
      SamePots(g, t, t') by {
        assert Pots(g, t);
      }
      InStart(g);
      SameStake(g, t, t', id);
      SamePaidCycles(g, t, t');
    }
    hide Fair;
    CourseStays(g, t, step, t');
  }

  lemma {:induction false} PayoutDoes(t: Tables, step: Step, t': Tables)
    requires step.Payout? && Does(t, step, t')
    ensures ProcessPayout(t, step.circle, step.cycle) == Success(t')
  {
    hide ProcessPayout;
  }

  lemma {:induction false} SamePaidCycles(g: Game, t: Tables, t': Tables)
    requires SameRecord(g, t, t')
    ensures forall k :: HasPayout(t'.payouts, g.circle, k) <==> HasPayout(t.payouts, g.circle, k)
  {
    hide HasPayout, PaidIn, Pot;
  }

  lemma {:induction false} InStart(g: Game)
    requires Begun(g)
    ensures g.circle in g.start.circles
  {
  }

  lemma {:induction false} NotInvolved(g: Game, t: Tables, step: Step)
    requires Fair(g, t, step) && !(step.Contribute? && step.circle == g.circle)
    requires !(step.Payout? && step.circle == g.circle)
    ensures !Involves(g.circle, t, step)
  {
  }

  /** At every point of a fair run a member has put in the amount for each cycle paid in, and has had the pot less
      the fee once their own cycle was paid out; the pool has what is left. */
  lemma {:induction false} MoneySoFar(g: Game, w: World, steps: seq<Step>, id: WalletId)
    requires Begun(g) && Inv(w) && Recorded(w.tables) && Course(g, w.tables) && Pots(g, w.tables)
    requires FairRun(g, w, steps)
    ensures var w' := Platform.Run(w, steps);
      && Inv(w') && Course(g, w'.tables) && Pots(g, w'.tables)
      && Stake(g, w'.tables, id) == Stake(g, w.tables, id) + Through(g.circle, w, steps, id)
    decreases |steps|
  {
    hide Begun, Inv, Pots, Recorded, Stake, Course, Platform.Attempt, Enabled, Track, Fair, Involves;
    if |steps| > 0 {
      var next := Platform.Apply(w, steps[0]);
      StepKeeps(w, steps[0]);
      if Accepted(w.tables, steps[0]) {
        FairStep(g, w, steps[0], id);
        StepRecords(w.tables, steps[0], Platform.Attempt(w.tables, steps[0]).value);
      }
      MoneySoFar(g, next, steps[1..], id);
    }
  }

  // ----- From activation to the last payout -------------------------------------------------------------------------

  lemma {:induction false} FreshStart(g: Game, id: WalletId)
    requires Begun(g)
    ensures Course(g, g.start) && Pots(g, g.start) && Stake(g, g.start, id) == 0
  {
    hide Inv, Listing, CyclePaysItsMember, MemberHasTheirCycle, Opens, Prize, Fee;
    forall u | u in g.listing ensures StillMember(g, g.start, u) && Plays(g, u) {
      EverybodyPlays(g, u);
    }
    forall k ensures Pot(g.start.contributions, g.circle, k) == 0 {
      NoRowsNoPot(g.start.contributions, g.circle, k);
    }
    forall k ensures Payers(g, g.start, g.listing, k) == 0 {
      NobodyPaid(g, g.start, g.listing, k);
    }
    hide Pot, HasContributed;
    match id
    case Pool => NothingInPool(g, g.start, |g.listing|);
    case Of(u) => CyclesCounted(g, g.start, u, |g.listing|);
  }

  lemma {:induction false} NothingInPool(g: Game, t: Tables, n: nat)
    requires g.circle in g.start.circles
    requires forall k :: Payers(g, t, g.listing, k) == 0 && !HasPayout(t.payouts, g.circle, k)
    ensures PoolStake(g, t, n) == 0
    decreases n
  {
    hide HasPayout, Payers, Prize;
    if n > 0 {
      NothingInPool(g, t, n - 1);
    }
  }

  lemma {:induction false} EverythingPaid(g: Game, t: Tables, n: nat)
    requires Pots(g, t) && n <= |g.listing| && HasPayout(t.payouts, g.circle, |g.listing|)
    ensures PoolStake(g, t, n) == n * Fee(g)
    decreases n
  {
    hide HasPayout, Payers, PaidIn, Pot, Fee;
    if n > 0 {
      EverythingPaid(g, t, n - 1);
      assert HasPayout(t.payouts, g.circle, n);
      FullPot(g, t, n);
    }
  }

  lemma {:induction false} FinalStakes(g: Game, t: Tables, id: WalletId)
    requires Begun(g) && Pots(g, t) && HasPayout(t.payouts, g.circle, |g.listing|)
    ensures Stake(g, t, id) == match id
      case Pool => |g.listing| * Fee(g)
      case Of(u) => if u in g.listing then -Fee(g) else 0
  {
    hide Begun, HasPayout, Payers, PaidIn, Pot, Fee;
    match id
    case Pool => EverythingPaid(g, t, |g.listing|);
    case Of(u) =>
      if u in g.listing {
        EverybodyPlays(g, u);
        forall k | 1 <= k <= |g.listing| ensures PaidIn(g, t, u, k) {
          assert AllPaidIn(g, t, k);
        }
        CyclesCounted(g, t, u, |g.listing|);
      }
  }

  /** Every member still has a membership, none of the circle's memberships locks anything. */
  ghost predicate AllUnlocked(g: Game, w: World) {
    && (forall u :: u in g.listing ==> (g.circle, u) in w.tables.members)
    && (forall u: nat :: (g.circle, u) in w.tables.members ==> Emptied(w.tables, w.history, (g.circle, u)))
  }

  lemma {:induction false} OverUnlocks(g: Game, w: World)
    requires Inv(w) && Course(g, w.tables) && IsOver(w.tables.circles, g.circle)
    ensures AllUnlocked(g, w)
  {
    hide Inv;
    forall u | u in g.listing ensures (g.circle, u) in w.tables.members {
      assert StillMember(g, w.tables, u);
    }
    hide Course;
    forall u: nat | (g.circle, u) in w.tables.members ensures Emptied(w.tables, w.history, (g.circle, u)) {
      MemberLocks(w.tables, w.history, (g.circle, u));
      BucketHolds(w.tables, w.history, (g.circle, u));
    }
  }

  ghost function GameOf(past: seq<Step>, a: Activation): Game
    requires Ready(Reached(past).tables, a) && ActivateCircle(Reached(past).tables, a).Success?
  {
    Game(ActivateCircle(Reached(past).tables, a).value, Reached(past).history, a.circle, a.listing)
  }

  /** A circle of n > 0 members was activated, and a run fair to it has paid its last cycle out. */
  ghost predicate PlayedFairly(past: seq<Step>, a: Activation, steps: seq<Step>) {
    && Ready(Reached(past).tables, a) && ActivateCircle(Reached(past).tables, a).Success? && |a.listing| > 0
    && var g := GameOf(past, a);
    && FairRun(g, World(g.start, g.history), steps)
    && HasPayout(Platform.Run(World(g.start, g.history), steps).tables.payouts, a.circle, |a.listing|)
  }

  /** From any reachable state: activate a circle of n > 0 members and let anything at all happen on the platform,
      as long as the run is fair to this circle. Once the last cycle has its payout the circle is COMPLETED, every
      cycle was paid out, the circle's own steps have taken exactly floor(2nc/100) from each member, given the pool
      n times that, and left every other wallet alone, and no membership locks anything any more. */
  lemma {:induction false} FairCircle(past: seq<Step>, a: Activation, steps: seq<Step>)
    requires PlayedFairly(past, a, steps)
    ensures var g := GameOf(past, a);
      var w := World(g.start, g.history);
      var w' := Platform.Run(w, steps);
      && g.circle in g.start.circles && IsOver(w'.tables.circles, a.circle) && AllUnlocked(g, w')
      && (forall k :: HasPayout(w'.tables.payouts, a.circle, k) <==> 1 <= k <= |a.listing|)
      && Through(a.circle, w, steps, Pool) == |a.listing| * Fee(g)
      && (forall u :: u in a.listing ==> Through(a.circle, w, steps, Of(u)) == -Fee(g))
      && (forall u :: u !in a.listing ==> Through(a.circle, w, steps, Of(u)) == 0)
  {
    hide Reached, Inv, Recorded, Ready, ActivateCircle, Begun, FairRun, Through, AllUnlocked, HasPayout, Stake, Fee;
    ReachedInv(past);
    ReachedRecords(past);
    var g := GameOf(past, a);
    var w := World(g.start, g.history);
    ActivationBegins(Reached(past).tables, g.history, a);
    ActivatedRecords(Reached(past).tables, a);
    var w' := Platform.Run(w, steps);
    StartInv(g);
    forall id ensures Course(g, w'.tables) && Pots(g, w'.tables) && Inv(w')
      ensures Through(a.circle, w, steps, id) == match id
        case Pool => |a.listing| * Fee(g)
        case Of(u) => if u in a.listing then -Fee(g) else 0
    {
      FreshStart(g, id);
      MoneySoFar(g, w, steps, id);
      FinalStakes(g, w'.tables, id);
    }
    assert Through(a.circle, w, steps, Pool) == |a.listing| * Fee(g);
    OverUnlocks(g, w');
  }

  lemma {:induction false} StartInv(g: Game)
    requires Begun(g)
    ensures Inv(World(g.start, g.history)) && g.circle in g.start.circles
  {
    hide Inv;
  }

  lemma {:induction false} ActivatedRecords(t: Tables, a: Activation)
    requires Recorded(t) && Ready(t, a) && ActivateCircle(t, a).Success?
    ensures Recorded(ActivateCircle(t, a).value)
  {
    hide Recorded, Ready, ActivateCircle;
    StepRecords(t, Step.Activate(a), ActivateCircle(t, a).value);
  }
}
