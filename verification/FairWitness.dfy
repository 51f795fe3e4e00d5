/** Fair runs exist: rounds in which everybody pays on time are fair, and circles of every size can play them. */
module FairWitness {
  import opened Wrappers
  import opened Ledger
  import opened Tables
  import opened Memberships
  import opened Contributions
  import opened Payouts
  import opened Circles
  import opened Platform
  import opened Runs
  import opened Frames
  import opened Records
  import opened Outcomes
  import opened Fairness
  import opened FairRuns
  import A = Audit
  import C = Calendar
  import Sorter

  // ----- Rounds are fair -----------------------------------------------------------------------------------------

  lemma {:induction false} FairConcat(g: Game, w: World, a: seq<Step>, b: seq<Step>)
    requires FairRun(g, w, a) && FairRun(g, Platform.Run(w, a), b)
    ensures FairRun(g, w, a + b)
    decreases |a|
  {
    hide Platform.Apply, Fair, Accepted;
    if |a| == 0 {
      assert a + b == b;
    } else {
      assert (a + b)[0] == a[0] && (a + b)[1..] == a[1..] + b;
      FairConcat(g, Platform.Apply(w, a[0]), a[1..], b);
    }
  }

  lemma {:induction false} FairOne(g: Game, w: World, step: Step)
    requires Fair(g, w.tables, step)
    ensures FairRun(g, w, [step])
  {
    hide Platform.Apply, Fair, Accepted;
    assert [step][1..] == [];
  }

  lemma {:induction false} TurnFair(g: Game, t: Tables, i: nat, done: seq<nat>, turn: Turn)
    requires Begun(g) && At(g, t, i, done) && turn.user in g.listing
    requires (g.circle, i + 1) in g.start.schedules && turn.now <= g.start.schedules[(g.circle, i + 1)].deadline
    ensures Fair(g, t, Contribute(turn.now, turn.user, g.circle, i + 1))
  {
    hide Begun, Inv, Fairness.Paying, Money;
  }

  lemma {:induction false} TurnsFair(g: Game, t: Tables, i: nat, order: seq<Turn>, whole: seq<Turn>)
    requires Begun(g) && AllAfford(g) && At(g, t, i, []) && i < |g.listing|
    requires OnTime(g, i + 1, whole) && order <= whole
    ensures FairRun(g, World(t, g.history), Turns(g.circle, i + 1, order))
    decreases |order|
  {
    hide Begun, At, AllAfford, OnTime, Platform.Apply, Platform.Run, Fair, Turns, Users;
    var w := World(t, g.history);
    if |order| == 0 {
      assert Turns(g.circle, i + 1, order) == [];
    } else {
      var front, turn := order[..|order| - 1], order[|order| - 1];
      TurnsFair(g, t, i, front, whole);
      TurnsRun(g, t, i, front, whole);
      LastTurn(g, i + 1, order, whole);
      var step := Contribute(turn.now, turn.user, g.circle, i + 1);
      var before := Platform.Run(w, Turns(g.circle, i + 1, front));
      TurnFair(g, before.tables, i, Users(front), turn);
      FairOne(g, before, step);
      FairConcat(g, w, Turns(g.circle, i + 1, front), [step]);
    }
  }

  lemma {:induction false} PayoutFairAt(g: Game, t: Tables, i: nat, done: seq<nat>)
    requires Begun(g) && At(g, t, i, done) && i < |g.listing| && forall u :: u in g.listing ==> u in done
    ensures Fair(g, t, Payout(g.circle, i + 1))
  {
    hide Begun, Inv, Money, HasContributed, HasPayout, Pot;
    forall u | u in g.listing ensures PaidIn(g, t, u, i + 1) {
      EverybodyPlays(g, u);
      assert HasPaidIn(g, t, u, i + 1);
    }
  }

  lemma {:induction false} RoundFair(g: Game, t: Tables, i: nat, order: seq<Turn>)
    requires Begun(g) && AllAfford(g) && At(g, t, i, []) && i < |g.listing| && OnTime(g, i + 1, order)
    ensures FairRun(g, World(t, g.history), Turns(g.circle, i + 1, order) + [Payout(g.circle, i + 1)])
  {
    hide Begun, At, AllAfford, Platform.Apply, Fair, OnTime;
    var steps, users, w := Turns(g.circle, i + 1, order), Users(order), World(t, g.history);
    OrderCovers(g, i + 1, order);
    TurnsFair(g, t, i, order, order);
    TurnsRun(g, t, i, order, order);
    var full := Platform.Run(w, steps);
    PayoutFairAt(g, full.tables, i, users);
    FairOne(g, full, Payout(g.circle, i + 1));
    FairConcat(g, w, steps, [Payout(g.circle, i + 1)]);
  }

  /** Rounds of on-time contributions, each followed by its payout, are a fair run. */
  lemma {:induction false} RoundsAreFair(g: Game, orders: seq<seq<Turn>>)
    requires Begun(g) && AllAfford(g) && |orders| <= |g.listing|
    requires forall i :: 0 <= i < |orders| ==> OnTime(g, i + 1, orders[i])
    ensures FairRun(g, World(g.start, g.history), Rounds(g.circle, orders))
    decreases |orders|
  {
    hide Begun, AllAfford, At, Finished, OnTime, Fair, Accepted;
    if |orders| > 0 {
      var last := |orders| - 1;
      RoundsAreFair(g, orders[..last]);
      RoundsRun(g, orders[..last]);
      var w := World(g.start, g.history);
      var before := Platform.Run(w, Rounds(g.circle, orders[..last]));
      RoundFair(g, before.tables, last, orders[last]);
      FairConcat(g, w, Rounds(g.circle, orders[..last]),
        Turns(g.circle, last + 1, orders[last]) + [Payout(g.circle, last + 1)]);
    }
  }

  // ----- A circle of any size, from nothing ------------------------------------------------------------------------

  function Proposal(n: nat, c: int): CircleRow {
    CircleRow(0, c, C.Monthly, 0, n, 0, false, Sorter.PayoutLogic.Sequential, CircleStatus.Draft)
  }

  function Deposit(n: nat, c: nat): A.Op {
    A.SnapshotCredit(n * c + c, Settled(FundingCard, 0), SourceType.Transaction, Row(0))
  }

  /** User u opens a wallet, funds it, asks to join, and is let in. */
  function Enlist(u: nat, n: nat, c: nat): seq<Step> {
    [OpenWallet(u), External(u, Deposit(n, c)), Join(0, u, 0), Approve(0, 0, u)]
  }

  function Gathering(n: nat, c: nat, k: nat): seq<Step> {
    if k == 0 then [Create({0}, 0, Proposal(n, c))] else Gathering(n, c, k - 1) + Enlist(k - 1, n, c)
  }

  ghost predicate Funded(ws: Wallets, u: nat, least: int) {
    Of(u) in ws && Available(ws[Of(u)]) >= least
  }

  /** The first k users are in, and each of them has n contributions at hand. */
  ghost predicate Gathered(t: Tables, n: nat, c: nat, k: nat) {
    && 0 in t.circles && t.circles[0] == Proposal(n, c).(filledSlots := k) && t.loans == []
    && (forall u: nat :: (0, u) in t.members <==> u < k)
    && (forall u: nat :: u < k ==> t.members[(0, u)].status.Active?)
    && (forall u: nat :: u < k ==> Funded(t.wallets, u, n * c))
    && (forall u: nat :: u >= k ==> Of(u) !in t.wallets)
  }

  lemma {:induction false} CreditedWallet(n: nat, c: nat)
    ensures A.Attempt(Wallet([], map[]), Deposit(n, c)).Success?
    ensures Available(A.Attempt(Wallet([], map[]), Deposit(n, c)).value) == n * c + c
  {
  }

  lemma {:induction false} TwoSteps(w: World, s: Step, rest: seq<Step>)
    ensures Platform.Run(w, [s] + rest) == Platform.Run(Platform.Apply(w, s), rest)
  {
    hide Platform.Apply;
    RunConcat(w, [s], rest);
    RunOne(w, s);
  }

  lemma {:induction false} FundingRuns(w: World, n: nat, c: nat, k: nat)
    requires Gathered(w.tables, n, c, k)
    ensures var t := w.tables;
      var w' := Platform.Apply(Platform.Apply(w, OpenWallet(k)), External(k, Deposit(n, c)));
      && w'.tables == t.(wallets := w'.tables.wallets) && Funded(w'.tables.wallets, k, n * c + c)
      && (forall id :: id != Of(k) ==> (id in t.wallets <==> id in w'.tables.wallets))
      && (forall id :: id != Of(k) && id in t.wallets ==> w'.tables.wallets[id] == t.wallets[id])
  {
    hide A.Attempt, Available;
    CreditedWallet(n, c);
    assert Of(k) !in w.tables.wallets;
    hide Gathered;
    var holder := Platform.Apply(w, OpenWallet(k));
    assert holder.tables.wallets == w.tables.wallets[Of(k) := Wallet([], map[])];
  }

  lemma {:induction false} JoiningRuns(w: World, n: nat, c: nat, k: nat)
    requires Inv(w) && c >= 10 && k < n
    requires 0 in w.tables.circles && w.tables.circles[0] == Proposal(n, c).(filledSlots := k)
    requires (0, k) !in w.tables.members && Funded(w.tables.wallets, k, n * c + c)
    ensures var t := w.tables;
      var t' := Platform.Apply(Platform.Apply(w, Join(0, k, 0)), Approve(0, 0, k)).tables;
      && t'.circles == t.circles[0 := Proposal(n, c).(filledSlots := k + 1)]
      && t'.members.Keys == t.members.Keys + {(0, k)} && t'.members[(0, k)].status.Active?
      && (forall m :: m in t.members ==> t'.members[m] == t.members[m])
      && t'.wallets.Keys == t.wallets.Keys && Funded(t'.wallets, k, n * c) && t'.loans == t.loans
      && (forall id :: id in t.wallets && id != Of(k) ==> t'.wallets[id] == t.wallets[id])
  {
    hide Inv, Funded, Platform.Apply;
    RequestRuns(w, n, c, k);
    ApprovalRuns(Platform.Apply(w, Join(0, k, 0)), n, c, k);
  }

  lemma {:induction false} RequestRuns(w: World, n: nat, c: nat, k: nat)
    requires Inv(w) && c >= 10 && k < n
    requires 0 in w.tables.circles && w.tables.circles[0] == Proposal(n, c).(filledSlots := k)
    requires (0, k) !in w.tables.members && Funded(w.tables.wallets, k, n * c + c)
    ensures var t, t' := w.tables, Platform.Apply(w, Join(0, k, 0)).tables;
      && t'.circles == t.circles && t'.loans == t.loans
      && t'.members.Keys == t.members.Keys + {(0, k)}
      && (forall m :: m in t.members ==> t'.members[m] == t.members[m])
      && t'.wallets.Keys == t.wallets.Keys && Funded(t'.wallets, k, n * c)
      && (forall id :: id in t.wallets && id != Of(k) ==> t'.wallets[id] == t.wallets[id])
  {
    hide Inv, Available, Write;
    JoinExactly(w.tables, w.history, 0, k, 0, c / 10);
    assert Platform.Apply(w, Join(0, k, 0)).tables == RequestToJoin(w.tables, 0, k, 0).value;
  }

  lemma {:induction false} ApprovalRuns(w: World, n: nat, c: nat, k: nat)
    requires 0 in w.tables.circles && w.tables.circles[0] == Proposal(n, c).(filledSlots := k)
    requires (0, k) in w.tables.members
    ensures var t, t' := w.tables, Platform.Apply(w, Approve(0, 0, k)).tables;
      && t'.circles == t.circles[0 := Proposal(n, c).(filledSlots := k + 1)] && t'.loans == t.loans
      && t'.members.Keys == t.members.Keys && t'.members[(0, k)].status.Active?
      && (forall m :: m in t.members && m != (0, k) ==> t'.members[m] == t.members[m])
      && t'.wallets == t.wallets
  {
    assert Platform.Attempt(w.tables, Approve(0, 0, k)).Success?;
  }

  lemma {:induction false} EnlistRuns(w: World, n: nat, c: nat, k: nat)
    requires Inv(w) && c >= 10 && k < n && Gathered(w.tables, n, c, k)
    ensures Gathered(Platform.Run(w, Enlist(k, n, c)).tables, n, c, k + 1)
  {
    hide Inv, Platform.Apply, Funded;
    var s := Enlist(k, n, c);
    FundingRuns(w, n, c, k);
    var w1 := Platform.Apply(w, s[0]);
    var w2 := Platform.Apply(w1, s[1]);
    StepKeeps(w, s[0]);
    StepKeeps(w1, s[1]);
    JoiningRuns(w2, n, c, k);
    TwoSteps(w, s[0], s[1..]);
    TwoSteps(w1, s[1], s[2..]);
    TwoSteps(w2, s[2], s[3..]);
    RunOne(Platform.Apply(w2, s[2]), s[3]);
    assert s == [s[0]] + s[1..] && s[1..] == [s[1]] + s[2..] && s[2..] == [s[2]] + s[3..] && s[3..] == [s[3]];
    var t, t2, t4 := w.tables, w2.tables, Platform.Run(w, s).tables;
    forall u: nat
      ensures (0, u) in t4.members <==> u < k + 1
      ensures u < k + 1 ==> t4.members[(0, u)].status.Active? && Funded(t4.wallets, u, n * c)
      ensures u >= k + 1 ==> Of(u) !in t4.wallets
    {
      if u < k {
        assert t4.wallets[Of(u)] == t2.wallets[Of(u)] == t.wallets[Of(u)] by {
          StillFunded(t.wallets, u, n * c);
        }
        SameFunds(t.wallets, t4.wallets, u, n * c);
      }
    }
  }

  lemma {:induction false} StillFunded(ws: Wallets, u: nat, least: int)
    requires Funded(ws, u, least)
    ensures Of(u) in ws
  {
    hide Available;
  }

  lemma {:induction false} SameFunds(ws: Wallets, ws': Wallets, u: nat, least: int)
    requires Funded(ws, u, least) && Of(u) in ws' && ws'[Of(u)] == ws[Of(u)]
    ensures Funded(ws', u, least)
  {
    hide Available;
  }

  lemma {:induction false} GatheringRuns(n: nat, c: nat, k: nat)
    requires c >= 10 && k <= n
    ensures Gathered(Reached(Gathering(n, c, k)).tables, n, c, k)
    decreases k
  {
    hide Inv, Gathered, Platform.Apply;
    if k == 0 {
      RunOne(Genesis(), Create({0}, 0, Proposal(n, c)));
      FirstStep(n, c);
    } else {
      GatheringRuns(n, c, k - 1);
      ReachedInv(Gathering(n, c, k - 1));
      EnlistRuns(Reached(Gathering(n, c, k - 1)), n, c, k - 1);
      RunConcat(Genesis(), Gathering(n, c, k - 1), Enlist(k - 1, n, c));
    }
  }

  lemma {:induction false} FirstStep(n: nat, c: nat)
    requires c >= 10
    ensures Gathered(Platform.Apply(Genesis(), Create({0}, 0, Proposal(n, c))).tables, n, c, 0)
  {
    hide Available;
  }

  // ----- The circle plays --------------------------------------------------------------------------------------------

  function FirstUsers(n: nat): (users: seq<nat>)
    ensures |users| == n && forall i :: 0 <= i < n ==> users[i] == i
  {
    seq(n, i requires 0 <= i < n => i)
  }

  lemma {:induction false} FirstUsersListed(n: nat)
    ensures Sorter.Distinct(FirstUsers(n))
    ensures forall u: nat :: u in FirstUsers(n) <==> u < n
  {
    forall u: nat | u < n ensures u in FirstUsers(n) {
      assert FirstUsers(n)[u] == u;
    }
  }

  /** On the first day of the calendar, with nothing to draw or to look up. */
  function Kickoff(n: nat): Activation {
    Activation(0, 0, C.Date(0, 1), 0, FirstUsers(n), map[], seq(n, i => 0))
  }

  lemma {:induction false} KickoffWorks(t: Tables, n: nat, c: nat)
    requires Gathered(t, n, c, n)
    ensures Ready(t, Kickoff(n)) && ActivateCircle(t, Kickoff(n)).Success?
    ensures var t' := ActivateCircle(t, Kickoff(n)).value;
      && t'.wallets == t.wallets && t'.loans == [] && 0 in t'.circles
      && t'.circles[0].amount == c && t'.circles[0].filledSlots == n
  {
    hide Rows, Order, Positioned, Scheduled, Assigned, Unrepeated, Funded;
    var a := Kickoff(n);
    FirstUsersListed(n);
    assert C.DayNumber(a.first) == 0;
  }

  /** Everybody takes a turn in every cycle, right on the deadline. */
  ghost function Schedule(g: Game, cycle: int): (order: seq<Turn>)
    requires (g.circle, cycle) in g.start.schedules
    ensures |order| == |g.listing|
    ensures forall i :: 0 <= i < |order| ==>
      order[i] == Turn(g.listing[i], g.start.schedules[(g.circle, cycle)].deadline)
  {
    var deadline := g.start.schedules[(g.circle, cycle)].deadline;
    seq(|g.listing|, i requires 0 <= i < |g.listing| => Turn(g.listing[i], deadline))
  }

  ghost predicate Timetabled(g: Game) {
    forall i :: 1 <= i <= |g.listing| ==> (g.circle, i) in g.start.schedules
  }

  ghost function Timetable(g: Game): (orders: seq<seq<Turn>>)
    requires Timetabled(g)
    ensures |orders| == |g.listing|
    ensures forall i :: 0 <= i < |orders| ==> orders[i] == Schedule(g, i + 1)
  {
    seq(|g.listing|, i requires 0 <= i < |g.listing| => Schedule(g, i + 1))
  }

  lemma {:induction false} HasTimetable(g: Game)
    requires Begun(g)
    ensures Timetabled(g)
  {
    hide Begun;
    forall i | 1 <= i <= |g.listing| ensures (g.circle, i) in g.start.schedules {
      CycleRecipient(g, i);
    }
  }

  lemma {:induction false} TimetableOnTime(g: Game)
    requires Timetabled(g)
    ensures forall i :: 0 <= i < |Timetable(g)| ==> OnTime(g, i + 1, Timetable(g)[i])
  {
    hide Users;
    forall i | 0 <= i < |Timetable(g)| ensures OnTime(g, i + 1, Timetable(g)[i]) {
      assert Users(Schedule(g, i + 1)) == g.listing;
    }
  }

  lemma {:induction false} EverybodyFunded(g: Game, t: Tables, n: nat, c: nat)
    requires Begun(g) && Gathered(t, n, c, n) && g.start.wallets == t.wallets && g.listing == FirstUsers(n)
    requires g.circle in g.start.circles && Amount(g) == c
    ensures AllAfford(g)
  {
    hide Begun, Affords, Plays, Available;
    forall u | u in g.listing ensures Plays(g, u) && Affords(g, u) {
      assert Funded(t.wallets, u, n * c);
      FullPotIsEnough(g, u);
    }
  }

  /** The circle of n users right after its activation. */
  ghost function Opened(n: nat, c: nat): Game
    requires c >= 10
  {
    GatheringRuns(n, c, n);
    KickoffWorks(Reached(Gathering(n, c, n)).tables, n, c);
    GameOf(Gathering(n, c, n), Kickoff(n))
  }

  function Opening(n: nat, c: nat): seq<Step> {
    Gathering(n, c, n) + [Step.Activate(Kickoff(n))]
  }

  lemma {:induction false} OpeningRuns(n: nat, c: nat)
    requires n > 0 && c >= 10
    ensures var g := Opened(n, c);
      && Begun(g) && AllAfford(g) && Timetabled(g) && g.circle == 0 && |g.listing| == n
      && Reached(Opening(n, c)) == World(g.start, g.history)
      && g.start.loans == [] && 0 in g.start.circles
      && g.start.circles[0].amount == c && g.start.circles[0].filledSlots == n
  {
    hide Inv, Begun, Gathered, Recorded, Ready, ActivateCircle, AllAfford, Timetabled, Platform.Run, Platform.Apply;
    var past, a := Gathering(n, c, n), Kickoff(n);
    GatheringRuns(n, c, n);
    var w := Reached(past);
    KickoffWorks(w.tables, n, c);
    ReachedInv(past);
    ReachedRecords(past);
    var g := Opened(n, c);
    ActivationBegins(w.tables, g.history, a);
    EverybodyFunded(g, w.tables, n, c);
    HasTimetable(g);
    RunConcat(Genesis(), past, [Step.Activate(a)]);
    RunOne(w, Step.Activate(a));
    ActivationApplied(w, a);
  }

  /** For every size n and every amount that can be joined there is a fair run: from an empty platform, n users
      fund a wallet and join a circle, which then plays n rounds to the end. */
  lemma {:induction false} FairRunsExist(n: nat, c: nat)
    requires n > 0 && c >= 10
    ensures exists past, a, steps ::
      PlayedFairly(past, a, steps) && |a.listing| == n && Reached(past).tables.circles[a.circle].amount == c
  {
    hide Inv, Begun, Gathered, Ready, ActivateCircle, AllAfford, Schedule, Timetabled, FairRun, HasPayout, OnTime,
         Finished;
    var past, a := Gathering(n, c, n), Kickoff(n);
    GatheringRuns(n, c, n);
    var t := Reached(past).tables;
    KickoffWorks(t, n, c);
    OpeningRuns(n, c);
    hide Reached;
    var g := GameOf(past, a);
    TimetableOnTime(g);
    var steps := Rounds(g.circle, Timetable(g));
    RoundsAreFair(g, Timetable(g));
    RoundsRun(g, Timetable(g));
    FinishedPays(g, Platform.Run(World(g.start, g.history), steps).tables);
    assert PlayedFairly(past, a, steps);
    ProposalStands(t, n, c);
  }

  lemma {:induction false} ProposalStands(t: Tables, n: nat, c: nat)
    requires Gathered(t, n, c, n)
    ensures 0 in t.circles && t.circles[0].amount == c
  {
    hide Funded;
  }

  lemma {:induction false} FinishedPays(g: Game, t: Tables)
    requires Finished(g, t) && |g.listing| > 0
    ensures HasPayout(t.payouts, g.circle, |g.listing|)
  {
    hide HasPayout, Released, Balance, Fee;
  }
}
