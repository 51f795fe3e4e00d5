/** A circle played in rounds: what its members need at hand for every step to go through. */
module Fairness {
  import opened Wrappers
  import opened Ledger
  import opened Tables
  import opened Contributions
  import opened Loans
  import opened Payouts
  import opened Circles
  import opened Platform
  import opened Preservation
  import opened Runs
  import opened Guarantees
  import opened Theorems
  import opened Frames
  import opened Records
  import opened Outcomes
  import C = Calendar
  import Sorter

  // ----- The run -----------------------------------------------------------------------------------------

  datatype Turn = Turn(user: nat, now: int)

  function Users(order: seq<Turn>): (users: seq<nat>)
    ensures |users| == |order|
    ensures forall i :: 0 <= i < |order| ==> users[i] == order[i].user
  {
    seq(|order|, i requires 0 <= i < |order| => order[i].user)
  }

  function Turns(circle: nat, cycle: int, order: seq<Turn>): (steps: seq<Step>)
    ensures |steps| == |order|
    ensures forall i :: 0 <= i < |order| ==> steps[i] == Contribute(order[i].now, order[i].user, circle, cycle)
  {
    seq(|order|, i requires 0 <= i < |order| => Contribute(order[i].now, order[i].user, circle, cycle))
  }

  /** Everyone's contribution, in the order of the turns, then the payout; one round after another. */
  function Rounds(circle: nat, orders: seq<seq<Turn>>): seq<Step> {
    if |orders| == 0 then []
    else
      var last := |orders| - 1;
      Rounds(circle, orders[..last]) + (Turns(circle, last + 1, orders[last]) + [Payout(circle, last + 1)])
  }

  // ----- The circle it starts from -----------------------------------------------------------------------

  /** The tables right after activation, with the history that led there. */
  datatype Game = Game(start: Tables, history: History, circle: nat, listing: seq<nat>)

  ghost predicate Begun(g: Game) {
    && Inv(World(g.start, g.history))
    && g.circle in g.start.circles
    && g.start.circles[g.circle].status.Active?
    && g.start.circles[g.circle].durationCycles == |g.listing| > 0
    && Listing(g.start, g.circle, g.listing)
    && (forall i: nat :: 1 <= i <= |g.listing| ==>
         CyclePaysItsMember(g.start, g.circle, i) && Opens(g.start, g.circle, i))
    && (forall u :: u in g.listing ==> MemberHasTheirCycle(g.start, g.circle, |g.listing|, u))
    && (forall i :: 0 <= i < |g.start.contributions| ==> g.start.contributions[i].circle != g.circle)
    && (forall i :: 0 <= i < |g.start.payouts| ==> g.start.payouts[i].circle != g.circle)
    && (forall i :: 0 <= i < |g.start.loans| ==> g.start.loans[i].circle != g.circle)
  }

  /** There is time to pay in before the cycle pays out. */
  predicate Opens(t: Tables, circle: nat, cycle: int) {
    (circle, cycle) in t.schedules && t.schedules[(circle, cycle)].deadline < t.schedules[(circle, cycle)].payoutDate
  }

  function Amount(g: Game): int
    requires g.circle in g.start.circles
  {
    g.start.circles[g.circle].amount
  }

  /** The platform's 2% of one full pot, rounded down. */
  function Fee(g: Game): int
    requires g.circle in g.start.circles
  {
    2 * |g.listing| * Amount(g) / 100
  }

  predicate Plays(g: Game, u: nat) {
    g.circle in g.start.circles && (g.circle, u) in g.start.members && g.start.members[(g.circle, u)].position.Some?
    && Of(u) in g.start.wallets
  }

  /** The cycle a member is paid in. */
  function Spot(g: Game, u: nat): int
    requires Plays(g, u)
  {
    g.start.members[(g.circle, u)].position.value
  }

  /** Enough to pay in up to and including one's own cycle, and to cover the fee. */
  ghost predicate Affords(g: Game, u: nat)
    requires Plays(g, u)
  {
    && Available(g.start.wallets[Of(u)]) >= Spot(g, u) * Amount(g)
    && Available(g.start.wallets[Of(u)]) >= Fee(g)
  }

  /** In a round every member takes one turn, no later than the deadline. */
  ghost predicate OnTime(g: Game, cycle: int, order: seq<Turn>) {
    && multiset(Users(order)) == multiset(g.listing)
    && (g.circle, cycle) in g.start.schedules
    && (forall i :: 0 <= i < |order| ==> order[i].now <= g.start.schedules[(g.circle, cycle)].deadline)
  }

  lemma {:induction false} EverybodyPlays(g: Game, u: nat)
    requires Begun(g) && u in g.listing
    ensures Plays(g, u) && 1 <= Spot(g, u) <= |g.listing|
    ensures g.start.members[(g.circle, u)].status.Active?
    ensures (g.circle, Spot(g, u)) in g.start.schedules
    ensures g.start.schedules[(g.circle, Spot(g, u))].recipient == Some(u)
    ensures g.start.members[(g.circle, u)].id.Member? && g.start.members[(g.circle, u)].id.user == u
    ensures Amount(g) > 0
  {
    hide WalletsInv, PoolInv, LoansInv, Conserved, CyclePaysItsMember;
    assert GoodMember(g.start, g.history, (g.circle, u));
  }

  lemma {:induction false} CycleRecipient(g: Game, i: nat)
    requires Begun(g) && 1 <= i <= |g.listing|
    ensures (g.circle, i) in g.start.schedules && g.start.schedules[(g.circle, i)].recipient.Some?
    ensures var r := g.start.schedules[(g.circle, i)].recipient.value;
      r in g.listing && Plays(g, r) && Spot(g, r) == i
    ensures g.start.schedules[(g.circle, i)].deadline < g.start.schedules[(g.circle, i)].payoutDate
  {
    hide Inv;
    assert CyclePaysItsMember(g.start, g.circle, i) && Opens(g.start, g.circle, i);
    EverybodyPlays(g, g.start.schedules[(g.circle, i)].recipient.value);
  }

  // ----- Where the run stands ----------------------------------------------------------------------------

  /** What i full rounds, and a contribution to the next one, have done to a member's balance. */
  function Share(g: Game, u: nat, i: nat, paid: bool): int
    requires Plays(g, u)
  {
    (if Spot(g, u) <= i then |g.listing| * Amount(g) - Fee(g) else 0) - i * Amount(g) - if paid then Amount(g) else 0
  }

  predicate SameMember(m: MembershipRow, m': MembershipRow) {
    && m'.id == m.id && m'.status == m.status && m'.position == m.position
    && m'.released == m.released && m'.collateral == m.collateral
  }

  ghost predicate Setting(g: Game, t: Tables) {
    && t.circles == g.start.circles && t.loans == g.start.loans
    && t.members.Keys == g.start.members.Keys
    && (forall k :: k in t.members ==> SameMember(g.start.members[k], t.members[k]))
    && t.schedules.Keys == g.start.schedules.Keys
    && (forall k :: k in t.schedules ==> SameSchedule(g.start.schedules[k], t.schedules[k]))
  }

  predicate HasPaidIn(g: Game, t: Tables, u: nat, k: int)
    requires (g.circle, u) in g.start.members
  {
    HasContributed(t.contributions, g.circle, g.start.members[(g.circle, u)].id, k)
  }

  /** After i rounds, with the members of done through in the next. */
  ghost predicate Paying(g: Game, t: Tables, i: nat, done: seq<nat>) {
    && g.circle in g.start.circles
    && (forall k :: HasPayout(t.payouts, g.circle, k) <==> 1 <= k <= i)
    && (forall u :: u in g.listing ==> Plays(g, u))
    && (forall u, k :: u in g.listing ==> (HasPaidIn(g, t, u, k) <==> 1 <= k <= i || (k == i + 1 && u in done)))
    && Pot(t.contributions, g.circle, i + 1) == |done| * Amount(g)
    && (forall k :: k > i + 1 ==> Pot(t.contributions, g.circle, k) == 0)
  }

  ghost predicate Money(g: Game, t: Tables, i: nat, done: seq<nat>) {
    && g.circle in g.start.circles
    && SameBuckets(g.start.wallets, t.wallets) && Pool in g.start.wallets
    && (forall u :: u in g.listing ==> Plays(g, u))
    && (forall u :: u in g.listing ==>
          Balance(t.wallets[Of(u)]) == Balance(g.start.wallets[Of(u)]) + Share(g, u, i, u in done))
    && Balance(t.wallets[Pool]) == Balance(g.start.wallets[Pool]) + i * Fee(g) + |done| * Amount(g)
  }

  ghost predicate At(g: Game, t: Tables, i: nat, done: seq<nat>) {
    Inv(World(t, g.history)) && Setting(g, t) && Paying(g, t, i, done) && Money(g, t, i, done)
  }

  // ----- One contribution --------------------------------------------------------------------------------

  /** An on-time contribution by a member who can afford it goes through, without a penalty. */
  lemma {:induction false} ContributeSucceeds(t: Tables, h: History, now: int, user: nat, circle: nat, cycle: int)
    requires Inv(World(t, h)) && circle in t.circles && t.circles[circle].status.Active?
    requires (circle, user) in t.members && t.members[(circle, user)].status.Active?
    requires (circle, cycle) in t.schedules
    requires now <= t.schedules[(circle, cycle)].deadline < t.schedules[(circle, cycle)].payoutDate
    requires !HasContributed(t.contributions, circle, t.members[(circle, user)].id, cycle)
    requires Of(user) in t.wallets && Available(t.wallets[Of(user)]) >= t.circles[circle].amount
    ensures MakeContribution(t, now, user, circle, cycle).Success?
    ensures var t' := MakeContribution(t, now, user, circle, cycle).value;
      var m, amount := t.members[(circle, user)], t.circles[circle].amount;
      && t' == t.(wallets := t'.wallets, draws := t.draws + 1,
           members := t.members[(circle, user) := Contributed(m, false, 0)],
                  contributions := t.contributions + [ContributionRow(circle, user, m.id, cycle, amount, 0)])
      && SameBuckets(t.wallets, t'.wallets) && Pool in t.wallets
      && Balance(t'.wallets[Of(user)]) == Balance(t.wallets[Of(user)]) - amount
      && Balance(t'.wallets[Pool]) == Balance(t.wallets[Pool]) + amount
      && (forall o :: o in t.wallets && o != Pool && o != Of(user) ==> t'.wallets[o] == t.wallets[o])
  {
    hide Balance, Available, HasContributed, Collect, PoolInv, LoansInv, Conserved, GoodMember, GoodBucket, GoodRefund;
    AmountsPositive(t, h);
    PoolExists(t, h);
    CollectExactly(t.wallets, user, t.circles[circle].amount, 0, t.draws);
    CollectKeeps(t.wallets, user, t.circles[circle].amount, 0, t.draws,
      MakeContribution(t, now, user, circle, cycle).value.wallets);
  }

  lemma {:induction false} ContributedAppend(rows: seq<ContributionRow>, row: ContributionRow, circle: nat,
      member: SourceId, cycle: int)
    ensures HasContributed(rows + [row], circle, member, cycle) <==>
      HasContributed(rows, circle, member, cycle) || (ForCycle(row, circle, cycle) && row.member == member)
    ensures Pot(rows + [row], circle, cycle) ==
      Pot(rows, circle, cycle) + if ForCycle(row, circle, cycle) then Paid(row) else 0
  {
    var after := rows + [row];
    assert after[|rows|] == row && after[..|rows|] == rows;
    forall i | 0 <= i < |rows| ensures after[i] == rows[i] {
    }
  }

  lemma {:induction false} FeeBounds(n: nat, amount: int)
    requires n > 0 && amount > 0
    ensures 0 < n * amount
    ensures 0 <= 2 * n * amount / 100 <= n * amount
    ensures 2 * n * amount / 100 == FeeOn(n * amount, false)
  {
    assert 2 * n * amount == n * amount * 2;
  }

  lemma {:induction false} AtLeastOne(a: int, b: int, x: int)
    requires a > b && x > 0
    ensures a * x >= b * x + x
  {
    assert (a - b - 1) * x >= 0;
    assert (a - b - 1) * x == a * x - b * x - x;
  }

  lemma {:induction false} CanPayIn(available: int, spot: int, i: nat, n: nat, amount: int, fee: int)
    requires amount > 0 && 1 <= spot <= n && i < n
    requires available >= spot * amount && available >= fee
    ensures available + (if spot <= i then n * amount - fee else 0) - i * amount >= amount
  {
    AtLeastOne(if spot <= i then n else spot, i, amount);
  }

  /** Members who afford it always have the next contribution at hand. */
  lemma {:induction false} CanTakeTurn(g: Game, t: Tables, i: nat, done: seq<nat>, u: nat)
    requires Begun(g) && Money(g, t, i, done) && i < |g.listing|
    requires u in g.listing && u !in done && Plays(g, u) && Affords(g, u)
    ensures Of(u) in t.wallets && Available(t.wallets[Of(u)]) >= Amount(g)
  {
    hide Begun, Balance, Fee;
    EverybodyPlays(g, u);
    SameBucketsAvailable(g.start.wallets[Of(u)], t.wallets[Of(u)]);
    CanPayIn(Available(g.start.wallets[Of(u)]), Spot(g, u), i, |g.listing|, Amount(g), Fee(g));
    hide Available;
  }

  lemma {:induction false} IdOf(g: Game, u: nat, v: nat)
    requires Begun(g) && u in g.listing && v in g.listing && u != v
    ensures (g.circle, u) in g.start.members && (g.circle, v) in g.start.members
    ensures g.start.members[(g.circle, u)].id != g.start.members[(g.circle, v)].id
  {
    hide Begun;
    EverybodyPlays(g, u);
    EverybodyPlays(g, v);
  }

  /** What one more contribution row changes. */
  lemma {:induction false} TurnPaying(g: Game, t: Tables, i: nat, done: seq<nat>, u: nat, row: ContributionRow,
      t': Tables)
    requires Begun(g) && Paying(g, t, i, done) && u in g.listing && u !in done && Plays(g, u)
    requires row == ContributionRow(g.circle, u, g.start.members[(g.circle, u)].id, i + 1, Amount(g), 0)
    requires t'.contributions == t.contributions + [row] && t'.payouts == t.payouts
    ensures Paying(g, t', i, done + [u])
  {
    hide Begun, HasContributed, HasPayout, Pot;
    forall v, k | v in g.listing
      ensures Plays(g, v) && (HasPaidIn(g, t', v, k) <==> 1 <= k <= i || (k == i + 1 && v in done + [u]))
    {
      ContributedAppend(t.contributions, row, g.circle, g.start.members[(g.circle, v)].id, k);
      if v != u {
        IdOf(g, u, v);
      }
      assert HasPaidIn(g, t, v, k) <==> 1 <= k <= i || (k == i + 1 && v in done);
    }
    forall k
      ensures Pot(t'.contributions, g.circle, k)
        == Pot(t.contributions, g.circle, k) + if k == i + 1 then Amount(g) else 0
    {
      ContributedAppend(t.contributions, row, g.circle, row.member, k);
    }
  }

  lemma {:induction false} TurnMoney(g: Game, t: Tables, i: nat, done: seq<nat>, u: nat, t': Tables)
    requires Begun(g) && Money(g, t, i, done) && u in g.listing && u !in done && Plays(g, u)
    requires SameBuckets(t.wallets, t'.wallets)
    requires Of(u) in t.wallets && Balance(t'.wallets[Of(u)]) == Balance(t.wallets[Of(u)]) - Amount(g)
    requires Pool in t.wallets && Balance(t'.wallets[Pool]) == Balance(t.wallets[Pool]) + Amount(g)
    requires forall o :: o in t.wallets && o != Pool && o != Of(u) ==> t'.wallets[o] == t.wallets[o]
    ensures Money(g, t', i, done + [u])
  {
    hide Begun, Balance, Fee;
    forall v | v in g.listing
      ensures Plays(g, v)
      ensures Balance(t'.wallets[Of(v)]) == Balance(g.start.wallets[Of(v)]) + Share(g, v, i, v in done + [u])
    {
      assert Of(v) in t.wallets;
    }
  }

  lemma {:induction false} TurnKeeps(g: Game, t: Tables, i: nat, done: seq<nat>, turn: Turn)
    requires Begun(g) && At(g, t, i, done) && i < |g.listing|
    requires turn.user in g.listing && turn.user !in done && Plays(g, turn.user) && Affords(g, turn.user)
    requires (g.circle, i + 1) in g.start.schedules && turn.now <= g.start.schedules[(g.circle, i + 1)].deadline
    ensures var r := MakeContribution(t, turn.now, turn.user, g.circle, i + 1);
      r.Success? && At(g, r.value, i, done + [turn.user])
  {
    hide Begun, Inv, MakeContribution, Affords, HasContributed, Setting, Money, Paying, SameBuckets, Balance;
    var u := turn.user;
    EverybodyPlays(g, u);
    CycleRecipient(g, i + 1);
    CanTakeTurn(g, t, i, done, u);
    GameActive(g);
    SameTable(g, t, u, i + 1);
    NotYet(g, t, i, done, u);
    ContributeSucceeds(t, g.history, turn.now, u, g.circle, i + 1);
    var t' := MakeContribution(t, turn.now, u, g.circle, i + 1).value;
    ContributeKeeps(t, g.history, turn.now, u, g.circle, i + 1, t');
    TurnSetting(g, t, u, t');
    TurnPaying(g, t, i, done, u, t'.contributions[|t.contributions|], t');
    TurnMoney(g, t, i, done, u, t');
  }

  lemma {:induction false} SameTable(g: Game, t: Tables, u: nat, k: int)
    requires Setting(g, t) && g.circle in g.start.circles
    requires (g.circle, u) in g.start.members && (g.circle, k) in g.start.schedules
    ensures t.circles == g.start.circles && t.loans == g.start.loans
    ensures (g.circle, u) in t.members && SameMember(g.start.members[(g.circle, u)], t.members[(g.circle, u)])
    ensures (g.circle, k) in t.schedules
    ensures SameSchedule(g.start.schedules[(g.circle, k)], t.schedules[(g.circle, k)])
  {
  }

  lemma {:induction false} TurnSetting(g: Game, t: Tables, u: nat, t': Tables)
    requires Setting(g, t) && (g.circle, u) in t.members
    requires t'.members == t.members[(g.circle, u) := Contributed(t.members[(g.circle, u)], false, 0)]
    requires t'.circles == t.circles && t'.loans == t.loans && t'.schedules == t.schedules
    ensures Setting(g, t')
  {
  }

  lemma {:induction false} NotYet(g: Game, t: Tables, i: nat, done: seq<nat>, u: nat)
    requires Paying(g, t, i, done) && Setting(g, t) && u in g.listing && u !in done && Plays(g, u)
    ensures (g.circle, u) in t.members && !HasContributed(t.contributions, g.circle, t.members[(g.circle, u)].id, i + 1)
  {
    hide HasContributed, HasPayout, Pot;
    assert !HasPaidIn(g, t, u, i + 1);
  }

  lemma {:induction false} GameActive(g: Game)
    requires Begun(g)
    ensures g.circle in g.start.circles && g.start.circles[g.circle].status.Active?
    ensures g.start.circles[g.circle].durationCycles == |g.listing| > 0
  {
  }

  // ----- One payout --------------------------------------------------------------------------------------

  lemma {:induction false} NothingOwed(loans: seq<LoanRow>, user: nat, circle: nat, pot: int)
    requires forall i :: 0 <= i < |loans| ==> loans[i].circle != circle
    ensures Repay(loans, user, circle, pot) == Repayment(loans, pot, false)
  {
    var k := FindOwed(loans, user, circle);
  }

  /** What a full round's payout leaves behind, wallet by wallet. */
  ghost predicate PotPaid(g: Game, t: Tables, i: nat, recipient: nat, t': Tables)
    requires g.circle in g.start.circles
  {
    var pot := |g.listing| * Amount(g);
    && t' == t.(wallets := t'.wallets, draws := t'.draws, schedules := t'.schedules, payouts := t'.payouts)
    && t'.payouts == t.payouts + [PayoutRow(g.circle, i + 1, recipient, pot - Fee(g), PayoutStatus.Completed)]
    && t'.schedules.Keys == t.schedules.Keys
    && (forall k :: k in t.schedules ==> SameSchedule(t.schedules[k], t'.schedules[k]))
    && SameBuckets(t.wallets, t'.wallets) && Pool in t.wallets && Of(recipient) in t.wallets
    && Balance(t'.wallets[Pool]) == Balance(t.wallets[Pool]) - pot + Fee(g)
    && Balance(t'.wallets[Of(recipient)]) == Balance(t.wallets[Of(recipient)]) + pot - Fee(g)
    && (forall o :: o in t.wallets && o != Pool && o != Of(recipient) ==> t'.wallets[o] == t.wallets[o])
  }

  lemma {:induction false} PotIsPaid(g: Game, t: Tables, i: nat, recipient: nat, t': Tables)
    requires Begun(g) && Inv(World(t, g.history)) && t.loans == g.start.loans && (g.circle, i + 1) in t.schedules
    requires Pot(t.contributions, g.circle, i + 1) == |g.listing| * Amount(g)
    requires PaidOut(t, g.circle, i + 1, recipient) == Success(t')
    ensures PotPaid(g, t, i, recipient, t')
  {
    hide Disburse, Pot, Balance, WalletsInv, CollateralInv, PoolInv, LoansInv, Conserved, HasPayout, Repay;
    var pot := |g.listing| * Amount(g);
    AmountsPositive(g.start, g.history);
    FeeBounds(|g.listing|, Amount(g));
    NothingOwed(t.loans, recipient, g.circle, pot);
    DisburseKeeps(t.wallets, recipient, pot, pot - Fee(g), Fee(g), t.draws, t'.wallets);
  }

  lemma {:induction false} RoundPaying(g: Game, t: Tables, i: nat, done: seq<nat>, recipient: nat, t': Tables)
    requires Begun(g) && Paying(g, t, i, done) && PotPaid(g, t, i, recipient, t')
    requires forall u :: u in g.listing ==> u in done
    ensures Paying(g, t', i + 1, [])
  {
    hide Begun, HasContributed, HasPayout, Pot, Balance, Fee;
    forall k ensures HasPayout(t'.payouts, g.circle, k) <==> 1 <= k <= i + 1 {
      PaidNow(t.payouts, t'.payouts[|t.payouts|], g.circle, k);
    }
    forall u, k | u in g.listing ensures HasPaidIn(g, t', u, k) <==> 1 <= k <= i + 1 {
      assert HasPaidIn(g, t, u, k) <==> 1 <= k <= i || (k == i + 1 && u in done);
    }
  }

  lemma {:induction false} RoundMoney(g: Game, t: Tables, i: nat, done: seq<nat>, recipient: nat, t': Tables)
    requires Begun(g) && Money(g, t, i, done) && PotPaid(g, t, i, recipient, t') && i < |g.listing|
    requires (g.circle, i + 1) in g.start.schedules && g.start.schedules[(g.circle, i + 1)].recipient == Some(recipient)
    requires |done| == |g.listing| && forall u :: u in g.listing ==> u in done
    ensures Money(g, t', i + 1, [])
  {
    hide Begun, Balance, Fee, Share;
    CycleRecipient(g, i + 1);
    OneMoreFee(i, Fee(g), |done| * Amount(g));
    forall u | u in g.listing
      ensures Balance(t'.wallets[Of(u)]) == Balance(g.start.wallets[Of(u)]) + Share(g, u, i + 1, false)
    {
      assert Of(u) in t.wallets;
      EverybodyPlays(g, u);
      ShareMoves(g, u, i);
      assert Spot(g, u) == i + 1 <==> u == recipient;
    }
  }

  lemma {:induction false} OneMoreFee(i: nat, fee: int, pot: int)
    ensures i * fee + pot - pot + fee == (i + 1) * fee
  {
  }

  /** The round's contribution has gone in already; what is left is the pot for the one whose cycle it is. */
  lemma {:induction false} ShareMoves(g: Game, u: nat, i: nat)
    requires Plays(g, u)
    ensures Share(g, u, i + 1, false) ==
      Share(g, u, i, true) + if Spot(g, u) == i + 1 then |g.listing| * Amount(g) - Fee(g) else 0
  {
    hide Fee;
    assert (i + 1) * Amount(g) == i * Amount(g) + Amount(g);
  }

  lemma {:induction false} RoundSetting(g: Game, t: Tables, i: nat, recipient: nat, t': Tables)
    requires g.circle in g.start.circles && Setting(g, t) && PotPaid(g, t, i, recipient, t')
    ensures Setting(g, t')
  {
    hide Balance, Fee;
  }

  /** A full round makes its payout possible, and the payout closes the round. */
  lemma {:induction false} RoundCloses(g: Game, t: Tables, i: nat, done: seq<nat>)
    requires Begun(g) && At(g, t, i, done) && i < |g.listing|
    requires |done| == |g.listing| && forall u :: u in g.listing ==> u in done
    ensures Eligible(t, g.circle, i + 1)
    ensures (g.circle, i + 1) in t.schedules && t.schedules[(g.circle, i + 1)].recipient.Some?
    ensures var r := PaidOut(t, g.circle, i + 1, t.schedules[(g.circle, i + 1)].recipient.value);
      r.Success? && At(g, r.value, i + 1, [])
  {
    hide Begun, Inv, PaidOut, HasPayout, Pot;
    GameActive(g);
    CycleRecipient(g, i + 1);
    var recipient := g.start.schedules[(g.circle, i + 1)].recipient.value;
    PotFull(g, t, i, done);
    hide Paying, Money;
    PaidOutSucceeds(t, g.history, g.circle, i + 1, recipient);
    var t' := PaidOut(t, g.circle, i + 1, recipient).value;
    PaidOutKeeps(t, g.history, g.circle, i + 1, recipient, t');
    PotIsPaid(g, t, i, recipient, t');
    hide PotPaid;
    RoundPaying(g, t, i, done, recipient, t');
    RoundMoney(g, t, i, done, recipient, t');
    RoundSetting(g, t, i, recipient, t');
  }

  lemma {:induction false} PotFull(g: Game, t: Tables, i: nat, done: seq<nat>)
    requires Begun(g) && Paying(g, t, i, done) && |done| == |g.listing|
    ensures Pot(t.contributions, g.circle, i + 1) == |g.listing| * Amount(g) != 0
    ensures !HasPayout(t.payouts, g.circle, i + 1)
  {
    hide Pot, HasPayout, HasContributed;
    AmountsPositive(g.start, g.history);
    FeeBounds(|g.listing|, Amount(g));
  }

  // ----- Rounds ------------------------------------------------------------------------------------------

  ghost predicate AllAfford(g: Game) {
    forall u :: u in g.listing ==> Plays(g, u) && Affords(g, u)
  }

  lemma {:induction false} OrderCovers(g: Game, cycle: int, order: seq<Turn>)
    requires Begun(g) && OnTime(g, cycle, order)
    ensures |Users(order)| == |g.listing| && Sorter.Distinct(Users(order))
    ensures forall u :: u in g.listing <==> u in Users(order)
  {
    Sorter.SameMembers(g.listing, Users(order));
    Sorter.DistinctKept(g.listing, Users(order));
  }

  lemma {:induction false} ContributionApplied(g: Game, t: Tables, turn: Turn, cycle: int)
    requires MakeContribution(t, turn.now, turn.user, g.circle, cycle).Success?
    ensures Platform.Apply(World(t, g.history), Contribute(turn.now, turn.user, g.circle, cycle))
      == World(MakeContribution(t, turn.now, turn.user, g.circle, cycle).value, g.history)
  {
    hide MakeContribution;
  }

  lemma {:induction false} PayoutApplied(g: Game, t: Tables, cycle: int)
    requires ProcessPayout(t, g.circle, cycle).Success?
    ensures Platform.Apply(World(t, g.history), Payout(g.circle, cycle)) ==
      World(ProcessPayout(t, g.circle, cycle).value, g.history)
  {
    hide ProcessPayout;
  }

  /** The last turn taken so far is by a member who has not had one yet, and on time. */
  lemma {:induction false} LastTurn(g: Game, cycle: int, order: seq<Turn>, whole: seq<Turn>)
    requires Begun(g) && OnTime(g, cycle, whole) && order <= whole && |order| > 0
    ensures var front, turn := order[..|order| - 1], order[|order| - 1];
      && turn.user in g.listing && turn.user !in Users(front) && Users(order) == Users(front) + [turn.user]
      && Turns(g.circle, cycle, order) ==
           Turns(g.circle, cycle, front) + [Contribute(turn.now, turn.user, g.circle, cycle)]
      && (g.circle, cycle) in g.start.schedules
      && turn.now <= g.start.schedules[(g.circle, cycle)].deadline
  {
    hide Begun;
    OrderCovers(g, cycle, whole);
    var last := |order| - 1;
    assert Users(whole)[last] == order[last].user;
  }

  lemma {:induction false} TurnsRun(g: Game, t: Tables, i: nat, order: seq<Turn>, whole: seq<Turn>)
    requires Begun(g) && AllAfford(g) && At(g, t, i, []) && i < |g.listing|
    requires OnTime(g, i + 1, whole) && order <= whole
    ensures var w := Platform.Run(World(t, g.history), Turns(g.circle, i + 1, order));
      w.history == g.history && At(g, w.tables, i, Users(order))
    decreases |order|
  {
    hide Begun, At, OnTime, MakeContribution, Affords, Plays, Platform.Apply, Turns, Users;
    var w := World(t, g.history);
    if |order| == 0 {
      assert Turns(g.circle, i + 1, order) == [] && Users(order) == [];
    } else {
      var front, turn := order[..|order| - 1], order[|order| - 1];
      TurnsRun(g, t, i, front, whole);
      LastTurn(g, i + 1, order, whole);
      var step := Contribute(turn.now, turn.user, g.circle, i + 1);
      RunConcat(w, Turns(g.circle, i + 1, front), [step]);
      var before := Platform.Run(w, Turns(g.circle, i + 1, front));
      RunOne(before, step);
      TurnKeeps(g, before.tables, i, Users(front), turn);
      ContributionApplied(g, before.tables, turn, i + 1);
    }
  }

  ghost predicate Settled(g: Game, t: Tables) {
    && g.circle in g.start.circles && Pool in g.start.wallets && t.wallets.Keys == g.start.wallets.Keys
    && (forall u :: u in g.listing ==> Plays(g, u))
    && (forall u :: u in g.listing ==> Balance(t.wallets[Of(u)]) == Balance(g.start.wallets[Of(u)]) - Fee(g))
    && Balance(t.wallets[Pool]) == Balance(g.start.wallets[Pool]) + |g.listing| * Fee(g)
    && (forall k :: HasPayout(t.payouts, g.circle, k) <==> 1 <= k <= |g.listing|)
  }

  ghost predicate Released(g: Game, t: Tables) {
    && (forall u: nat :: (g.circle, u) in t.members <==> (g.circle, u) in g.start.members)
    && (forall u: nat :: (g.circle, u) in t.members ==> Emptied(t, g.history, (g.circle, u)))
  }

  /** Everybody has paid the fee's worth and nothing else, every cycle was paid out, and nothing is
      locked any more. */
  ghost predicate Finished(g: Game, t: Tables) {
    g.circle in t.circles && t.circles[g.circle].status.Completed? && Settled(g, t) && Released(g, t)
  }

  lemma {:induction false} RoundPays(g: Game, t: Tables, i: nat, done: seq<nat>)
    requires Begun(g) && At(g, t, i, done) && i < |g.listing|
    requires |done| == |g.listing| && forall u :: u in g.listing ==> u in done
    ensures ProcessPayout(t, g.circle, i + 1).Success?
    ensures i + 1 < |g.listing| ==> At(g, ProcessPayout(t, g.circle, i + 1).value, i + 1, [])
    ensures i + 1 == |g.listing| ==> Finished(g, ProcessPayout(t, g.circle, i + 1).value)
  {
    hide Begun, At, Inv, Finished, PaidOut, ProcessPayout, Eligible;
    GameActive(g);
    AtInv(g, t, i, done);
    RoundCloses(g, t, i, done);
    PayoutExactly(t, g.history, g.circle, i + 1);
    if i + 1 == |g.listing| {
      LastRound(g, t, done);
    } else {
      EarlyPayout(t, g.circle, i + 1);
    }
  }

  /** Before the last cycle a payout is its own writes and nothing more. */
  lemma {:induction false} EarlyPayout(t: Tables, circle: nat, cycle: int)
    requires ProcessPayout(t, circle, cycle).Success?
    requires circle in t.circles && cycle != t.circles[circle].durationCycles
    requires (circle, cycle) in t.schedules && t.schedules[(circle, cycle)].recipient.Some?
    ensures ProcessPayout(t, circle, cycle) == PaidOut(t, circle, cycle, t.schedules[(circle, cycle)].recipient.value)
  {
    hide PaidOut, Finalize, HasLivePayout, Pot;
  }

  lemma {:induction false} RoundRuns(g: Game, t: Tables, i: nat, order: seq<Turn>)
    requires Begun(g) && AllAfford(g) && At(g, t, i, []) && i < |g.listing| && OnTime(g, i + 1, order)
    ensures var w := Platform.Run(World(t, g.history), Turns(g.circle, i + 1, order) + [Payout(g.circle, i + 1)]);
      && w.history == g.history
      && (i + 1 < |g.listing| ==> At(g, w.tables, i + 1, []))
      && (i + 1 == |g.listing| ==> Finished(g, w.tables))
  {
    hide Begun, AllAfford, OnTime, At, Platform.Apply, Finished, ProcessPayout;
    var steps, users, w := Turns(g.circle, i + 1, order), Users(order), World(t, g.history);
    OrderCovers(g, i + 1, order);
    TurnsRun(g, t, i, order, order);
    RunConcat(w, steps, [Payout(g.circle, i + 1)]);
    var full := Platform.Run(w, steps);
    RunOne(full, Payout(g.circle, i + 1));
    RoundPays(g, full.tables, i, users);
    PayoutApplied(g, full.tables, i + 1);
  }

  lemma {:induction false} AtInv(g: Game, t: Tables, i: nat, done: seq<nat>)
    requires At(g, t, i, done)
    ensures Inv(World(t, g.history)) && t.circles == g.start.circles && t.members.Keys == g.start.members.Keys
    ensures t.wallets.Keys == g.start.wallets.Keys && Pool in t.wallets
  {
    hide Inv, Balance;
  }

  /** The last payout is the payout itself and then the completion. */
  lemma {:induction false} LastPayout(t: Tables, circle: nat, cycle: int, recipient: nat, paid: Tables, t': Tables)
    requires ProcessPayout(t, circle, cycle) == Success(t') && cycle == t.circles[circle].durationCycles
    requires t.schedules[(circle, cycle)].recipient == Some(recipient)
    requires PaidOut(t, circle, cycle, recipient) == Success(paid)
    ensures circle in paid.circles && Finalize(paid, circle) == Success(t')
    ensures circle in t'.circles && t'.circles[circle].status.Completed?
  {
    hide PaidOut, Finalize, Pot, HasLivePayout;
    PaidOutCircles(t, circle, cycle, recipient, paid);
    FinalizeFrame(paid, circle, t');
  }

  lemma {:induction false} LastRound(g: Game, t: Tables, done: seq<nat>)
    requires Begun(g) && At(g, t, |g.listing| - 1, done) && |done| == |g.listing|
    requires forall u :: u in g.listing ==> u in done
    requires ProcessPayout(t, g.circle, |g.listing|).Success?
    ensures Finished(g, ProcessPayout(t, g.circle, |g.listing|).value)
  {
    hide Begun, At, ProcessPayout, PaidOut, Eligible, Finalize, Settled, Released;
    var n := |g.listing|;
    GameActive(g);
    AtInv(g, t, n - 1, done);
    RoundCloses(g, t, n - 1, done);
    var recipient := t.schedules[(g.circle, n)].recipient.value;
    var paid := PaidOut(t, g.circle, n, recipient).value;
    var t' := ProcessPayout(t, g.circle, n).value;
    LastPayout(t, g.circle, n, recipient, paid, t');
    AtInv(g, paid, n, []);
    FinalBalances(g, paid);
    hide Inv;
    SettledStays(g, paid, t');
    EverythingReleased(g, t, t');
  }

  lemma {:induction false} SettledStays(g: Game, t: Tables, t': Tables)
    requires Settled(g, t) && Inv(World(t, g.history)) && g.circle in t.circles && Finalize(t, g.circle) == Success(t')
    ensures Settled(g, t')
  {
    hide Inv, Balance, Fee, Finalize, HasPayout;
    FinalizeFrame(t, g.circle, t');
    forall id | id in t.wallets ensures Balance(t'.wallets[id]) == Balance(t.wallets[id]) {
      FinalizeMoney(t, g.history, g.circle, t', id);
    }
  }

  lemma {:induction false} EverythingReleased(g: Game, t: Tables, t': Tables)
    requires Inv(World(t, g.history)) && ProcessPayout(t, g.circle, |g.listing|) == Success(t')
    requires t.members.Keys == g.start.members.Keys && t.circles[g.circle].durationCycles == |g.listing|
    ensures Released(g, t')
  {
    hide Inv, ProcessPayout, Emptied;
    forall u: nat
      ensures (g.circle, u) in t'.members <==> (g.circle, u) in g.start.members
      ensures (g.circle, u) in t'.members ==> Emptied(t', g.history, (g.circle, u))
    {
      CompletionUnlocks(t, g.history, g.circle, |g.listing|, t', u);
      assert (g.circle, u) in t.members <==> (g.circle, u) in t.members.Keys;
    }
  }

  /** After n rounds everybody has paid n times and been paid once. */
  lemma {:induction false} FinalBalances(g: Game, t: Tables)
    requires Begun(g) && At(g, t, |g.listing|, [])
    ensures Settled(g, t)
  {
    hide Begun, Inv, Balance, Fee, HasPayout, HasContributed, Pot, Setting;
    forall u | u in g.listing
      ensures Balance(t.wallets[Of(u)]) == Balance(g.start.wallets[Of(u)]) - Fee(g)
    {
      EverybodyPlays(g, u);
    }
  }

  lemma {:induction false} RoundsRun(g: Game, orders: seq<seq<Turn>>)
    requires Begun(g) && AllAfford(g) && |orders| <= |g.listing|
    requires forall i :: 0 <= i < |orders| ==> OnTime(g, i + 1, orders[i])
    ensures var w := Platform.Run(World(g.start, g.history), Rounds(g.circle, orders));
      && w.history == g.history
      && (|orders| < |g.listing| ==> At(g, w.tables, |orders|, []))
      && (|orders| == |g.listing| ==> Finished(g, w.tables))
    decreases |orders|
  {
    hide Begun, AllAfford, At, Finished, OnTime;
    if |orders| == 0 {
      StartOfGame(g);
    } else {
      var last := |orders| - 1;
      RoundsRun(g, orders[..last]);
      var w := World(g.start, g.history);
      RunConcat(w, Rounds(g.circle, orders[..last]),
        Turns(g.circle, last + 1, orders[last]) + [Payout(g.circle, last + 1)]);
      RoundRuns(g, Platform.Run(w, Rounds(g.circle, orders[..last])).tables, last, orders[last]);
    }
  }

  lemma {:induction false} StartOfGame(g: Game)
    requires Begun(g)
    ensures At(g, g.start, 0, []) && |g.listing| > 0
  {
    hide Inv, Balance, Fee, Listing, CyclePaysItsMember, MemberHasTheirCycle, Opens;
    PoolExists(g.start, g.history);
    forall u | u in g.listing ensures Plays(g, u) && 1 <= Spot(g, u) {
      EverybodyPlays(g, u);
    }
    forall k ensures Pot(g.start.contributions, g.circle, k) == 0 {
      NoRowsNoPot(g.start.contributions, g.circle, k);
    }
  }

  lemma {:induction false} NoRowsNoPot(rows: seq<ContributionRow>, circle: nat, cycle: int)
    requires forall i :: 0 <= i < |rows| ==> rows[i].circle != circle
    ensures Pot(rows, circle, cycle) == 0
    decreases |rows|
  {
    if |rows| > 0 {
      NoRowsNoPot(rows[..|rows| - 1], circle, cycle);
    }
  }

  // ----- From any reachable state ------------------------------------------------------------------------

  lemma {:induction false} ActivationOpens(t: Tables, a: Activation, i: nat)
    requires Ready(t, a) && ActivateCircle(t, a).Success? && 1 <= i <= |a.listing|
    ensures Opens(ActivateCircle(t, a).value, a.circle, i)
  {
    ActivationCycle(t, a, i);
    hide Ready, Rows, Order, Scheduled, Positioned, CyclePaysItsMember, Assigned, Unrepeated, C.Deadline, C.Instant,
         C.Valid;
  }

  /** Activation adds nothing but the order and the calendar, and a draft circle has no past. */
  lemma {:induction false} ActivationBegins(t: Tables, h: History, a: Activation)
    requires Inv(World(t, h)) && Recorded(t) && Ready(t, a) && ActivateCircle(t, a).Success? && |a.listing| > 0
    ensures Begun(Game(ActivateCircle(t, a).value, h, a.circle, a.listing))
  {
    hide Inv, Ready, ActivateCircle, Opens, CyclePaysItsMember, MemberHasTheirCycle, Listing;
    var t' := ActivateCircle(t, a).value;
    ActivateKeeps(t, h, a, t');
    ActivationPairsOff(t, a);
    ActivationRows(t, a, t');
    forall i: nat | 1 <= i <= |a.listing| ensures Opens(t', a.circle, i) {
      ActivationOpens(t, a, i);
    }
  }

  lemma {:induction false} ActivationRows(t: Tables, a: Activation, t': Tables)
    requires Recorded(t) && Ready(t, a) && ActivateCircle(t, a) == Success(t')
    ensures a.circle in t'.circles && t'.circles[a.circle].status.Active? && t'.wallets == t.wallets
    ensures forall i :: 0 <= i < |t'.contributions| ==> t'.contributions[i].circle != a.circle
    ensures forall i :: 0 <= i < |t'.payouts| ==> t'.payouts[i].circle != a.circle
    ensures forall i :: 0 <= i < |t'.loans| ==> t'.loans[i].circle != a.circle
  {
    hide Ready, Rows, Order, Scheduled, Positioned, Assigned, Unrepeated;
  }

  /** Money at hand is enough for a circle to finish. From any reachable state: activate a circle of n > 0 members,
      let everyone who has their contributions up to their own cycle and the fee pay in on time in every cycle, in
      any order, and let each cycle pay out. Every step goes through: the circle ends COMPLETED, every cycle has its
      payout, each member's balance is floor(2nc/100) below where it started, the pool is n times that above, and
      every membership's collateral is released. */
  lemma {:induction false} RoundsComplete(past: seq<Step>, a: Activation, orders: seq<seq<Turn>>)
    requires Ready(Reached(past).tables, a) && ActivateCircle(Reached(past).tables, a).Success?
    requires |orders| == |a.listing| > 0
    requires var g := Game(ActivateCircle(Reached(past).tables, a).value, Reached(past).history, a.circle, a.listing);
      AllAfford(g) && forall i :: 0 <= i < |orders| ==> OnTime(g, i + 1, orders[i])
    ensures var w := Reached(past);
      var g := Game(ActivateCircle(w.tables, a).value, w.history, a.circle, a.listing);
      && g.start.wallets == w.tables.wallets
      && Finished(g, Platform.Run(w, [Step.Activate(a)] + Rounds(a.circle, orders)).tables)
  {
    hide Reached, Inv, Recorded, Ready, ActivateCircle, Begun, AllAfford, OnTime, Finished, Platform.Apply;
    ReachedInv(past);
    ReachedRecords(past);
    var w := Reached(past);
    var g := Game(ActivateCircle(w.tables, a).value, w.history, a.circle, a.listing);
    ActivationBegins(w.tables, w.history, a);
    ActivationRows(w.tables, a, g.start);
    RunConcat(w, [Step.Activate(a)], Rounds(a.circle, orders));
    RunOne(w, Step.Activate(a));
    ActivationApplied(w, a);
    RoundsRun(g, orders);
  }

  lemma {:induction false} ActivationApplied(w: World, a: Activation)
    requires Ready(w.tables, a) && ActivateCircle(w.tables, a).Success?
    ensures Platform.Apply(w, Step.Activate(a)) == World(ActivateCircle(w.tables, a).value, w.history)
  {
    hide Ready, ActivateCircle;
  }

  /** n contributions' worth of available money is always enough. */
  lemma {:induction false} FullPotIsEnough(g: Game, u: nat)
    requires Begun(g) && u in g.listing
    requires Of(u) in g.start.wallets && g.circle in g.start.circles
    requires Available(g.start.wallets[Of(u)]) >= |g.listing| * Amount(g)
    ensures Plays(g, u) && Affords(g, u)
  {
    hide Begun, Available;
    EverybodyPlays(g, u);
    FeeBounds(|g.listing|, Amount(g));
    assert Spot(g, u) * Amount(g) <= |g.listing| * Amount(g) by {
      assert (|g.listing| - Spot(g, u)) * Amount(g) >= 0;
    }
  }
}
