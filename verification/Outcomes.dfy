/** Exactly when a contribution, a join, a way out or a loan goes through, and what it changes. */
module Outcomes {
  import opened Wrappers
  import opened Ledger
  import opened Tables
  import opened Memberships
  import opened Contributions
  import opened Loans
  import opened Payouts
  import opened Platform
  import opened Preservation
  import opened Runs
  import opened Guarantees
  import opened Circles
  import opened Records
  import Credit

  // ----- Contributing --------------------------------------------------------------------------------------

  lemma {:induction false} PayRefused(ws: Wallets, id: WalletId, p: Params)
    requires id in ws && Payable(p) && p.kind.Debit? && p.amount > Available(ws[id])
    ensures Pay(ws, id, p).Failure?
  {
    hide HasKey, Available, Balance;
  }

  lemma {:induction false} FirstTransfer(ws: Wallets, user: nat, amount: int, draw: nat)
    requires WalletsInv(ws, draw) && Of(user) in ws && 0 < amount <= Available(ws[Of(user)])
    ensures var p1 := Transfer(Debit, Some(Main), amount, Contrib, SourceType.Contribution, draw);
      var p2 := Transfer(Credit, Some(Main), amount, PoolCred, SourceType.Contribution, draw);
      && Pay(ws, Of(user), p1).Success?
      && Pay(Pay(ws, Of(user), p1).value, Pool, p2).Success?
      && var ws2 := Pay(Pay(ws, Of(user), p1).value, Pool, p2).value;
      && Pool in ws && ws2.Keys == ws.Keys
      && ws2[Of(user)] == Wallet(ws[Of(user)].entries + [EntryFor(Balance(ws[Of(user)]), p1)], ws[Of(user)].buckets)
      && ws2[Pool] == Wallet(ws[Pool].entries + [EntryFor(Balance(ws[Pool]), p2)], ws[Pool].buckets)
  {
    hide Balance, Available, HasKey, Pay;
    PoolIsFree(ws, draw);
    assert GoodWallet(ws[Of(user)], draw);
    var p1 := Transfer(Debit, Some(Main), amount, Contrib, SourceType.Contribution, draw);
    var p2 := Transfer(Credit, Some(Main), amount, PoolCred, SourceType.Contribution, draw);
    NewKey(ws[Of(user)], draw, p1.ref, p1.source, p1.sourceId);
    PaySucceeds(ws, Of(user), p1);
    var ws1 := Pay(ws, Of(user), p1).value;
    assert Pool in ws1 && ws1[Pool] == ws[Pool];
    NewKey(ws[Pool], draw, p2.ref, p2.source, p2.sourceId);
    PaySucceeds(ws1, Pool, p2);
    assert Of(user) in ws1;
  }

  lemma {:induction false} AfterEntry(w: Wallet, e: Entry)
    ensures Balance(Wallet(w.entries + [e], w.buckets)) == e.after
    ensures Available(Wallet(w.entries + [e], w.buckets)) == Available(w) + e.after - Balance(w)
  {
  }

  lemma {:induction false} CollectExactly(ws: Wallets, user: nat, amount: int, penalty: int, draw: nat)
    requires WalletsInv(ws, draw) && Of(user) in ws && amount > 0 && penalty >= 0
    ensures Collect(ws, user, amount, penalty, draw).Success? <==> Available(ws[Of(user)]) >= amount + penalty
  {
    hide Balance, Available, HasKey, Pay;
    var p1 := Transfer(Debit, Some(Main), amount, Contrib, SourceType.Contribution, draw);
    if amount > Available(ws[Of(user)]) {
      PayRefused(ws, Of(user), p1);
    } else {
      FirstTransfer(ws, user, amount, draw);
      if penalty > 0 {
        SecondTransfer(ws, user, amount, penalty, draw);
      }
    }
  }

  lemma {:induction false} SecondTransfer(ws: Wallets, user: nat, amount: int, penalty: int, draw: nat)
    requires WalletsInv(ws, draw) && Of(user) in ws && 0 < amount <= Available(ws[Of(user)]) && penalty > 0
    ensures Collect(ws, user, amount, penalty, draw).Success? <==> Available(ws[Of(user)]) >= amount + penalty
  {
    hide Balance, Available, HasKey, Pay;
    FirstTransfer(ws, user, amount, draw);
    AvailableIn(ws, draw, Of(user));
    AvailableIn(ws, draw, Pool);
    var p1 := Transfer(Debit, Some(Main), amount, Contrib, SourceType.Contribution, draw);
    var p2 := Transfer(Credit, Some(Main), amount, PoolCred, SourceType.Contribution, draw);
    var p3 := Transfer(Debit, None, penalty, Pen, SourceType.Penalty, draw);
    var p4 := Transfer(Credit, None, penalty, PoolPen, SourceType.Penalty, draw);
    var ws2 := Pay(Pay(ws, Of(user), p1).value, Pool, p2).value;
    AfterEntry(ws[Of(user)], EntryFor(Balance(ws[Of(user)]), p1));
    NewKey(ws[Of(user)], draw, p3.ref, p3.source, p3.sourceId);
    OtherKey(ws[Of(user)], EntryFor(Balance(ws[Of(user)]), p1), p3.ref, p3.source, p3.sourceId);
    if penalty > Available(ws2[Of(user)]) {
      PayRefused(ws2, Of(user), p3);
    } else {
      PaySucceeds(ws2, Of(user), p3);
      var ws3 := Pay(ws2, Of(user), p3).value;
      NewKey(ws[Pool], draw, p4.ref, p4.source, p4.sourceId);
      OtherKey(ws[Pool], EntryFor(Balance(ws[Pool]), p2), p4.ref, p4.source, p4.sourceId);
      assert Pool in ws2 && ws3[Pool] == ws2[Pool];
      PaySucceeds(ws3, Pool, p4);
    }
  }

  lemma {:induction false} AvailableIn(ws: Wallets, n: nat, id: WalletId)
    requires WalletsInv(ws, n) && id in ws
    ensures FreshEntries(ws[id].entries, n) && Pool in ws
  {
    hide Sound, Available;
    assert GoodWallet(ws[id], n);
  }

  /** Who may pay in, and when. */
  predicate MayContribute(t: Tables, now: int, user: nat, circle: nat, cycle: int) {
    && circle in t.circles && t.circles[circle].status.Active?
    && (circle, user) in t.members && t.members[(circle, user)].status.Active?
    && (circle, cycle) in t.schedules && now < t.schedules[(circle, cycle)].payoutDate
    && !HasContributed(t.contributions, circle, t.members[(circle, user)].id, cycle)
  }

  function DueNow(t: Tables, now: int, circle: nat, cycle: int): int
    requires circle in t.circles && (circle, cycle) in t.schedules
  {
    t.circles[circle].amount + LateFee(t.circles[circle].amount, now > t.schedules[(circle, cycle)].deadline)
  }

  /** In every reachable state a contribution goes through exactly when the member may pay in and has the
      amount available and, after the deadline, a fiftieth of it in whole kobo on top; no second contribution to the
      cycle follows it. */
  lemma {:induction false} ContributeExactly(t: Tables, h: History, now: int, user: nat, circle: nat, cycle: int,
      fee: int, later: int)
    requires Inv(World(t, h))
    requires MayContribute(t, now, user, circle, cycle) ==>
      if now > t.schedules[(circle, cycle)].deadline
      then 50 * fee <= t.circles[circle].amount < 50 * (fee + 1) else fee == 0
    ensures MayContribute(t, now, user, circle, cycle) ==>
      && Of(user) in t.wallets && DueNow(t, now, circle, cycle) == t.circles[circle].amount + fee
    ensures MakeContribution(t, now, user, circle, cycle).Success? <==>
      && MayContribute(t, now, user, circle, cycle)
      && Available(t.wallets[Of(user)]) >= t.circles[circle].amount + fee
    ensures MakeContribution(t, now, user, circle, cycle).Success? ==>
      MakeContribution(MakeContribution(t, now, user, circle, cycle).value, later, user, circle, cycle).Failure?
  {
    hide PoolInv, LoansInv, Conserved, HasContributed, Collect, Available, GoodBucket, GoodRefund;
    PoolExists(t, h);
    if MayContribute(t, now, user, circle, cycle) {
      assert GoodMember(t, h, (circle, user));
      var c := t.circles[circle];
      var isLate := now > t.schedules[(circle, cycle)].deadline;
      LatePenaltyBounds(c.amount, isLate);
      CollectExactly(t.wallets, user, c.amount, LateFee(c.amount, isLate), t.draws);
      hide WalletsInv, CollateralInv;
      OnlyOnce(t, now, user, circle, cycle, later);
    }
  }

  lemma {:induction false} OnlyOnce(t: Tables, now: int, user: nat, circle: nat, cycle: int, later: int)
    ensures MakeContribution(t, now, user, circle, cycle).Success? ==>
      MakeContribution(MakeContribution(t, now, user, circle, cycle).value, later, user, circle, cycle).Failure?
  {
    hide Collect, LatePenalty;
    var r := MakeContribution(t, now, user, circle, cycle);
    if r.Success? {
      var rows := r.value.contributions;
      assert ForCycle(rows[|t.contributions|], circle, cycle);
      assert HasContributed(rows, circle, r.value.members[(circle, user)].id, cycle);
    }
  }

  /** What it moves: the amount and the fee, from the member to the pool, and nothing else. The fee it records is
      a fiftieth of the amount in whole kobo after the deadline, and nothing before. */
  lemma {:induction false} ContributionMoves(t: Tables, h: History, now: int, user: nat, circle: nat, cycle: int,
      t': Tables, id: WalletId)
    requires Inv(World(t, h)) && MakeContribution(t, now, user, circle, cycle) == Success(t') && id in t.wallets
    ensures var c, m := t.circles[circle], t.members[(circle, user)];
      var isLate := now > t.schedules[(circle, cycle)].deadline;
      && |t'.contributions| == |t.contributions| + 1
      && var fee := t'.contributions[|t.contributions|].penalty;
      && (if isLate then 50 * fee <= c.amount < 50 * (fee + 1) else fee == 0)
      && id in t'.wallets && t'.wallets[id].buckets == t.wallets[id].buckets
      && Balance(t'.wallets[id]) == Balance(t.wallets[id])
           + (if id == Pool then c.amount + fee else if id == Of(user) then -(c.amount + fee) else 0)
      && t'.contributions == t.contributions + [ContributionRow(circle, user, m.id, cycle, c.amount, fee)]
      && t'.payouts == t.payouts && t'.loans == t.loans && t'.schedules == t.schedules && t'.circles == t.circles
      && t'.members == t.members[(circle, user) := m.(completedCycles := m.completedCycles + 1,
           latePayments := m.latePayments + (if isLate then 1 else 0), penaltiesPaid := m.penaltiesPaid + fee)]
  {
    hide Collect, Balance, HasContributed, WalletsInv, PoolInv, LoansInv, Conserved, GoodMember, GoodBucket, GoodRefund,
         LateFee, MakeContribution;
    AmountsPositive(t, h);
    ContributionMade(t, now, user, circle, cycle, t');
    var c := t.circles[circle];
    var isLate := now > t.schedules[(circle, cycle)].deadline;
    LatePenaltyBounds(c.amount, isLate);
    CollectKeeps(t.wallets, user, c.amount, LateFee(c.amount, isLate), t.draws, t'.wallets);
  }

  // ----- Joining and leaving ------------------------------------------------------------------------------

  predicate MayJoin(t: Tables, user: nat, circle: nat) {
    && Of(user) in t.wallets && circle in t.circles && !t.circles[circle].isPrivate
    && (t.circles[circle].status.Draft? || t.circles[circle].status.Active?)
    && t.circles[circle].filledSlots < t.circles[circle].maxSlots
    && (circle, user) !in t.members
  }

  /** A join request goes through exactly when the circle is open to the user, who has a tenth of the amount
      available; a circle whose tenth rounds down to nothing cannot be joined at all. It locks that tenth in the
      user's wallet and adds a PENDING membership without a position that records it, and nothing else moves. */
  lemma {:induction false} JoinExactly(t: Tables, h: History, now: int, user: nat, circle: nat, tenth: int)
    requires Inv(World(t, h))
    requires circle in t.circles ==> 10 * tenth <= t.circles[circle].amount < 10 * (tenth + 1)
    ensures RequestToJoin(t, now, user, circle).Success? <==>
      MayJoin(t, user, circle) && tenth > 0 && Available(t.wallets[Of(user)]) >= tenth
    ensures RequestToJoin(t, now, user, circle).Success? ==>
      var t' := RequestToJoin(t, now, user, circle).value;
      && Of(user) in t'.wallets
      && t' == t.(wallets := t.wallets[Of(user) := t'.wallets[Of(user)]], draws := t.draws + 1,
           members := t.members[(circle, user) := MembershipRow(Member(circle, user, t.draws),
             MembershipStatus.Pending, None, tenth, false, Some(now), 0, 0, 0)])
      && Balance(t'.wallets[Of(user)]) == Balance(t.wallets[Of(user)])
      && Available(t'.wallets[Of(user)]) == Available(t.wallets[Of(user)]) - tenth
  {
    hide Inv, Balance, Available, Pay;
    if MayJoin(t, user, circle) {
      ReservesExactly(t, h, user, Member(circle, user, t.draws), tenth);
    }
  }

  /** Money is set aside exactly when there is some to set aside, available. */
  lemma {:induction false} ReservesExactly(t: Tables, h: History, user: nat, id: SourceId, amount: int)
    requires Inv(World(t, h)) && Of(user) in t.wallets
    ensures var r := Pay(t.wallets, Of(user), ReserveParams(id, amount, t.draws));
      && (r.Success? <==> 0 < amount <= Available(t.wallets[Of(user)]))
      && (r.Success? ==>
            && Of(user) in r.value && r.value == t.wallets[Of(user) := r.value[Of(user)]]
            && Balance(r.value[Of(user)]) == Balance(t.wallets[Of(user)])
            && Available(r.value[Of(user)]) == Available(t.wallets[Of(user)]) - amount)
  {
    hide Inv, Balance, Reserved, HasKey;
    AvailableNow(t, h, Of(user));
    var p := ReserveParams(id, amount, t.draws);
    NewKey(t.wallets[Of(user)], t.draws, p.ref, p.source, p.sourceId);
    if Write(t.wallets[Of(user)], p).Success? {
      WriteEffect(t.wallets[Of(user)], p);
    }
  }

  predicate MayUse(t: Tables, now: int, user: nat, token: nat) {
    && token in t.invites && !t.invites[token].used
    && now <= t.invites[token].expiresAt && t.invites[token].invitee == user
    && var circle := t.invites[token].circle;
    && circle in t.circles && t.circles[circle].status.Draft?
    && t.circles[circle].filledSlots < t.circles[circle].maxSlots
    && (circle, user) !in t.members && Of(user) in t.wallets
  }

  /** An invite lets its invitee into a draft circle that is not full, under the same condition on money, as the
      next active member; it works once, for nobody, at no later time, again. Nothing else moves. */
  lemma {:induction false} InviteExactly(t: Tables, h: History, now: int, user: nat, token: nat, tenth: int,
      later: int, other: nat)
    requires Inv(World(t, h))
    requires token in t.invites && t.invites[token].circle in t.circles ==>
      10 * tenth <= t.circles[t.invites[token].circle].amount < 10 * (tenth + 1)
    ensures JoinByInvite(t, now, user, token).Success? <==>
      MayUse(t, now, user, token) && tenth > 0 && Available(t.wallets[Of(user)]) >= tenth
    ensures JoinByInvite(t, now, user, token).Success? ==>
      var t' := JoinByInvite(t, now, user, token).value;
      var k := (t.invites[token].circle, user);
      var slots := t.circles[k.0].filledSlots;
      && Of(user) in t'.wallets && slots < t.circles[k.0].maxSlots
      && t' == t.(wallets := t.wallets[Of(user) := t'.wallets[Of(user)]], draws := t.draws + 1,
           members := t.members[k := MembershipRow(Member(k.0, user, t.draws),
             MembershipStatus.Active, Some(slots + 1), tenth, false, Some(now), 0, 0, 0)],
           circles := t.circles[k.0 := t.circles[k.0].(filledSlots := slots + 1)],
           invites := t.invites[token := t.invites[token].(used := true)])
      && Balance(t'.wallets[Of(user)]) == Balance(t.wallets[Of(user)])
      && Available(t'.wallets[Of(user)]) == Available(t.wallets[Of(user)]) - tenth
      && JoinByInvite(t', later, other, token) == Failure(InvalidInvite)
  {
    hide Inv, Balance, Available, Pay;
    if MayUse(t, now, user, token) {
      ReservesExactly(t, h, user, Member(t.invites[token].circle, user, t.draws), tenth);
    }
  }

  // ----- The administrator's decisions ------------------------------------------------------------------------

  /** Approval asks only who asks and whether there is a membership at all: it makes the membership active, whatever
      it was, at the position after the slots filled so far, and fills one more, even past the circle's size. */
  lemma {:induction false} ApproveExactly(t: Tables, circle: nat, admin: nat, user: nat)
    ensures ApproveMember(t, circle, admin, user).Success? <==>
      circle in t.circles && t.circles[circle].admin == admin && (circle, user) in t.members
    ensures ApproveMember(t, circle, admin, user).Success? ==>
      var slots := t.circles[circle].filledSlots + 1;
      ApproveMember(t, circle, admin, user).value == t.(
        members := t.members[(circle, user) := t.members[(circle, user)].(
          status := MembershipStatus.Active, position := Some(slots))],
        circles := t.circles[circle := t.circles[circle].(filledSlots := slots)])
  {
  }

  /** A rejection and a cancellation go through exactly for a PENDING request, the one by the administrator, the
      other by the user. Both give the collateral back, the slots stay as they are, and of the membership the one
      leaves a REJECTED row with its flag as it was, the other nothing. */
  lemma {:induction false} RefusedOrCancelled(t: Tables, h: History, circle: nat, admin: nat, user: nat)
    requires Inv(World(t, h))
    ensures var pending := (circle, user) in t.members && t.members[(circle, user)].status.Pending?;
      && (RejectMember(t, circle, admin, user).Success? <==>
           pending && circle in t.circles && t.circles[circle].admin == admin)
      && (CancelJoinRequest(t, user, circle).Success? <==> pending)
    ensures (circle, user) in t.members ==>
      var m := t.members[(circle, user)];
      && (RejectMember(t, circle, admin, user).Success? ==>
           var t' := RejectMember(t, circle, admin, user).value;
           && GivenBack(t, user, m.collateral, t')
           && t' == t.(wallets := t'.wallets, draws := t.draws + 1,
                members := t.members[(circle, user) := m.(status := MembershipStatus.Rejected)]))
      && (CancelJoinRequest(t, user, circle).Success? ==>
           var t' := CancelJoinRequest(t, user, circle).value;
           && GivenBack(t, user, m.collateral, t')
           && t' == t.(wallets := t'.wallets, draws := t.draws + 1, members := t.members - {(circle, user)}))
  {
    hide Inv, GivenBack, Refund;
    if (circle, user) in t.members {
      RefundsBack(t, h, (circle, user));
    }
  }

  /** One user can spend so much more, and no balance has moved. */
  ghost predicate GivenBack(t: Tables, user: nat, amount: int, t': Tables) {
    && Of(user) in t.wallets && t'.wallets.Keys == t.wallets.Keys
    && (forall id :: id in t.wallets && id != Of(user) ==> t'.wallets[id] == t.wallets[id])
    && Balance(t'.wallets[Of(user)]) == Balance(t.wallets[Of(user)])
    && Available(t'.wallets[Of(user)]) == Available(t.wallets[Of(user)]) + amount
  }

  lemma {:induction false} RefundsBack(t: Tables, h: History, k: (nat, nat))
    requires Inv(World(t, h)) && k in t.members
    ensures Refund(t, k.1, t.members[k]).Success?
    ensures forall t': Tables :: t'.wallets == Refund(t, k.1, t.members[k]).value ==>
      GivenBack(t, k.1, t.members[k].collateral, t')
  {
    hide Inv, Balance, Available, Refund;
    RefundsFully(t, h, k);
  }

  /** Leaving takes the membership away, and the slot of an active member with it. */
  lemma {:induction false} LeavingMoves(t: Tables, h: History, user: nat, circle: nat)
    requires Inv(World(t, h)) && LeaveCircle(t, user, circle).Success?
    ensures circle in t.circles && (circle, user) in t.members
    ensures var m, c := t.members[(circle, user)], t.circles[circle];
      var t' := LeaveCircle(t, user, circle).value;
      && GivenBack(t, user, m.collateral, t')
      && t' == t.(wallets := t'.wallets, draws := t.draws + 1, members := t.members - {(circle, user)},
           circles := t.circles[circle := c.(
             filledSlots := if m.status.Active? then c.filledSlots - 1 else c.filledSlots)])
  {
    hide Inv, GivenBack, Refund;
    RefundsBack(t, h, (circle, user));
  }

  lemma {:induction false} LeaveOutcome(t: Tables, h: History, user: nat, circle: nat)
    requires Inv(World(t, h))
    ensures LeaveCircle(t, user, circle).Success? <==>
      && circle in t.circles && t.circles[circle].status.Draft? && (circle, user) in t.members
      && t.circles[circle].filledSlots >= (if t.members[(circle, user)].status.Active? then 1 else 0)
    ensures LeaveCircle(t, user, circle).Success? ==>
      var t' := LeaveCircle(t, user, circle).value;
      && (circle, user) !in t'.members && Of(user) in t.wallets && Of(user) in t'.wallets
      && Balance(t'.wallets[Of(user)]) == Balance(t.wallets[Of(user)])
      && Available(t'.wallets[Of(user)]) == Available(t.wallets[Of(user)]) + t.members[(circle, user)].collateral
  {
    hide Inv, Balance, Available, Refund;
    if (circle, user) in t.members {
      MemberLocks(t, h, (circle, user));
      RefundsFully(t, h, (circle, user));
    }
  }

  /** A request followed by its cancellation leaves every balance, every other member and the money that can
      be spent as they were. */
  lemma {:induction false} JoinThenCancel(t: Tables, h: History, now: int, user: nat, circle: nat, t1: Tables)
    requires Inv(World(t, h)) && RequestToJoin(t, now, user, circle) == Success(t1)
    ensures CancelJoinRequest(t1, user, circle).Success?
    ensures var t2 := CancelJoinRequest(t1, user, circle).value;
      && t2.members == t.members && t2.circles == t.circles && t2.wallets.Keys == t.wallets.Keys
      && (forall id :: id in t.wallets ==> Balance(t2.wallets[id]) == Balance(t.wallets[id]))
      && (forall id :: id in t.wallets ==> Available(t2.wallets[id]) == Available(t.wallets[id]))
  {
    hide Inv, Balance, Available, Pay;
    var k := (circle, user);
    JoinKeeps(t, h, now, user, circle, t1);
    JoinMoves(t, h, now, user, circle, t1);
    RefundsFully(t1, h, k);
    var t2 := CancelJoinRequest(t1, user, circle).value;
    assert t2.members == t.members;
  }

  lemma {:induction false} JoinMoves(t: Tables, h: History, now: int, user: nat, circle: nat, t1: Tables)
    requires Inv(World(t, h)) && RequestToJoin(t, now, user, circle) == Success(t1)
    ensures t1.wallets == t.wallets[Of(user) := t1.wallets[Of(user)]] && Of(user) in t.wallets
    ensures Balance(t1.wallets[Of(user)]) == Balance(t.wallets[Of(user)])
    ensures (circle, user) in t1.members
    ensures Available(t1.wallets[Of(user)]) == Available(t.wallets[Of(user)]) - t1.members[(circle, user)].collateral
  {
    hide Inv, Balance, Available;
    JoinExactly(t, h, now, user, circle, t1.members[(circle, user)].collateral);
  }

  /** A refund gives back exactly the membership's collateral. */
  lemma {:induction false} RefundsFully(t: Tables, h: History, k: (nat, nat))
    requires Inv(World(t, h)) && k in t.members
    ensures Of(k.1) in t.wallets && Refund(t, k.1, t.members[k]).Success?
    ensures var ws := Refund(t, k.1, t.members[k]).value;
      && ws == t.wallets[Of(k.1) := ws[Of(k.1)]]
      && Balance(ws[Of(k.1)]) == Balance(t.wallets[Of(k.1)])
      && Available(ws[Of(k.1)]) == Available(t.wallets[Of(k.1)]) + t.members[k].collateral
  {
    hide Inv, Reserved, Balance, HasKey;
    MemberLocks(t, h, k);
    AvailableNow(t, h, Of(k.1));
    var p := RefundParams(t.members[k], t.draws);
    NewKey(t.wallets[Of(k.1)], t.draws, p.ref, p.source, p.sourceId);
    WriteEffect(t.wallets[Of(k.1)], p);
  }

  // ----- Borrowing -----------------------------------------------------------------------------------------

  predicate MayBorrow(t: Tables, seen: Tables, user: nat, circle: nat, score: int) {
    && !HasActive(t.loans, user) && !HasTaken(t.loans, user, circle) && Of(user) in t.wallets
    && circle in seen.circles && seen.circles[circle].status.Active?
    && (circle, user) in seen.members && seen.members[(circle, user)].status.Active?
    && score >= 550
  }

  /** In every reachable state a loan is granted exactly to a user who has none running, took none from this circle
      and was seen as an active member of it while it was active, at a score that lends, against a payout large
      enough to lend a kobo on. The check that something is left of the payout never refuses one of these, and that
      the circle is still active is not checked. The loan is the score's share of the payout expected on the slots as
      seen, the company's fee a tenth of that payout, both in whole kobo, and the final payout what is left. Only the
      borrower's wallet moves, by the loan. A second request at once fails, whatever is seen. */
  lemma {:induction false} BorrowExactly(t: Tables, h: History, seen: Tables, user: nat, circle: nat, score: int,
      again: Tables)
    requires Inv(World(t, h))
    ensures MayBorrow(t, seen, user, circle, score) ==> Credit.AllowedPercent(score).Some?
    ensures ApplyLoan(t, seen, user, circle, score).Success? <==>
      && MayBorrow(t, seen, user, circle, score)
      && seen.circles[circle].amount * seen.circles[circle].filledSlots * Credit.AllowedPercent(score).value >= 100
    ensures ApplyLoan(t, seen, user, circle, score).Success? ==>
      var t' := ApplyLoan(t, seen, user, circle, score).value;
      var expected := seen.circles[circle].amount * seen.circles[circle].filledSlots;
      var percent := if score >= 750 then 50 else if score >= 700 then 45 else if score >= 650 then 40
        else if score >= 600 then 30 else 20;
      && t' == t.(wallets := t'.wallets, loans := t'.loans, draws := t.draws + 1)
      && |t'.loans| == |t.loans| + 1 && t'.loans[..|t.loans|] == t.loans
      && var loan := t'.loans[|t.loans|];
      && loan.user == user && loan.circle == circle && loan.status.Active? && loan.payoutAmount == expected
      && 100 * loan.loanAmount <= expected * percent < 100 * (loan.loanAmount + 1)
      && 10 * loan.companyFee <= expected < 10 * (loan.companyFee + 1)
      && loan.finalPayout == expected - loan.loanAmount - loan.companyFee
      && t'.wallets.Keys == t.wallets.Keys
      && (forall id :: id in t.wallets && id != Of(user) ==> t'.wallets[id] == t.wallets[id])
      && Of(user) in t'.wallets && Of(user) in t.wallets && t'.wallets[Of(user)].buckets == t.wallets[Of(user)].buckets
      && Balance(t'.wallets[Of(user)]) == Balance(t.wallets[Of(user)]) + loan.loanAmount
      && ApplyLoan(t', again, user, circle, score) == Failure(LoanAlreadyActive)
  {
    hide Inv, HasActive, HasTaken, Pay, Balance, HasKey;
    Credit.TierTable(score);
    if MayBorrow(t, seen, user, circle, score) {
      var expected := seen.circles[circle].amount * seen.circles[circle].filledSlots;
      AvailableNow(t, h, Of(user));
      LoanSizes(user, circle, expected, score);
      var loan := Terms(user, circle, expected, Credit.AllowedPercent(score).value);
      TermsExactly(user, circle, expected, Credit.AllowedPercent(score).value, loan);
      var p := Params(Credit, None, loan.loanAmount, Drawn(LoanDisburse, t.draws), SourceType.Loan,
        Ledger.Row(t.draws));
      NewKey(t.wallets[Of(user)], t.draws, p.ref, p.source, p.sourceId);
      if loan.loanAmount > 0 {
        PaySucceeds(t.wallets, Of(user), p);
        AfterEntry(t.wallets[Of(user)], EntryFor(Balance(t.wallets[Of(user)]), p));
        NowActive(t.loans, loan);
      } else {
        PayNothing(t.wallets, Of(user), p);
      }
    }
  }

  lemma {:induction false} PayNothing(ws: Wallets, id: WalletId, p: Params)
    requires p.amount <= 0
    ensures Pay(ws, id, p).Failure?
  {
  }

  lemma {:induction false} NowActive(loans: seq<LoanRow>, loan: LoanRow)
    requires loan.status.Active?
    ensures HasActive(loans + [loan], loan.user)
  {
    assert Owes((loans + [loan])[|loans|], loan.user);
  }

  lemma {:induction false} LoanSizes(user: nat, circle: nat, payoutAmount: int, score: int)
    requires Credit.AllowedPercent(score).Some?
    ensures var percent := Credit.AllowedPercent(score).value;
      var loan := Terms(user, circle, payoutAmount, percent);
      && (loan.loanAmount > 0 <==> payoutAmount * percent >= 100)
      && (loan.loanAmount > 0 ==> loan.finalPayout > 0)
  {
    Credit.TierTable(score);
    var percent := Credit.AllowedPercent(score).value;
    assert payoutAmount <= 0 ==> payoutAmount * percent <= 0;
    if payoutAmount > 0 {
      FinalPayoutFloor(user, circle, payoutAmount, score);
    }
  }

  // ----- Creating and editing --------------------------------------------------------------------------------

  /** Creation needs an administrator the platform knows, a positive amount and a new identifier, and what it makes
      is a draft that nothing refers to: no member, no schedule and no contribution, payout or loan. Everything else
      stays. */
  lemma {:induction false} CreateExactly(t: Tables, h: History, users: set<nat>, circle: nat, row: CircleRow)
    requires Inv(World(t, h)) && Recorded(t)
    ensures CreateCircle(t, users, circle, row).Success? <==>
      row.admin in users && row.amount > 0 && circle !in t.circles
    ensures CreateCircle(t, users, circle, row).Success? ==>
      var t' := CreateCircle(t, users, circle, row).value;
      && t'.circles.Keys == t.circles.Keys + {circle} && t' == t.(circles := t'.circles)
      && (forall c :: c in t.circles ==> t'.circles[c] == t.circles[c])
      && t'.circles[circle] == row.(status := CircleStatus.Draft, filledSlots := 0)
      && (forall u: nat :: (circle, u) !in t'.members) && (forall k: int :: (circle, k) !in t'.schedules)
      && (forall i :: 0 <= i < |t'.contributions| ==> t'.contributions[i].circle != circle)
      && (forall i :: 0 <= i < |t'.payouts| ==> t'.payouts[i].circle != circle)
      && (forall i :: 0 <= i < |t'.loans| ==> t'.loans[i].circle != circle)
  {
    hide Inv;
    if circle !in t.circles {
      forall u: nat ensures (circle, u) !in t.members {
        if (circle, u) in t.members {
          MemberLocks(t, h, (circle, u));
        }
      }
      forall k: int ensures (circle, k) !in t.schedules {
        assert (circle, k) in t.schedules ==> Started(t.circles, circle) by {
          ScheduledStarted(t);
        }
      }
    }
  }

  /** An edit goes through exactly for the administrator of a draft, to a positive amount and to no fewer slots
      than are filled, unless it is to zero; it moves that circle's amount, size and order and nothing else.
      In particular what members have locked stays a tenth of the amount they joined at. */
  lemma {:induction false} UpdateExactly(t: Tables, circle: nat, admin: nat, change: Change)
    ensures UpdateCircle(t, circle, admin, change).Success? <==>
      && circle in t.circles && t.circles[circle].admin == admin && t.circles[circle].status.Draft?
      && (change.amount.Some? ==> change.amount.value > 0)
      && (change.maxSlots.Some? ==>
           change.maxSlots.value == 0 || change.maxSlots.value >= t.circles[circle].filledSlots)
    ensures UpdateCircle(t, circle, admin, change).Success? ==>
      var t' := UpdateCircle(t, circle, admin, change).value;
      var c, c' := t.circles[circle], t'.circles[circle];
      && t'.circles.Keys == t.circles.Keys && t' == t.(circles := t'.circles)
      && (forall o :: o in t.circles && o != circle ==> t'.circles[o] == t.circles[o])
      && c' == c.(amount := c'.amount, maxSlots := c'.maxSlots, logic := c'.logic)
      && (change.amount.None? ==> c'.amount == c.amount) && (change.amount.Some? ==> Some(c'.amount) == change.amount)
      && (change.maxSlots.None? ==> c'.maxSlots == c.maxSlots)
      && (change.maxSlots.Some? ==> Some(c'.maxSlots) == change.maxSlots)
      && (change.logic.None? ==> c'.logic == c.logic) && (change.logic.Some? ==> Some(c'.logic) == change.logic)
      && (forall u: nat :: (circle, u) in t.members ==>
           t'.members[(circle, u)].collateral == t.members[(circle, u)].collateral)
  {
  }

  // ----- Reversing -----------------------------------------------------------------------------------------

  /** The request names the payout, the amount, who gives it back and which schedule is reopened, and only the
      payout's status is compared with the payout itself. So a reversal goes through exactly when that payout
      is not yet reversed, the named user can spend the amount and the named schedule exists; the same payout
      cannot be reversed again. The amount goes from the user to the pool, the payout is marked FAILED, the schedule
      UPCOMING, and nothing else moves; in particular a loan the payout repaid stays repaid. */
  lemma {:induction false} ReverseExactly(t: Tables, h: History, payout: nat, recipient: nat, amount: int,
      schedule: (nat, int), again: nat, sum: int, other: (nat, int))
    requires Inv(World(t, h))
    ensures ReversePayout(t, payout, recipient, amount, schedule).Success? <==>
      && payout < |t.payouts| && !t.payouts[payout].status.Failed? && schedule in t.schedules
      && Of(recipient) in t.wallets && 0 < amount <= Available(t.wallets[Of(recipient)])
    ensures ReversePayout(t, payout, recipient, amount, schedule).Success? ==>
      var t' := ReversePayout(t, payout, recipient, amount, schedule).value;
      && BackToPool(t.wallets, recipient, amount, t'.wallets)
      && t' == t.(wallets := t'.wallets, draws := t.draws + 1,
           payouts := t.payouts[payout := t.payouts[payout].(status := PayoutStatus.Failed)],
           schedules := t.schedules[schedule := t.schedules[schedule].(status := ScheduleStatus.Upcoming)])
      && ReversePayout(t', payout, again, sum, other) == Failure(AlreadyFailed)
  {
    hide Inv, Available, Pay, BackToPool;
    if payout < |t.payouts| && !t.payouts[payout].status.Failed? && schedule in t.schedules &&
      Of(recipient) in t.wallets {
      if 0 < amount <= Available(t.wallets[Of(recipient)]) {
        ReversalSucceeds(t, h, payout, recipient, amount, schedule);
        ReversalMoves(t, h, payout, recipient, amount, schedule);
      } else {
        DebitRefused(t.wallets, recipient, amount, t.draws);
      }
    }
  }

  /** One user's balance is down and the pool's up by the amount; buckets and the other wallets are as they were. */
  ghost predicate BackToPool(ws: Wallets, user: nat, amount: int, ws': Wallets) {
    && Pool in ws && Of(user) in ws && ws'.Keys == ws.Keys
    && ws'[Of(user)].buckets == ws[Of(user)].buckets && ws'[Pool].buckets == ws[Pool].buckets
    && Balance(ws'[Of(user)]) == Balance(ws[Of(user)]) - amount
    && Balance(ws'[Pool]) == Balance(ws[Pool]) + amount
    && forall id :: id in ws && id != Pool && id != Of(user) ==> ws'[id] == ws[id]
  }

  lemma {:induction false} ReversalMoves(t: Tables, h: History, payout: nat, recipient: nat, amount: int,
      schedule: (nat, int))
    requires Inv(World(t, h)) && ReversePayout(t, payout, recipient, amount, schedule).Success?
    requires 0 < amount <= Available(t.wallets[Of(recipient)])
    ensures var t' := ReversePayout(t, payout, recipient, amount, schedule).value;
      BackToPool(t.wallets, recipient, amount, t'.wallets)
  {
    hide Inv, Available, Balance, HasKey, Pay, FreshEntries;
    PoolExists(t, h);
    AvailableNow(t, h, Of(recipient));
    AvailableNow(t, h, Pool);
    var p1 := Transfer(Debit, Some(Main), amount, RevDebit, SourceType.Reversal, t.draws);
    var p2 := Transfer(Credit, Some(Main), amount, RevCred, SourceType.Reversal, t.draws);
    NewKey(t.wallets[Of(recipient)], t.draws, p1.ref, p1.source, p1.sourceId);
    NewKey(t.wallets[Pool], t.draws, p2.ref, p2.source, p2.sourceId);
    PaySucceeds(t.wallets, Of(recipient), p1);
    var ws1 := Pay(t.wallets, Of(recipient), p1).value;
    PaySucceeds(ws1, Pool, p2);
    AfterEntry(t.wallets[Of(recipient)], EntryFor(Balance(t.wallets[Of(recipient)]), p1));
    AfterEntry(t.wallets[Pool], EntryFor(Balance(t.wallets[Pool]), p2));
  }

  lemma {:induction false} DebitRefused(ws: Wallets, user: nat, amount: int, draw: nat)
    requires Of(user) in ws && !(0 < amount <= Available(ws[Of(user)]))
    ensures Pay(ws, Of(user), Transfer(Debit, Some(Main), amount, RevDebit, SourceType.Reversal, draw)).Failure?
  {
    hide Available, HasKey, Balance;
  }
}
