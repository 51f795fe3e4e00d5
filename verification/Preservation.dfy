/** Each step of the platform keeps the invariant. */
module Preservation {
  import opened Wrappers
  import opened Totals
  import opened Ledger
  import opened Tables
  import opened Memberships
  import opened Contributions
  import opened Loans
  import opened Payouts
  import opened Circles
  import opened Platform
  import A = Audit
  import Credit

  // ----- One ledger write -------------------------------------------------------------------------------

  lemma {:induction false} LaterDraws(ws: Wallets, n: nat, m: nat)
    requires WalletsInv(ws, n) && n <= m
    ensures WalletsInv(ws, m)
  {
    hide Sound, Available;
  }

  lemma {:induction false} FreshAppend(es: seq<Entry>, e: Entry, n: nat)
    requires FreshEntries(es, n) && (e.ref.Drawn? ==> e.ref.draw < n)
    ensures FreshEntries(es + [e], n)
  {
  }

  /** A UUID not drawn yet is in no entry. */
  lemma {:induction false} NewKey(w: Wallet, n: nat, ref: Reference, source: SourceType, id: SourceId)
    requires FreshEntries(w.entries, n) && ref.Drawn? && ref.draw >= n
    ensures !HasKey(w.entries, ref, source, id)
  {
  }

  lemma {:induction false} GoodWrite(w: Wallet, p: Params, n: nat)
    requires GoodWallet(w, n) && Write(w, p).Success? && !Orphan(w, p)
    requires p.ref.Drawn? && p.ref.draw < n
    ensures GoodWallet(Write(w, p).value, n)
  {
    WriteEffect(w, p);
    FreshAppend(w.entries, EntryFor(Balance(w), p), n);
    hide Chained, Reserved, Balance, FreshEntries, Held;
  }

  lemma {:induction false} WalletsUpdate(ws: Wallets, n: nat, id: WalletId, w: Wallet)
    requires WalletsInv(ws, n) && id in ws && GoodWallet(w, n) && (id == Pool ==> w.buckets == map[])
    ensures WalletsInv(ws[id := w], n)
  {
    hide GoodWallet;
  }

  lemma {:induction false} PayKeeps(ws: Wallets, n: nat, id: WalletId, p: Params, ws': Wallets)
    requires WalletsInv(ws, n) && Pay(ws, id, p) == Success(ws')
    requires p.ref.Drawn? && p.ref.draw < n
    requires id in ws && !Orphan(ws[id], p) && (id == Pool ==> !Holds(p.kind))
    ensures WalletsInv(ws', n)
    ensures Write(ws[id], p).Success? && ws' == ws[id := Write(ws[id], p).value]
    ensures Balance(ws'[id]) == Balance(ws[id]) + Delta(p.kind, p.amount)
    ensures ws'[id].buckets == BucketsAfter(ws[id].buckets, p)
    ensures Total(ws', Balance) == Total(ws, Balance) + Delta(p.kind, p.amount)
  {
    hide GoodWallet, Balance, Reserved, Chained, Held;
    assert GoodWallet(ws[id], n);
    GoodWrite(ws[id], p, n);
    WriteEffect(ws[id], p);
    TotalUpdate(ws, Balance, id, Write(ws[id], p).value);
    WalletsUpdate(ws, n, id, Write(ws[id], p).value);
  }

  ghost predicate SameBuckets(ws: Wallets, ws': Wallets) {
    ws'.Keys == ws.Keys && forall id :: id in ws ==> ws'[id].buckets == ws[id].buckets
  }

  /** A credit or debit. */
  lemma {:induction false} PayMain(ws: Wallets, n: nat, id: WalletId, p: Params, ws': Wallets)
    requires WalletsInv(ws, n) && Pay(ws, id, p) == Success(ws')
    requires p.ref.Drawn? && p.ref.draw < n && !Holds(p.kind)
    ensures id in ws && WalletsInv(ws', n) && SameBuckets(ws, ws')
    ensures forall o :: o in ws && o != id ==> ws'[o] == ws[o]
    ensures Balance(ws'[id]) == Balance(ws[id]) + Delta(p.kind, p.amount)
    ensures Total(ws', Balance) == Total(ws, Balance) + Delta(p.kind, p.amount)
    ensures p.amount > 0
  {
    hide WalletsInv, Balance;
    PayKeeps(ws, n, id, p, ws');
  }

  /** A debit of a user's wallet and the credit of the pool that goes with it. */
  lemma {:induction false} PaidOver(ws: Wallets, n: nat, user: nat, p: Params, q: Params, ws1: Wallets, ws2: Wallets)
    requires WalletsInv(ws, n) && Pay(ws, Of(user), p) == Success(ws1) && Pay(ws1, Pool, q) == Success(ws2)
    requires p.ref.Drawn? && p.ref.draw < n && p.kind.Debit?
    requires q.ref.Drawn? && q.ref.draw < n && q.kind.Credit? && q.amount == p.amount
    ensures WalletsInv(ws2, n) && SameBuckets(ws, ws2) && Pool in ws && Of(user) in ws && p.amount > 0
    ensures Balance(ws2[Pool]) == Balance(ws[Pool]) + p.amount
    ensures Balance(ws2[Of(user)]) == Balance(ws[Of(user)]) - p.amount
    ensures forall o :: o in ws && o != Pool && o != Of(user) ==> ws2[o] == ws[o]
    ensures Total(ws2, Balance) == Total(ws, Balance)
  {
    hide WalletsInv, Balance, Pay;
    PayMain(ws, n, Of(user), p, ws1);
    PayMain(ws1, n, Pool, q, ws2);
  }

  lemma {:induction false} CollectKeeps(ws: Wallets, user: nat, amount: int, penalty: int, draw: nat, ws': Wallets)
    requires WalletsInv(ws, draw) && Collect(ws, user, amount, penalty, draw) == Success(ws')
    ensures WalletsInv(ws', draw + 1) && SameBuckets(ws, ws') && Pool in ws
    ensures Balance(ws'[Pool]) == Balance(ws[Pool]) + amount + if penalty > 0 then penalty else 0
    ensures Of(user) in ws && Balance(ws'[Of(user)]) ==
      Balance(ws[Of(user)]) - amount - if penalty > 0 then penalty else 0
    ensures forall o :: o in ws && o != Pool && o != Of(user) ==> ws'[o] == ws[o]
    ensures Total(ws', Balance) == Total(ws, Balance)
    ensures amount > 0
  {
    hide WalletsInv, Balance, Pay;
    LaterDraws(ws, draw, draw + 1);
    var p1 := Transfer(Debit, Some(Main), amount, Contrib, SourceType.Contribution, draw);
    var p2 := Transfer(Credit, Some(Main), amount, PoolCred, SourceType.Contribution, draw);
    var ws1 := Pay(ws, Of(user), p1).value;
    var ws2 := Pay(ws1, Pool, p2).value;
    PaidOver(ws, draw + 1, user, p1, p2, ws1, ws2);
    if penalty > 0 {
      var p3 := Transfer(Debit, None, penalty, Pen, SourceType.Penalty, draw);
      var p4 := Transfer(Credit, None, penalty, PoolPen, SourceType.Penalty, draw);
      PaidOver(ws2, draw + 1, user, p3, p4, Pay(ws2, Of(user), p3).value, ws');
    }
  }

  lemma {:induction false} DisburseKeeps(ws: Wallets, recipient: nat, pot: int, net: int, fee: int, draw: nat,
      ws': Wallets)
    requires WalletsInv(ws, draw) && Disburse(ws, recipient, pot, net, fee, draw) == Success(ws')
    ensures WalletsInv(ws', draw + 1) && SameBuckets(ws, ws') && Pool in ws && Of(recipient) in ws
    ensures Balance(ws'[Pool]) == Balance(ws[Pool]) - pot + if fee > 0 then fee else 0
    ensures Balance(ws'[Of(recipient)]) == Balance(ws[Of(recipient)]) + net
    ensures forall o :: o in ws && o != Pool && o != Of(recipient) ==> ws'[o] == ws[o]
    ensures Total(ws', Balance) == Total(ws, Balance) - pot + net + if fee > 0 then fee else 0
  {
    hide WalletsInv, Balance, Post;
    LaterDraws(ws, draw, draw + 1);
    var p1 := Transfer(Debit, Some(Main), pot, PoolDebit, SourceType.RoscaCircle, draw);
    var p2 := Transfer(Credit, Some(Main), net, PayoutRef, SourceType.RoscaCircle, draw);
    var ws1 := Pay(ws, Pool, p1).value;
    var ws2 := Pay(ws1, Of(recipient), p2).value;
    PayMain(ws, draw + 1, Pool, p1, ws1);
    PayMain(ws1, draw + 1, Of(recipient), p2, ws2);
    if fee > 0 {
      PayMain(ws2, draw + 1, Pool, Transfer(Credit, Some(Main), fee, PlatformFeeRef, SourceType.PlatformFee, draw),
        ws');
    }
  }

  // ----- Frames -----------------------------------------------------------------------------------------

  /** Memberships may change their status, place and counters, not what they lock. */
  ghost predicate SameLocks(t: Tables, t': Tables) {
    && t'.members.Keys == t.members.Keys
    && (forall k :: k in t.members ==>
         && t'.members[k].id == t.members[k].id
         && t'.members[k].collateral == t.members[k].collateral
         && t'.members[k].released == t.members[k].released
         && (t'.members[k].status.Pending? ==> t.members[k].status.Pending?))
    && (forall c :: c in t.circles ==>
          c in t'.circles && (t.circles[c].status.Completed? <==> t'.circles[c].status.Completed?))
    && (forall c :: c in t'.circles ==> t'.circles[c].amount > 0)
  }

  /** Buckets are never removed. */
  ghost predicate BucketsGrow(ws: Wallets, ws': Wallets) {
    forall id :: id in ws ==> id in ws' && ws[id].buckets.Keys <= ws'[id].buckets.Keys
  }

  lemma {:induction false} RefundsFrame(t: Tables, h: History, t': Tables, h': History)
    requires CollateralInv(t, h) && BucketsGrow(t.wallets, t'.wallets) && t.draws <= t'.draws && h'.refunds == h.refunds
    ensures forall id :: id in h'.refunds ==> GoodRefund(t', h', id)
  {
    hide GoodMember, GoodBucket;
    forall id | id in h'.refunds ensures GoodRefund(t', h', id) {
      assert GoodRefund(t, h, id);
    }
  }

  lemma {:induction false} CollateralFrame(t: Tables, h: History, t': Tables, h': History)
    requires CollateralInv(t, h) && SameBuckets(t.wallets, t'.wallets) && SameLocks(t, t')
    requires t.draws <= t'.draws && h'.refunds == h.refunds
    ensures CollateralInv(t', h')
  {
    hide GoodBucket, GoodMember, GoodRefund;
    RefundsFrame(t, h, t', h');
    forall u: nat, key | Of(u) in t'.wallets && key in t'.wallets[Of(u)].buckets ensures GoodBucket(t', h', u, key) {
      assert GoodBucket(t, h, u, key);
      BucketFrame(t, h, t', h', u, key);
    }
    forall k | k in t'.members ensures GoodMember(t', h', k) {
      assert GoodMember(t, h, k);
      MemberFrame(t, h, t', h', k);
    }
  }

  lemma {:induction false} BucketFrame(t: Tables, h: History, t': Tables, h': History, u: nat, key: BucketKey)
    requires Of(u) in t.wallets && key in t.wallets[Of(u)].buckets && GoodBucket(t, h, u, key)
    requires SameBuckets(t.wallets, t'.wallets) && SameLocks(t, t')
    requires t.draws <= t'.draws && h'.refunds == h.refunds
    ensures GoodBucket(t', h', u, key)
  {
  }

  lemma {:induction false} MemberFrame(t: Tables, h: History, t': Tables, h': History, k: (nat, nat))
    requires k in t.members && GoodMember(t, h, k)
    requires SameBuckets(t.wallets, t'.wallets) && SameLocks(t, t')
    requires t.draws <= t'.draws && h'.refunds == h.refunds
    ensures GoodMember(t', h', k)
  {
  }

  lemma {:induction false} AmountsPositive(t: Tables, h: History)
    requires CollateralInv(t, h)
    ensures forall c :: c in t.circles ==> t.circles[c].amount > 0
  {
  }

  lemma {:induction false} PoolFrame(t: Tables, t': Tables)
    requires PoolInv(t) && t.wallets.Keys <= t'.wallets.Keys
    requires Balance(t'.wallets[Pool]) >= Balance(t.wallets[Pool])
    requires t'.contributions == t.contributions && t'.payouts == t.payouts && t'.schedules == t.schedules
    ensures PoolInv(t')
  {
    hide Owed, Balance;
  }

  // ----- Contributing -------------------------------------------------------------------------------------

  lemma {:induction false} OwedAppend(rows: seq<ContributionRow>, row: ContributionRow, payouts: seq<PayoutRow>)
    ensures Owed(rows + [row], payouts) ==
      Owed(rows, payouts) + if HasPayout(payouts, row.circle, row.cycle) then 0 else Paid(row)
  {
    assert (rows + [row])[..|rows|] == rows;
  }

  lemma {:induction false} ContributionLocks(t: Tables, k: (nat, nat), isLate: bool, penalty: int, t': Tables)
    requires k in t.members && t'.members == t.members[k := Contributed(t.members[k], isLate, penalty)]
    requires t'.circles == t.circles
    requires forall c :: c in t.circles ==> t.circles[c].amount > 0
    ensures SameLocks(t, t')
  {
  }

  lemma {:induction false} ContributeKeeps(t: Tables, h: History, now: int, user: nat, circle: nat, cycle: int,
      t': Tables)
    requires Inv(World(t, h)) && MakeContribution(t, now, user, circle, cycle) == Success(t')
    ensures Inv(World(t', h))
  {
    hide Owed, Balance, Collect, WalletsInv, CollateralInv, LoansInv, PoolInv, HasPayout, MakeContribution, SameLocks,
         SameBuckets, LateFee;
    AmountsPositive(t, h);
    ContributionMade(t, now, user, circle, cycle, t');
    var c := t.circles[circle];
    var isLate := now > t.schedules[(circle, cycle)].deadline;
    LatePenaltyBounds(c.amount, isLate);
    CollectKeeps(t.wallets, user, c.amount, LateFee(c.amount, isLate), t.draws, t'.wallets);
    SameBucketsKeys(t.wallets, t'.wallets);
    ContributionLocks(t, (circle, user), isLate, LateFee(c.amount, isLate), t');
    PoolGrows(t, t'.contributions[|t.contributions|], t');
    CollateralFrame(t, h, t', h);
  }

  lemma {:induction false} SameBucketsKeys(ws: Wallets, ws': Wallets)
    requires SameBuckets(ws, ws')
    ensures ws'.Keys == ws.Keys
  {
  }

  /** What an accepted contribution makes of the tables. */
  lemma {:induction false} ContributionMade(t: Tables, now: int, user: nat, circle: nat, cycle: int, t': Tables)
    requires MakeContribution(t, now, user, circle, cycle) == Success(t')
    ensures circle in t.circles && (circle, user) in t.members && (circle, cycle) in t.schedules
    ensures var c, m := t.circles[circle], t.members[(circle, user)];
      var isLate := now > t.schedules[(circle, cycle)].deadline;
      var penalty := LateFee(c.amount, isLate);
      && Collect(t.wallets, user, c.amount, penalty, t.draws) == Success(t'.wallets)
      && t' == t.(wallets := t'.wallets, draws := t.draws + 1,
           contributions := t.contributions + [ContributionRow(circle, user, m.id, cycle, c.amount, penalty)],
           members := t.members[(circle, user) := Contributed(m, isLate, penalty)])
  {
    hide Collect, LateFee, HasContributed;
  }

  lemma {:induction false} PoolGrows(t: Tables, row: ContributionRow, t': Tables)
    requires PoolInv(t) && t'.contributions == t.contributions + [row] && Paid(row) > 0
    requires t'.payouts == t.payouts && t'.schedules == t.schedules && t'.wallets.Keys == t.wallets.Keys
    requires Balance(t'.wallets[Pool]) == Balance(t.wallets[Pool]) + Paid(row)
    ensures PoolInv(t')
  {
    hide Owed, Balance, HasPayout;
    OwedAppend(t.contributions, row, t.payouts);
  }


  // ----- Paying out ---------------------------------------------------------------------------------------

  lemma {:induction false} PotPositive(rows: seq<ContributionRow>, circle: nat, cycle: int)
    requires forall i :: 0 <= i < |rows| ==> Paid(rows[i]) > 0
    ensures Pot(rows, circle, cycle) >= 0
    decreases |rows|
  {
    if |rows| > 0 {
      var front := rows[..|rows| - 1];
      PotPositive(front, circle, cycle);
    }
  }

  /** The first payout of a cycle takes exactly that cycle's pot off what the pool owes. */
  lemma {:induction false} OwedAfterPayout(rows: seq<ContributionRow>, payouts: seq<PayoutRow>, p: PayoutRow)
    requires !HasPayout(payouts, p.circle, p.cycle)
    ensures Owed(rows, payouts + [p]) == Owed(rows, payouts) - Pot(rows, p.circle, p.cycle)
    decreases |rows|
  {
    if |rows| > 0 {
      var row := rows[|rows| - 1];
      OwedAfterPayout(rows[..|rows| - 1], payouts, p);
      PaidNow(payouts, p, row.circle, row.cycle);
      hide HasPayout;
    }
  }

  lemma {:induction false} PaidNow(payouts: seq<PayoutRow>, p: PayoutRow, circle: nat, cycle: int)
    ensures HasPayout(payouts + [p], circle, cycle) <==> HasPayout(payouts, circle, cycle) || IsFor(p, circle, cycle)
  {
    var after := payouts + [p];
    assert after[|payouts|] == p;
    forall i | 0 <= i < |payouts| ensures after[i] == payouts[i] {
    }
  }

  lemma {:induction false} RepayKeepsLoans(loans: seq<LoanRow>, user: nat, circle: nat, pot: int)
    requires LoansInv(loans)
    ensures LoansInv(Repay(loans, user, circle, pot).loans)
  {
  }

  lemma {:induction false} PotNotNegative(t: Tables, circle: nat, cycle: int)
    requires PoolInv(t)
    ensures Pot(t.contributions, circle, cycle) >= 0
  {
    hide Owed, Balance, Pot;
    PotPositive(t.contributions, circle, cycle);
  }

  /** What a payout's own writes make of the tables. */
  lemma {:induction false} PaidOutTables(t: Tables, circle: nat, cycle: int, recipient: nat, t': Tables)
    requires (circle, cycle) in t.schedules && PaidOut(t, circle, cycle, recipient) == Success(t')
    ensures !HasPayout(t.payouts, circle, cycle)
    ensures var pot := Pot(t.contributions, circle, cycle);
      var repayment := Repay(t.loans, recipient, circle, pot);
      var fee := FeeOn(pot, repayment.loanRepaid);
      var net := repayment.netPayout - fee;
      && Disburse(t.wallets, recipient, pot, net, fee, t.draws) == Success(t'.wallets)
      && t' == t.(wallets := t'.wallets, loans := repayment.loans, draws := t.draws + 1,
           payouts := t.payouts + [PayoutRow(circle, cycle, recipient, net, PayoutStatus.Completed)],
           schedules := t.schedules[(circle, cycle) :=
             t.schedules[(circle, cycle)].(status := ScheduleStatus.Completed)])
  {
    hide Disburse, Repay, HasPayout, Pot;
  }

  lemma {:induction false} PaidOutKeeps(t: Tables, h: History, circle: nat, cycle: int, recipient: nat, t': Tables)
    requires Inv(World(t, h)) && (circle, cycle) in t.schedules && Pot(t.contributions, circle, cycle) != 0
    requires t.schedules[(circle, cycle)].recipient == Some(recipient)
    requires PaidOut(t, circle, cycle, recipient) == Success(t')
    ensures Inv(World(t', h))
  {
    hide Owed, Balance, Disburse, WalletsInv, CollateralInv, LoansInv, PoolInv, HasPayout, Repay, Pot, PaidOut,
         FloatSum;
    AmountsPositive(t, h);
    PaidOutTables(t, circle, cycle, recipient, t');
    var pot := Pot(t.contributions, circle, cycle);
    var repayment := Repay(t.loans, recipient, circle, pot);
    var fee := FeeOn(pot, repayment.loanRepaid);
    var payout := t'.payouts[|t.payouts|];
    PotNotNegative(t, circle, cycle);
    RepayBalances(t.loans, recipient, circle, pot);
    DisburseKeeps(t.wallets, recipient, pot, repayment.netPayout - fee, fee, t.draws, t'.wallets);
    SameBucketsKeys(t.wallets, t'.wallets);
    SameMembers(t, t');
    hide SameLocks, SameBuckets;
    CollateralFrame(t, h, t', h);
    RepayKeepsLoans(t.loans, recipient, circle, pot);
    PoolPays(t, payout, t');
  }

  lemma {:induction false} SameMembers(t: Tables, t': Tables)
    requires t'.members == t.members && t'.circles == t.circles
    requires forall c :: c in t.circles ==> t.circles[c].amount > 0
    ensures SameLocks(t, t')
  {
  }

  /** A pot leaves the pool together with what the pool owes for it, whatever else comes back. */
  lemma {:induction false} PoolPays(t: Tables, p: PayoutRow, t': Tables)
    requires PoolInv(t) && t'.payouts == t.payouts + [p] && !HasPayout(t.payouts, p.circle, p.cycle)
    requires t'.contributions == t.contributions && t'.wallets.Keys == t.wallets.Keys
    requires (p.circle, p.cycle) in t.schedules
    requires t'.schedules == t.schedules[(p.circle, p.cycle) :=
      t.schedules[(p.circle, p.cycle)].(status := ScheduleStatus.Completed)]
    requires Balance(t'.wallets[Pool]) >= Balance(t.wallets[Pool]) - Pot(t.contributions, p.circle, p.cycle)
    ensures PoolInv(t')
  {
    hide Owed, Balance, HasPayout, Pot;
    OwedAfterPayout(t.contributions, t.payouts, p);
    PayoutRowsDistinct(t.payouts, p);
  }

  lemma {:induction false} PayoutRowsDistinct(payouts: seq<PayoutRow>, p: PayoutRow)
    requires forall i, j :: 0 <= i < j < |payouts| ==> !IsFor(payouts[j], payouts[i].circle, payouts[i].cycle)
    requires !HasPayout(payouts, p.circle, p.cycle)
    ensures var after := payouts + [p];
      forall i, j :: 0 <= i < j < |after| ==> !IsFor(after[j], after[i].circle, after[i].cycle)
  {
  }

  // ----- Completing -----------------------------------------------------------------------------------------

  /** A due release cannot fail: the collateral is positive, its bucket exists, its UUID is new. */
  lemma {:induction false} ReleaseSucceeds(t: Tables, h: History, circle: nat, u: nat)
    requires Inv(World(t, h)) && Due(t, circle, u)
    ensures ReleasedWallet(t, circle, u).Success?
    ensures var w, w' := t.wallets[Of(u)], ReleasedWallet(t, circle, u).value;
      var key := Key(Rosca, t.members[(circle, u)].id);
      && GoodWallet(w', t.draws + 1)
      && Balance(w') == Balance(w)
      && Available(w') > Available(w)
      && key in w.buckets
      && w'.buckets == w.buckets[key := w.buckets[key] - t.members[(circle, u)].collateral]
  {
    hide Inv, Sound, Reserved, Balance, FreshEntries, HasKey;
    var w, p := t.wallets[Of(u)], ReleaseParams(t.members[(circle, u)], t.draws);
    MemberBucket(t, h, (circle, u));
    HasGoodWallet(t, h, Of(u));
    NewKey(w, t.draws, p.ref, p.source, p.sourceId);
    GoodWallets(w, t.draws);
    GoodWrite(w, p, t.draws + 1);
    WriteEffect(w, p);
  }

  lemma {:induction false} GoodWallets(w: Wallet, n: nat)
    requires GoodWallet(w, n)
    ensures GoodWallet(w, n + 1)
  {
    hide Sound, Available;
  }

  lemma {:induction false} HasGoodWallet(t: Tables, h: History, id: WalletId)
    requires Inv(World(t, h)) && id in t.wallets
    ensures GoodWallet(t.wallets[id], t.draws)
  {
    hide PoolInv, LoansInv, Conserved, CollateralInv, GoodWallet;
  }

  lemma {:induction false} HasGoodWallets(t: Tables, h: History)
    requires Inv(World(t, h))
    ensures WalletsInv(t.wallets, t.draws)
  {
    hide PoolInv, LoansInv, Conserved, CollateralInv, WalletsInv;
  }

  lemma {:induction false} MemberBucket(t: Tables, h: History, k: (nat, nat))
    requires Inv(World(t, h)) && k in t.members && Of(k.1) in t.wallets
    ensures Key(Rosca, t.members[k].id) in t.wallets[Of(k.1)].buckets && t.members[k].collateral > 0
  {
    hide Inv;
    HasGoodMember(t, h, k);
  }

  lemma {:induction false} FinalizeSucceeds(t: Tables, h: History, circle: nat)
    requires Inv(World(t, h)) && circle in t.circles
    ensures Finalize(t, circle).Success?
  {
    hide ReleasedWallet, Due, Inv;
    forall u: nat | Due(t, circle, u) ensures ReleasedWallet(t, circle, u).Success? {
      ReleaseSucceeds(t, h, circle, u);
    }
  }

  lemma {:induction false} HasGoodBucket(t: Tables, h: History, u: nat, key: BucketKey)
    requires Inv(World(t, h)) && Of(u) in t.wallets && key in t.wallets[Of(u)].buckets
    ensures GoodBucket(t, h, u, key)
  {
    hide PoolInv, LoansInv, Conserved, WalletsInv, GoodBucket, GoodMember;
  }

  lemma {:induction false} FinalizedTables(t: Tables, circle: nat, t': Tables)
    requires circle in t.circles && Finalize(t, circle) == Success(t')
    ensures t'.members == CloseAll(t, circle) && t'.draws == t.draws + 1 && t'.wallets.Keys == t.wallets.Keys
  {
    hide ReleasedWallet, CloseAll, Due;
  }

  /** Completion takes its collateral out of the bucket of a due membership, and touches no other. */
  lemma {:induction false} ReleasedFrom(t: Tables, h: History, circle: nat, t': Tables, u: nat)
    requires Inv(World(t, h)) && circle in t.circles && Finalize(t, circle) == Success(t') && Of(u) in t.wallets
    ensures Of(u) in t'.wallets
    ensures !Due(t, circle, u) ==> t'.wallets[Of(u)] == t.wallets[Of(u)]
    ensures Due(t, circle, u) ==>
      var m, buckets := t.members[(circle, u)], t.wallets[Of(u)].buckets;
      var key := Key(Rosca, m.id);
      key in buckets && t'.wallets[Of(u)].buckets == buckets[key := buckets[key] - m.collateral]
  {
    hide Inv, ReleasedWallet, Due, CloseAll;
    if Due(t, circle, u) {
      ReleaseSucceeds(t, h, circle, u);
    }
  }

  /** A completed circle's memberships lock nothing; all others lock what they did. */
  lemma {:induction false} LocksAfter(t: Tables, circle: nat, u: nat, id: SourceId)
    requires Of(u) in t.wallets && id.Member? && id.user == u
    requires (circle, u) in t.members ==>
      t.members[(circle, u)].id.Member? && t.members[(circle, u)].id.circle == circle
    ensures Due(t, circle, u) && t.members[(circle, u)].id == id ==>
      Locked(CloseAll(t, circle), id) == 0 && Locked(t.members, id) == t.members[(circle, u)].collateral
    ensures !(Due(t, circle, u) && t.members[(circle, u)].id == id) ==>
      Locked(CloseAll(t, circle), id) == Locked(t.members, id)
  {
  }

  lemma {:induction false} MembershipId(t: Tables, h: History, k: (nat, nat))
    requires Inv(World(t, h)) && k in t.members
    ensures t.members[k].id.Member? && t.members[k].id.circle == k.0
  {
    hide Inv;
    HasGoodMember(t, h, k);
  }

  lemma {:induction false} ReleasedBucket(t: Tables, h: History, circle: nat, t': Tables, u: nat, key: BucketKey)
    requires Inv(World(t, h)) && circle in t.circles && Finalize(t, circle) == Success(t')
    requires Of(u) in t'.wallets && key in t'.wallets[Of(u)].buckets
    ensures GoodBucket(t', h, u, key)
  {
    hide Inv, Finalize, Locked, Refunded, Due, CloseAll;
    FinalizedTables(t, circle, t');
    ReleasedFrom(t, h, circle, t', u);
    HasGoodBucket(t, h, u, key);
    if (circle, u) in t.members {
      MembershipId(t, h, (circle, u));
    }
    LocksAfter(t, circle, u, key.source);
  }

  lemma {:induction false} ReleasedWallets(t: Tables, h: History, circle: nat, t': Tables)
    requires Inv(World(t, h)) && circle in t.circles && Finalize(t, circle) == Success(t')
    ensures WalletsInv(t'.wallets, t'.draws)
    ensures t'.wallets.Keys == t.wallets.Keys
    ensures forall id :: id in t.wallets ==> Balance(t'.wallets[id]) == Balance(t.wallets[id])
    ensures forall id :: id in t.wallets ==> t.wallets[id].buckets.Keys == t'.wallets[id].buckets.Keys
  {
    hide ReleasedWallet, CollateralInv, PoolInv, LoansInv, Conserved, GoodWallet, Balance;
    LaterDraws(t.wallets, t.draws, t.draws + 1);
    forall id | id in t.wallets
      ensures GoodWallet(t'.wallets[id], t.draws + 1)
      ensures Balance(t'.wallets[id]) == Balance(t.wallets[id])
      ensures t.wallets[id].buckets.Keys == t'.wallets[id].buckets.Keys
    {
      if id.Of? && Due(t, circle, id.user) {
        ReleaseSucceeds(t, h, circle, id.user);
      }
    }
  }

  lemma {:induction false} ReleasedMember(t: Tables, h: History, circle: nat, t': Tables, k: (nat, nat))
    requires Inv(World(t, h)) && circle in t.circles && Finalize(t, circle) == Success(t')
    requires k in t'.members
    ensures GoodMember(t', h, k)
  {
    hide ReleasedWallet, WalletsInv, GoodBucket, Balance, PoolInv, LoansInv, Conserved;
    ReleasedWallets(t, h, circle, t');
    assert GoodMember(t, h, k);
  }

  lemma {:induction false} ReleasedCollateral(t: Tables, h: History, circle: nat, t': Tables)
    requires Inv(World(t, h)) && circle in t.circles && Finalize(t, circle) == Success(t')
    ensures CollateralInv(t', h)
  {
    hide ReleasedWallet, GoodBucket, GoodMember, WalletsInv, PoolInv, LoansInv, Conserved;
    ReleasedWallets(t, h, circle, t');
    RefundsFrame(t, h, t', h);
    forall k | k in t'.members ensures GoodMember(t', h, k) {
      ReleasedMember(t, h, circle, t', k);
    }
    forall u: nat, key | Of(u) in t'.wallets && key in t'.wallets[Of(u)].buckets ensures GoodBucket(t', h, u, key) {
      ReleasedBucket(t, h, circle, t', u, key);
    }
  }

  lemma {:induction false} FinalizeKeeps(t: Tables, h: History, circle: nat, t': Tables)
    requires Inv(World(t, h)) && circle in t.circles && Finalize(t, circle) == Success(t')
    ensures Inv(World(t', h))
  {
    hide ReleasedWallet, WalletsInv, CollateralInv, Balance, LoansInv;
    ReleasedWallets(t, h, circle, t');
    ReleasedCollateral(t, h, circle, t');
    TotalEqual(t.wallets, t'.wallets, Balance);
    PoolFrame(t, t');
  }

  lemma {:induction false} PayoutKeeps(t: Tables, h: History, circle: nat, cycle: int, t': Tables)
    requires Inv(World(t, h)) && ProcessPayout(t, circle, cycle) == Success(t')
    ensures Inv(World(t', h))
  {
    hide PaidOut, Finalize, Inv;
    var recipient := t.schedules[(circle, cycle)].recipient.value;
    var paid := PaidOut(t, circle, cycle, recipient).value;
    PaidOutKeeps(t, h, circle, cycle, recipient, paid);
    if cycle == t.circles[circle].durationCycles {
      PaidOutCircles(t, circle, cycle, recipient, paid);
      FinalizeKeeps(paid, h, circle, t');
    }
  }

  lemma {:induction false} PaidOutCircles(t: Tables, circle: nat, cycle: int, recipient: nat, t': Tables)
    requires (circle, cycle) in t.schedules && PaidOut(t, circle, cycle, recipient) == Success(t')
    ensures t'.circles == t.circles && t'.members == t.members && t'.contributions == t.contributions
  {
  }

  // ----- Reversing --------------------------------------------------------------------------------------------

  lemma {:induction false} OwedIgnoresStatus(rows: seq<ContributionRow>, before: seq<PayoutRow>, after: seq<PayoutRow>)
    requires |before| == |after|
    requires forall i :: 0 <= i < |before| ==> after[i].circle == before[i].circle && after[i].cycle == before[i].cycle
    ensures Owed(rows, after) == Owed(rows, before)
    decreases |rows|
  {
    if |rows| > 0 {
      var row := rows[|rows| - 1];
      OwedIgnoresStatus(rows[..|rows| - 1], before, after);
      assert forall i :: 0 <= i < |before| ==>
        (IsFor(after[i], row.circle, row.cycle) <==> IsFor(before[i], row.circle, row.cycle));
    }
  }

  lemma {:induction false} ReverseWrites(ws: Wallets, draw: nat, recipient: nat, amount: int, ws1: Wallets,
      ws2: Wallets)
    requires WalletsInv(ws, draw)
    requires Pay(ws, Of(recipient), Transfer(Debit, Some(Main), amount, RevDebit, SourceType.Reversal, draw)) ==
      Success(ws1)
    requires Pay(ws1, Pool, Transfer(Credit, Some(Main), amount, RevCred, SourceType.Reversal, draw)) == Success(ws2)
    ensures WalletsInv(ws2, draw + 1) && SameBuckets(ws, ws2) && Pool in ws && Of(recipient) in ws && amount > 0
    ensures Balance(ws2[Pool]) == Balance(ws[Pool]) + amount
    ensures Balance(ws2[Of(recipient)]) == Balance(ws[Of(recipient)]) - amount
    ensures Total(ws2, Balance) == Total(ws, Balance)
  {
    hide WalletsInv, Balance, Pay;
    LaterDraws(ws, draw, draw + 1);
    PaidOver(ws, draw + 1, recipient, Transfer(Debit, Some(Main), amount, RevDebit, SourceType.Reversal, draw),
      Transfer(Credit, Some(Main), amount, RevCred, SourceType.Reversal, draw), ws1, ws2);
  }

  lemma {:induction false} ReverseKeeps(t: Tables, h: History, payout: nat, recipient: nat, amount: int,
      schedule: (nat, int), t': Tables)
    requires Inv(World(t, h)) && ReversePayout(t, payout, recipient, amount, schedule) == Success(t')
    ensures Inv(World(t', h))
  {
    hide Owed, Balance, WalletsInv, CollateralInv, LoansInv, Pay;
    AmountsPositive(t, h);
    var ws1 := Pay(t.wallets, Of(recipient),
      Transfer(Debit, Some(Main), amount, RevDebit, SourceType.Reversal, t.draws)).value;
    ReverseWrites(t.wallets, t.draws, recipient, amount, ws1, t'.wallets);
    SameMembers(t, t');
    SameBucketsKeys(t.wallets, t'.wallets);
    hide SameLocks, SameBuckets;
    CollateralFrame(t, h, t', h);
    PoolTakesBack(t, payout, schedule, t');
    hide PoolInv;
  }

  lemma {:induction false} PoolTakesBack(t: Tables, payout: nat, schedule: (nat, int), t': Tables)
    requires PoolInv(t) && payout < |t.payouts| && schedule in t.schedules
    requires t'.payouts == t.payouts[payout := t.payouts[payout].(status := PayoutStatus.Failed)]
    requires t'.schedules == t.schedules[schedule := t.schedules[schedule].(status := ScheduleStatus.Upcoming)]
    requires t'.contributions == t.contributions && t'.wallets.Keys == t.wallets.Keys
    requires Balance(t'.wallets[Pool]) >= Balance(t.wallets[Pool])
    ensures PoolInv(t')
  {
    hide Owed, Balance;
    OwedIgnoresStatus(t.contributions, t.payouts, t'.payouts);
  }

  // ----- Lending ----------------------------------------------------------------------------------------------

  lemma {:induction false} LendKeepsLoans(loans: seq<LoanRow>, loan: LoanRow)
    requires LoansInv(loans) && loan.status.Active? && FairTerms(loan)
    requires !HasActive(loans, loan.user) && !HasTaken(loans, loan.user, loan.circle)
    ensures LoansInv(loans + [loan])
  {
    var after := loans + [loan];
    forall i, j | 0 <= i < j < |after| && after[i].status.Active? ensures !Owes(after[j], after[i].user) {
      if j == |loans| {
        assert Owes(loans[i], loans[i].user);
      }
    }
  }

  lemma {:induction false} LentFairly(user: nat, circle: nat, payout: int, score: int, loan: LoanRow)
    requires Credit.AllowedPercent(score).Some? && loan.loanAmount > 0
    requires loan == Terms(user, circle, payout, Credit.AllowedPercent(score).value)
    ensures FairTerms(loan)
  {
    Credit.TierTable(score);
    var percent := Credit.AllowedPercent(score).value;
    if payout <= 0 {
      NotFromNothing(payout, percent);
    }
    hide Credit.AllowedPercent;
    FinalPayoutFloor(user, circle, payout, score);
  }

  lemma {:induction false} NotFromNothing(amount: int, percent: int)
    requires percent > 0 && amount <= 0
    ensures amount * percent / 100 <= 0
  {
  }

  /** What a granted loan makes of the tables. */
  lemma {:induction false} LoanMade(t: Tables, seen: Tables, user: nat, circle: nat, score: int, t': Tables)
    requires ApplyLoan(t, seen, user, circle, score) == Success(t')
    ensures circle in seen.circles && Credit.AllowedPercent(score).Some? && |t'.loans| == |t.loans| + 1
    ensures !HasActive(t.loans, user) && !HasTaken(t.loans, user, circle)
    ensures var c, loan := seen.circles[circle], t'.loans[|t.loans|];
      && loan == Terms(user, circle, c.amount * c.filledSlots, Credit.AllowedPercent(score).value)
      && loan.user == user && loan.circle == circle && loan.status.Active?
      && Pay(t.wallets, Of(user),
           Params(Credit, None, loan.loanAmount, Drawn(LoanDisburse, t.draws), SourceType.Loan, Row(t.draws)))
         == Success(t'.wallets)
      && t' == t.(wallets := t'.wallets, draws := t.draws + 1, loans := t.loans + [loan])
  {
    hide Pay, HasActive, HasTaken;
  }

  lemma {:induction false} BorrowKeeps(t: Tables, h: History, seen: Tables, user: nat, circle: nat, score: int,
      t': Tables)
    requires Inv(World(t, h)) && ApplyLoan(t, seen, user, circle, score) == Success(t')
    ensures Inv(World(t', h))
  {
    hide Balance, WalletsInv, CollateralInv, LoansInv, HasActive, HasTaken, Pay, Owed, ApplyLoan, Terms;
    AmountsPositive(t, h);
    LaterDraws(t.wallets, t.draws, t.draws + 1);
    LoanMade(t, seen, user, circle, score, t');
    var loan := t'.loans[|t.loans|];
    PayMain(t.wallets, t.draws + 1, Of(user),
      Params(Credit, None, loan.loanAmount, Drawn(LoanDisburse, t.draws), SourceType.Loan, Row(t.draws)), t'.wallets);
    SameBucketsKeys(t.wallets, t'.wallets);
    SameMembers(t, t');
    hide SameLocks, SameBuckets;
    CollateralFrame(t, h, t', h);
    LentFairly(user, circle, seen.circles[circle].amount * seen.circles[circle].filledSlots, score, loan);
    LendKeepsLoans(t.loans, loan);
    FloatAppend(t.loans, loan);
    PoolFrame(t, t');
  }

  // ----- Money from and to the provider -----------------------------------------------------------------------

  lemma {:induction false} ProviderEffect(w: Wallet, op: A.Op, n: nat, w': Wallet)
    requires Provider(op) && GoodWallet(w, n) && A.Attempt(w, op) == Success(w')
    ensures GoodWallet(w', n) && w'.buckets == w.buckets
    ensures Balance(w') == Balance(w) + ExternalAmount(op)
  {
    hide Chained, Reserved, Balance, HasKey;
    A.StepKeepsChain(w, op);
    BalanceIsNet(w);
    var e := w'.entries[|w.entries|];
    assert w'.entries == w.entries + [e] && !e.ref.Drawn?;
    FreshAppend(w.entries, e, n);
    match op
    case SnapshotCredit(amount, ref, source, id) => A.InsertEffect(w, Balance(w), Credit, amount, ref, source, id);
    case HistoryDebit(amount, ref, id) => A.InsertEffect(w, Net(w.entries), Debit, amount, ref, Transaction, id);
    case HistoryCredit(amount, ref, id) => A.InsertEffect(w, Net(w.entries), Credit, amount, ref, SourceType.Reversal,
      id);
  }

  lemma {:induction false} MovedKeeps(t: Tables, h: History, user: nat, op: A.Op, t': Tables)
    requires Inv(World(t, h)) && Provider(op) && Moved(t, user, op) == Success(t')
    ensures Inv(World(t', h.(external := h.external + ExternalAmount(op))))
  {
    hide Balance, CollateralInv, LoansInv, GoodWallet, Owed, A.Attempt, ExternalAmount;
    AmountsPositive(t, h);
    var w, w' := t.wallets[Of(user)], t'.wallets[Of(user)];
    assert GoodWallet(w, t.draws);
    ProviderEffect(w, op, t.draws, w');
    WalletsUpdate(t.wallets, t.draws, Of(user), w');
    TotalUpdate(t.wallets, Balance, Of(user), w');
    CollateralFrame(t, h, t', h.(external := h.external + ExternalAmount(op)));
    PoolFrame(t, t');
  }

  lemma {:induction false} OpenedCollateral(t: Tables, h: History, user: nat, t': Tables)
    requires CollateralInv(t, h) && OpenedWallet(t, user) == Success(t')
    ensures CollateralInv(t', h)
  {
    hide Locked, Refunded;
    RefundsFrame(t, h, t', h);
    forall k | k in t'.members ensures GoodMember(t', h, k) {
      assert GoodMember(t, h, k);
    }
    forall u: nat, key | Of(u) in t'.wallets && key in t'.wallets[Of(u)].buckets ensures GoodBucket(t', h, u, key) {
      assert GoodBucket(t, h, u, key);
    }
  }

  lemma {:induction false} EmptyWalletGood(n: nat)
    ensures GoodWallet(Wallet([], map[]), n) && Balance(Wallet([], map[])) == 0
  {
  }

  lemma {:induction false} OpenedKeeps(t: Tables, h: History, user: nat, t': Tables)
    requires Inv(World(t, h)) && OpenedWallet(t, user) == Success(t')
    ensures Inv(World(t', h))
  {
    hide GoodWallet, Balance, LoansInv, CollateralInv, Owed;
    EmptyWalletGood(t.draws);
    OpenedCollateral(t, h, user, t');
    TotalUpdate(t.wallets, Balance, Of(user), Wallet([], map[]));
    PoolFrame(t, t');
  }

  // ----- Steps that move no money -----------------------------------------------------------------------------

  /** A step that leaves wallets, locks, contributions, payouts and loans alone. */
  lemma {:induction false} QuietKeeps(t: Tables, h: History, t': Tables)
    requires Inv(World(t, h)) && SameLocks(t, t')
    requires t' == t.(circles := t'.circles, members := t'.members, schedules := t'.schedules, invites := t'.invites)
    requires forall k :: k in t'.schedules && t'.schedules[k].recipient.Some? ==>
      Of(t'.schedules[k].recipient.value) in t.wallets
    ensures Inv(World(t', h))
  {
    hide WalletsInv, CollateralInv, LoansInv, Owed, Balance;
    CollateralFrame(t, h, t', h);
  }

  lemma {:induction false} ActivateKeeps(t: Tables, h: History, a: Activation, t': Tables)
    requires Inv(World(t, h)) && Ready(t, a) && ActivateCircle(t, a) == Success(t')
    ensures Inv(World(t', h))
  {
    hide Inv, Ready, ActivateCircle;
    ActivationQuiet(t, h, a, t');
    ActivationRecipients(t, h, a, t');
    QuietKeeps(t, h, t');
  }

  lemma {:induction false} ActivationQuiet(t: Tables, h: History, a: Activation, t': Tables)
    requires Inv(World(t, h)) && Ready(t, a) && ActivateCircle(t, a) == Success(t')
    ensures SameLocks(t, t')
    ensures t' == t.(circles := t'.circles, members := t'.members, schedules := t'.schedules, invites := t'.invites)
  {
    hide WalletsInv, PoolInv, LoansInv, Conserved, Scheduled, Order, Rows, GoodBucket, GoodMember, GoodRefund;
    AmountsPositive(t, h);
    ActivationFrame(t, a);
  }

  lemma {:induction false} ActivationRecipients(t: Tables, h: History, a: Activation, t': Tables)
    requires Inv(World(t, h)) && Ready(t, a) && ActivateCircle(t, a) == Success(t')
    ensures forall k :: k in t'.schedules && t'.schedules[k].recipient.Some? ==>
      Of(t'.schedules[k].recipient.value) in t.wallets
  {
    hide Inv, Scheduled, Positioned, Order, Rows, Assigned, Unrepeated;
    ActivationFrame(t, a);
    RecipientsPaidSoFar(t, h);
    forall k | k in t'.schedules && t'.schedules[k].recipient.Some?
      ensures Of(t'.schedules[k].recipient.value) in t.wallets
    {
      if k.0 == a.circle && 1 <= k.1 <= |a.listing| {
        ActivationCycle(t, a, k.1);
        MemberWallet(t, h, (a.circle, t'.schedules[k].recipient.value));
      }
    }
  }

  lemma {:induction false} RecipientsPaidSoFar(t: Tables, h: History)
    requires Inv(World(t, h))
    ensures forall k :: k in t.schedules && t.schedules[k].recipient.Some? ==>
      Of(t.schedules[k].recipient.value) in t.wallets
  {
    hide WalletsInv, CollateralInv, LoansInv, Conserved, Owed, Balance;
  }

  lemma {:induction false} MemberWallet(t: Tables, h: History, k: (nat, nat))
    requires Inv(World(t, h)) && k in t.members
    ensures Of(k.1) in t.wallets
  {
    hide Inv;
    HasGoodMember(t, h, k);
  }

  // ----- Joining ----------------------------------------------------------------------------------------------

  /** Circles may fill a slot. */
  ghost predicate SameTerms(cs: map<nat, CircleRow>, cs': map<nat, CircleRow>) {
    && cs'.Keys == cs.Keys
    && forall c :: c in cs ==> cs'[c].amount == cs[c].amount && cs'[c].status == cs[c].status
  }

  /** t' is t with one more membership, whose collateral was reserved. */
  ghost predicate Enrolled(t: Tables, k: (nat, nat), m: MembershipRow, t': Tables) {
    && k !in t.members && k.0 in t.circles && !t.circles[k.0].status.Completed?
    && m.id == Member(k.0, k.1, t.draws) && !m.released
    && Pay(t.wallets, Of(k.1), ReserveParams(m.id, m.collateral, t.draws)) == Success(t'.wallets)
    && SameTerms(t.circles, t'.circles)
    && t' == t.(wallets := t'.wallets, circles := t'.circles, invites := t'.invites,
                members := t.members[k := m], draws := t.draws + 1)
  }

  lemma {:induction false} EnrolledWallets(t: Tables, h: History, k: (nat, nat), m: MembershipRow, t': Tables)
    requires Inv(World(t, h)) && Enrolled(t, k, m, t')
    ensures WalletsInv(t'.wallets, t'.draws)
    ensures Of(k.1) in t.wallets && Key(Rosca, m.id) !in t.wallets[Of(k.1)].buckets && m.collateral > 0
    ensures t'.wallets == t.wallets[Of(k.1) := t'.wallets[Of(k.1)]]
    ensures Balance(t'.wallets[Of(k.1)]) == Balance(t.wallets[Of(k.1)])
    ensures t'.wallets[Of(k.1)].buckets == t.wallets[Of(k.1)].buckets[Key(Rosca, m.id) := m.collateral]
    ensures Total(t'.wallets, Balance) == Total(t.wallets, Balance)
  {
    hide Balance, WalletsInv, PoolInv, LoansInv, Conserved, GoodMember;
    LaterDraws(t.wallets, t.draws, t.draws + 1);
    PayKeeps(t.wallets, t.draws + 1, Of(k.1), ReserveParams(m.id, m.collateral, t.draws), t'.wallets);
    assert Key(Rosca, m.id) in t.wallets[Of(k.1)].buckets ==> GoodBucket(t, h, k.1, Key(Rosca, m.id));
  }

  lemma {:induction false} EnrolledBucket(t: Tables, h: History, k: (nat, nat), m: MembershipRow, t': Tables, u: nat,
      key: BucketKey)
    requires Inv(World(t, h)) && Enrolled(t, k, m, t')
    requires Of(u) in t'.wallets && key in t'.wallets[Of(u)].buckets
    ensures GoodBucket(t', h, u, key)
  {
    hide Balance, WalletsInv, PoolInv, LoansInv, Conserved, Pay, Locked;
    EnrolledWallets(t, h, k, m, t');
    EnrolledLock(t.members, k, m, key.source);
    assert key in t.wallets[Of(u)].buckets ==> GoodBucket(t, h, u, key);
  }

  lemma {:induction false} EnrolledLock(members: map<(nat, nat), MembershipRow>, k: (nat, nat), m: MembershipRow,
      id: SourceId)
    requires k !in members && m.id.Member? && m.id.circle == k.0 && m.id.user == k.1 && !m.released
    ensures Locked(members[k := m], id) == if id == m.id then m.collateral else Locked(members, id)
  {
  }

  lemma {:induction false} EnrolledMember(t: Tables, h: History, k: (nat, nat), m: MembershipRow, t': Tables,
      j: (nat, nat))
    requires Inv(World(t, h)) && Enrolled(t, k, m, t') && j in t'.members
    ensures GoodMember(t', h, j)
  {
    hide Balance, WalletsInv, PoolInv, LoansInv, Conserved, Pay, GoodBucket;
    EnrolledWallets(t, h, k, m, t');
    if j != k {
      assert GoodMember(t, h, j);
    }
  }

  lemma {:induction false} EnrolledRest(t: Tables, h: History, k: (nat, nat), m: MembershipRow, t': Tables)
    requires Inv(World(t, h)) && Enrolled(t, k, m, t')
    ensures forall id :: id in h.refunds ==> GoodRefund(t', h, id)
    ensures forall c :: c in t'.circles ==> t'.circles[c].amount > 0
  {
    hide GoodMember, GoodBucket, Pay, GoodRefund, WalletsInv, PoolInv, LoansInv, Conserved;
    EnrolledWallets(t, h, k, m, t');
    RefundsFrame(t, h, t', h);
  }

  lemma {:induction false} EnrolledCollateral(t: Tables, h: History, k: (nat, nat), m: MembershipRow, t': Tables)
    requires Inv(World(t, h)) && Enrolled(t, k, m, t')
    ensures CollateralInv(t', h)
  {
    hide GoodMember, GoodBucket, Enrolled, WalletsInv, PoolInv, LoansInv, Conserved;
    forall j | j in t'.members ensures GoodMember(t', h, j) {
      EnrolledMember(t, h, k, m, t', j);
    }
    forall u: nat, key | Of(u) in t'.wallets && key in t'.wallets[Of(u)].buckets ensures GoodBucket(t', h, u, key) {
      EnrolledBucket(t, h, k, m, t', u, key);
    }
    EnrolledRest(t, h, k, m, t');
  }

  lemma {:induction false} EnrolledKeeps(t: Tables, h: History, k: (nat, nat), m: MembershipRow, t': Tables)
    requires Inv(World(t, h)) && Enrolled(t, k, m, t')
    ensures Inv(World(t', h))
  {
    hide Balance, WalletsInv, CollateralInv, LoansInv, Pay, Owed;
    EnrolledWallets(t, h, k, m, t');
    EnrolledCollateral(t, h, k, m, t');
    PoolFrame(t, t');
  }

  // ----- Leaving ----------------------------------------------------------------------------------------------

  /** t' is t after the collateral of membership k was released: the row is gone, or it stays and the
      history remembers the refund. */
  ghost predicate Unlocked(t: Tables, h: History, k: (nat, nat), t': Tables, h': History) {
    && k in t.members && !t.members[k].released
    && Pay(t.wallets, Of(k.1), RefundParams(t.members[k], t.draws)) == Success(t'.wallets)
    && SameTerms(t.circles, t'.circles)
    && t' == t.(wallets := t'.wallets, circles := t'.circles, members := t'.members, draws := t.draws + 1)
    && h' == h.(refunds := h'.refunds)
    && var m := t.members[k];
    && if k in t'.members then
         && t.members[k].status.Pending?
         && t'.members == t.members[k := m.(status := MembershipStatus.Rejected)]
         && h'.refunds == h.refunds[m.id := m.collateral]
       else
         && t'.members == t.members - {k}
         && h'.refunds == h.refunds
  }

  lemma {:induction false} UnlockedWallets(t: Tables, h: History, k: (nat, nat), t': Tables, h': History)
    requires Inv(World(t, h)) && Unlocked(t, h, k, t', h')
    ensures var m := t.members[k];
      && WalletsInv(t'.wallets, t'.draws)
      && Of(k.1) in t.wallets && Key(Rosca, m.id) in t.wallets[Of(k.1)].buckets
      && t'.wallets == t.wallets[Of(k.1) := t'.wallets[Of(k.1)]]
      && Balance(t'.wallets[Of(k.1)]) == Balance(t.wallets[Of(k.1)])
      && t'.wallets[Of(k.1)].buckets
           == t.wallets[Of(k.1)].buckets[Key(Rosca, m.id) :=
             t.wallets[Of(k.1)].buckets[Key(Rosca, m.id)] - m.collateral]
      && Total(t'.wallets, Balance) == Total(t.wallets, Balance)
  {
    hide Balance, WalletsInv, Inv;
    MemberWallet(t, h, k);
    MemberBucket(t, h, k);
    HasGoodWallets(t, h);
    LaterDraws(t.wallets, t.draws, t.draws + 1);
    PayKeeps(t.wallets, t.draws + 1, Of(k.1), RefundParams(t.members[k], t.draws), t'.wallets);
  }

  /** Unlocking moves the lock, or the refund, of that membership alone. */
  lemma {:induction false} UnlockedBalance(t: Tables, h: History, k: (nat, nat), t': Tables, h': History, id: SourceId)
    requires Inv(World(t, h)) && Unlocked(t, h, k, t', h')
    ensures Locked(t'.members, id) - Refunded(h', id)
      == Locked(t.members, id) - Refunded(h, id) - if id == t.members[k].id then t.members[k].collateral else 0
  {
    hide Inv, Pay;
    HasGoodMember(t, h, k);
  }

  lemma {:induction false} UnlockedBucket(t: Tables, h: History, k: (nat, nat), t': Tables, h': History, u: nat,
      key: BucketKey)
    requires Inv(World(t, h)) && Unlocked(t, h, k, t', h')
    requires Of(u) in t'.wallets && key in t'.wallets[Of(u)].buckets
    ensures GoodBucket(t', h', u, key)
  {
    hide Balance, Inv, Pay, Locked, Refunded;
    UnlockedWallets(t, h, k, t', h');
    UnlockedBalance(t, h, k, t', h', key.source);
    HasGoodMember(t, h, k);
    HasGoodBucket(t, h, u, key);
  }

  lemma {:induction false} UnlockedMember(t: Tables, h: History, k: (nat, nat), t': Tables, h': History, j: (nat, nat))
    requires Inv(World(t, h)) && Unlocked(t, h, k, t', h') && j in t'.members
    ensures GoodMember(t', h', j)
  {
    hide Balance, Pay, Inv;
    UnlockedKeys(t, h, k, t', h', j);
    HasGoodMember(t, h, j);
    HasGoodMember(t, h, k);
  }

  lemma {:induction false} UnlockedKeys(t: Tables, h: History, k: (nat, nat), t': Tables, h': History, j: (nat, nat))
    requires Inv(World(t, h)) && Unlocked(t, h, k, t', h') && j in t.members
    ensures Of(j.1) in t'.wallets && Key(Rosca, t.members[j].id) in t'.wallets[Of(j.1)].buckets
  {
    hide Balance, Pay, Inv, Unlocked;
    UnlockedWallets(t, h, k, t', h');
    MemberWallet(t, h, j);
    MemberBucket(t, h, j);
  }

  lemma {:induction false} HasGoodMember(t: Tables, h: History, k: (nat, nat))
    requires Inv(World(t, h)) && k in t.members
    ensures GoodMember(t, h, k)
  {
    hide PoolInv, LoansInv, Conserved, WalletsInv, GoodBucket, GoodMember, GoodRefund;
  }

  lemma {:induction false} UnlockedRest(t: Tables, h: History, k: (nat, nat), t': Tables, h': History)
    requires Inv(World(t, h)) && Unlocked(t, h, k, t', h')
    ensures forall id :: id in h'.refunds ==> GoodRefund(t', h', id)
    ensures forall c :: c in t'.circles ==> t'.circles[c].amount > 0
  {
    hide GoodBucket, Pay, WalletsInv, PoolInv, LoansInv, Conserved;
    UnlockedWallets(t, h, k, t', h');
    RefundsFrame(t, h, t', h);
    assert GoodMember(t, h, k);
  }

  lemma {:induction false} UnlockedCollateral(t: Tables, h: History, k: (nat, nat), t': Tables, h': History)
    requires Inv(World(t, h)) && Unlocked(t, h, k, t', h')
    ensures CollateralInv(t', h')
  {
    hide GoodMember, GoodBucket, Unlocked, WalletsInv, PoolInv, LoansInv, Conserved;
    forall j | j in t'.members ensures GoodMember(t', h', j) {
      UnlockedMember(t, h, k, t', h', j);
    }
    forall u: nat, key | Of(u) in t'.wallets && key in t'.wallets[Of(u)].buckets ensures GoodBucket(t', h', u, key) {
      UnlockedBucket(t, h, k, t', h', u, key);
    }
    UnlockedRest(t, h, k, t', h');
  }

  lemma {:induction false} UnlockedKeeps(t: Tables, h: History, k: (nat, nat), t': Tables, h': History)
    requires Inv(World(t, h)) && Unlocked(t, h, k, t', h')
    ensures Inv(World(t', h'))
  {
    hide Balance, WalletsInv, CollateralInv, LoansInv, Pay, Owed;
    UnlockedWallets(t, h, k, t', h');
    UnlockedCollateral(t, h, k, t', h');
    PoolFrame(t, t');
  }
}
