/** What holds in every run of the platform. */
module Theorems {
  import opened Wrappers
  import opened Totals
  import opened Ledger
  import opened Tables
  import opened Memberships
  import opened Loans
  import opened Payouts
  import opened Platform
  import opened Preservation
  import opened Runs
  import opened Guarantees
  import opened Outcomes
  import opened Slots

  // ----- Money -------------------------------------------------------------------------------------------

  /** In every run and for every wallet, the audit is clean, the O(1) balance is the O(n) one, and what is
      reserved is covered. */
  lemma {:induction false} EveryWalletAuditsClean(steps: seq<Step>, id: WalletId)
    requires id in Reached(steps).tables.wallets
    ensures var w := Reached(steps).tables.wallets[id];
      && Chained(w.entries)
      && Balance(w) == Net(w.entries)
      && Reserved(w) == Held(w.entries)
      && Reserved(w) <= Balance(w)
  {
    hide Reached, Reserved, Balance;
    ReachedInv(steps);
    var t := Reached(steps).tables;
    assert GoodWallet(t.wallets[id], t.draws);
    BalanceIsNet(t.wallets[id]);
  }

  /** Nothing but the provider and the loan book creates or destroys money. */
  lemma {:induction false} EveryRunConserves(steps: seq<Step>)
    ensures var w := Reached(steps);
      Total(w.tables.wallets, Balance) == w.history.external + FloatSum(w.tables.loans)
  {
    hide Reached;
    ReachedInv(steps);
  }

  predicate Both(payouts: seq<PayoutRow>, i: nat, j: nat, circle: nat, cycle: int) {
    i < |payouts| && j < |payouts| && IsFor(payouts[i], circle, cycle) && IsFor(payouts[j], circle, cycle)
  }

  ghost predicate AtMostOne(payouts: seq<PayoutRow>, circle: nat, cycle: int) {
    forall i, j :: Both(payouts, i, j, circle, cycle) ==> i == j
  }

  /** The pool covers the pot of every cycle without a payout, all of them at once and each by itself. */
  lemma {:induction false} EveryRunSolvent(steps: seq<Step>, circle: nat, cycle: int)
    ensures var t := Reached(steps).tables;
      && Pool in t.wallets
      && Owed(t.contributions, t.payouts) <= Balance(t.wallets[Pool])
      && (!HasPayout(t.payouts, circle, cycle) ==> Pot(t.contributions, circle, cycle) <= Balance(t.wallets[Pool]))
      && AtMostOne(t.payouts, circle, cycle)
  {
    hide Reached, HasPayout, Balance, Pot, Owed, WalletsInv, CollateralInv, LoansInv, Conserved;
    ReachedInv(steps);
    var t := Reached(steps).tables;
    if !HasPayout(t.payouts, circle, cycle) {
      PoolCoversPot(t, circle, cycle);
    }
    forall i, j | Both(t.payouts, i, j, circle, cycle) ensures i == j {
      OneRow(t, i, j);
    }
  }

  lemma {:induction false} OneRow(t: Tables, i: nat, j: nat)
    requires PoolInv(t) && i < |t.payouts| && j < |t.payouts|
    requires IsFor(t.payouts[i], t.payouts[j].circle, t.payouts[j].cycle)
    ensures i == j
  {
    hide Owed, Balance;
    assert IsFor(t.payouts[j], t.payouts[i].circle, t.payouts[i].cycle);
  }

  /** A user has at most one loan running and takes at most one from a circle. */
  lemma {:induction false} EveryRunLendsOnce(steps: seq<Step>, i: nat, j: nat)
    requires i < j < |Reached(steps).tables.loans|
    ensures var a, b := Reached(steps).tables.loans[i], Reached(steps).tables.loans[j];
      && !(a.user == b.user && a.status.Active? && b.status.Active?)
      && !(a.user == b.user && a.circle == b.circle && Taken(a, a.user, a.circle) && Taken(b, b.user, b.circle))
  {
    hide Reached, WalletsInv, CollateralInv, PoolInv, Conserved;
    ReachedInv(steps);
    var loans := Reached(steps).tables.loans;
    assert loans[i].user == loans[j].user && loans[j].status.Active? ==> Owes(loans[j], loans[i].user);
  }

  /** Every loan ever granted leaves its borrower at least 40% of a positive expected payout, and its parts add
      up to it. */
  lemma {:induction false} EveryLoanIsFair(steps: seq<Step>, i: nat)
    requires i < |Reached(steps).tables.loans|
    ensures var a := Reached(steps).tables.loans[i];
      && 10 * a.finalPayout >= 4 * a.payoutAmount > 0
      && a.loanAmount > 0 && a.companyFee >= 0
      && a.loanAmount + a.companyFee + a.finalPayout == a.payoutAmount
  {
    hide Reached, WalletsInv, CollateralInv, PoolInv, Conserved;
    ReachedInv(steps);
    assert FairTerms(Reached(steps).tables.loans[i]);
  }

  /** In every reachable state a payout whose pot reaches the expected payout repays the recipient's loan
      and leaves at least the final payout the loan recorded; 60% of it is always enough to repay. */
  lemma {:induction false} PotRepaysLoan(steps: seq<Step>, user: nat, circle: nat, pot: int)
    requires FindOwed(Reached(steps).tables.loans, user, circle) < |Reached(steps).tables.loans|
    ensures var loans := Reached(steps).tables.loans;
      var loan := loans[FindOwed(loans, user, circle)];
      var r := Repay(loans, user, circle, pot);
      && (r.loanRepaid <==> pot > Deduction(loan))
      && (10 * pot > 6 * loan.payoutAmount ==> r.loanRepaid)
      && (pot >= loan.payoutAmount ==> r.loanRepaid && r.netPayout >= loan.finalPayout)
      && (r.loanRepaid ==> !HasActive(r.loans, user))
  {
    hide Reached, WalletsInv, CollateralInv, PoolInv, Conserved;
    ReachedInv(steps);
    var loans := Reached(steps).tables.loans;
    var k := FindOwed(loans, user, circle);
    assert FairTerms(loans[k]);
    OnlyLoan(loans, k, user);
  }

  lemma {:induction false} OnlyLoan(loans: seq<LoanRow>, k: nat, user: nat)
    requires LoansInv(loans) && k < |loans| && Owes(loans[k], user)
    ensures !HasActive(loans[k := loans[k].(status := LoanStatus.Repaid)], user)
  {
    var after := loans[k := loans[k].(status := LoanStatus.Repaid)];
    forall i | 0 <= i < |after| ensures !Owes(after[i], user) {
      if i != k {
        assert after[i] == loans[i];
      }
    }
  }

  // ----- Collateral --------------------------------------------------------------------------------------

  function LockIn(m: MembershipRow): int {
    if m.released then 0 else m.collateral
  }

  /** What each of a user's memberships still locks. */
  function LocksOf(members: map<(nat, nat), MembershipRow>, user: nat): map<(nat, nat), int> {
    map k | k in members && k.1 == user :: LockIn(members[k])
  }

  function RefundsOf(refunds: map<SourceId, int>, user: nat): map<SourceId, int> {
    map id | id in refunds && id.Member? && id.user == user :: refunds[id]
  }

  function Remaining(members: map<(nat, nat), MembershipRow>, refunds: map<SourceId, int>, id: SourceId): int {
    Locked(members, id) - if id in refunds then refunds[id] else 0
  }

  function Expected(keys: set<BucketKey>, members: map<(nat, nat), MembershipRow>, refunds: map<SourceId,
      int>): map<BucketKey, int> {
    map key | key in keys :: Remaining(members, refunds, key.source)
  }

  /** The buckets of one user, and every lock and refund of that user is in one of them. */
  ghost predicate Covers(keys: set<BucketKey>, members: map<(nat, nat), MembershipRow>, refunds: map<SourceId, int>,
      user: nat) {
    && (forall key :: key in keys ==> key.bucket == Rosca && key.source.Member? && key.source.user == user)
    && (forall k :: k in members ==> members[k].id.Member? && members[k].id.circle == k.0 && members[k].id.user == k.1)
    && (forall k :: k in members && k.1 == user ==> Key(Rosca, members[k].id) in keys)
    && (forall id :: id in refunds && id.Member? && id.user == user ==> Key(Rosca, id) in keys)
  }

  lemma {:induction false} RefundStep(keys: set<BucketKey>, refunds: map<SourceId, int>, user: nat, id: SourceId)
    requires Covers(keys, map[], refunds, user) && id in refunds
    ensures var rest := refunds - {id};
      && Covers(keys, map[], rest, user)
      && if id.Member? && id.user == user then
           && Expected(keys, map[], refunds) == Expected(keys, map[], rest)[Key(Rosca, id) := -refunds[id]]
           && Key(Rosca, id) in Expected(keys, map[], rest) && Expected(keys, map[], rest)[Key(Rosca, id)] == 0
           && RefundsOf(refunds, user) == RefundsOf(rest, user)[id := refunds[id]]
         else
           && Expected(keys, map[], refunds) == Expected(keys, map[], rest)
           && RefundsOf(refunds, user) == RefundsOf(rest, user)
  {
  }

  lemma {:induction false} ExpectedWithoutMembers(keys: set<BucketKey>, refunds: map<SourceId, int>, user: nat)
    requires Covers(keys, map[], refunds, user)
    ensures Total(Expected(keys, map[], refunds), Same) == -Total(RefundsOf(refunds, user), Same)
    decreases |refunds|
  {
    hide Covers, Expected, RefundsOf, Total;
    if refunds == map[] {
      NothingExpected(keys, user);
    } else {
      var id :| id in refunds;
      var rest := refunds - {id};
      RefundStep(keys, refunds, user, id);
      ExpectedWithoutMembers(keys, rest, user);
      if id.Member? && id.user == user {
        FreshRefund(rest, user, id);
        RefundTotals(Expected(keys, map[], rest), RefundsOf(rest, user), Key(Rosca, id), id, refunds[id]);
      }
    }
  }

  lemma {:induction false} NothingExpected(keys: set<BucketKey>, user: nat)
    ensures Total(Expected(keys, map[], map[]), Same) == 0 && Total(RefundsOf(map[], user), Same) == 0
  {
    TotalZero(Expected(keys, map[], map[]));
    assert RefundsOf(map[], user) == map[];
  }

  lemma {:induction false} RefundTotals(expected: map<BucketKey, int>, refunds: map<SourceId, int>, key: BucketKey,
      id: SourceId, refund: int)
    requires key in expected && expected[key] == 0 && id !in refunds
    ensures Total(expected[key := -refund], Same) == Total(expected, Same) - refund
    ensures Total(refunds[id := refund], Same) == Total(refunds, Same) + refund
  {
    TotalUpdate(expected, Same, key, -refund);
    TotalUpdate(refunds, Same, id, refund);
  }

  lemma {:induction false} FreshRefund(refunds: map<SourceId, int>, user: nat, id: SourceId)
    requires id !in refunds
    ensures id !in RefundsOf(refunds, user)
  {
  }

  lemma {:induction false} LockedWithout(members: map<(nat, nat), MembershipRow>, k: (nat, nat), id: SourceId)
    requires k in members && members[k].id.Member? && members[k].id.circle == k.0 && members[k].id.user == k.1
    ensures Locked(members, id) == Locked(members - {k}, id) + if id == members[k].id then LockIn(members[k]) else 0
  {
  }

  lemma {:induction false} LockStep(keys: set<BucketKey>, members: map<(nat, nat), MembershipRow>,
      refunds: map<SourceId, int>, user: nat, k: (nat, nat))
    requires Covers(keys, members, refunds, user) && k in members
    ensures var rest := members - {k};
      var key := Key(Rosca, members[k].id);
      && Covers(keys, rest, refunds, user)
      && k !in LocksOf(rest, user)
      && if k.1 == user then
           && key in Expected(keys, rest, refunds)
           && Expected(keys, members, refunds)
                == Expected(keys, rest, refunds)[key := Expected(keys, rest, refunds)[key] + LockIn(members[k])]
           && LocksOf(members, user) == LocksOf(rest, user)[k := LockIn(members[k])]
         else
           && Expected(keys, members, refunds) == Expected(keys, rest, refunds)
           && LocksOf(members, user) == LocksOf(rest, user)
  {
    hide Covers, Expected, LocksOf;
    CoversWithout(keys, members, refunds, user, k);
    LocksWithout(members, user, k);
    ExpectedWithout(keys, members, refunds, user, k);
  }

  lemma {:induction false} CoversWithout(keys: set<BucketKey>, members: map<(nat, nat), MembershipRow>,
      refunds: map<SourceId, int>, user: nat, k: (nat, nat))
    requires Covers(keys, members, refunds, user) && k in members
    ensures Covers(keys, members - {k}, refunds, user)
  {
  }

  lemma {:induction false} LocksWithout(members: map<(nat, nat), MembershipRow>, user: nat, k: (nat, nat))
    requires k in members
    ensures k !in LocksOf(members - {k}, user)
    ensures k.1 == user ==> LocksOf(members, user) == LocksOf(members - {k}, user)[k := LockIn(members[k])]
    ensures k.1 != user ==> LocksOf(members, user) == LocksOf(members - {k}, user)
  {
    hide LockIn;
  }

  lemma {:induction false} ExpectedWithout(keys: set<BucketKey>, members: map<(nat, nat), MembershipRow>,
      refunds: map<SourceId, int>, user: nat, k: (nat, nat))
    requires Covers(keys, members, refunds, user) && k in members
    ensures var key := Key(Rosca, members[k].id);
      var rest := Expected(keys, members - {k}, refunds);
      && (k.1 == user ==>
            key in rest && Expected(keys, members, refunds) == rest[key := rest[key] + LockIn(members[k])])
      && (k.1 != user ==> Expected(keys, members, refunds) == rest)
  {
    hide Locked, LockIn;
    forall key | key in keys
      ensures Locked(members, key.source) ==
        Locked(members - {k}, key.source) + if key.source == members[k].id then LockIn(members[k]) else 0
    {
      LockedWithout(members, k, key.source);
    }
  }

  lemma {:induction false} LockAdds(was: map<BucketKey, int>, key: BucketKey, locks: map<(nat, nat), int>,
      k: (nat, nat), lock: int)
    requires key in was && k !in locks
    ensures Total(was[key := was[key] + lock], Same) - Total(was, Same) == lock
    ensures Total(locks[k := lock], Same) - Total(locks, Same) == lock
  {
    TotalUpdate(was, Same, key, was[key] + lock);
    TotalUpdate(locks, Same, k, lock);
  }

  /** One membership adds the same to what is expected in the buckets and to what is locked. */
  lemma {:induction false} LockTotals(keys: set<BucketKey>, members: map<(nat, nat), MembershipRow>,
      refunds: map<SourceId, int>,
                                      user: nat, k: (nat, nat))
    requires Covers(keys, members, refunds, user) && k in members
    ensures Covers(keys, members - {k}, refunds, user)
    ensures Total(Expected(keys, members, refunds), Same) - Total(Expected(keys, members - {k}, refunds), Same)
      == Total(LocksOf(members, user), Same) - Total(LocksOf(members - {k}, user), Same)
  {
    hide LockIn, Covers, LocksOf, Expected, Total;
    LockStep(keys, members, refunds, user, k);
    if k.1 == user {
      LockAdds(Expected(keys, members - {k}, refunds), Key(Rosca, members[k].id), LocksOf(members - {k}, user), k,
        LockIn(members[k]));
    }
  }

  lemma {:induction false} ExpectedTotal(keys: set<BucketKey>, members: map<(nat, nat), MembershipRow>,
      refunds: map<SourceId, int>, user: nat)
    requires Covers(keys, members, refunds, user)
    ensures Total(Expected(keys, members, refunds), Same) ==
      Total(LocksOf(members, user), Same) - Total(RefundsOf(refunds, user), Same)
    decreases |members|
  {
    hide Covers, RefundsOf, LocksOf, Expected, Total;
    if members == map[] {
      NoLocks(user);
      ExpectedWithoutMembers(keys, refunds, user);
    } else {
      var k :| k in members;
      LockTotals(keys, members, refunds, user, k);
      ExpectedTotal(keys, members - {k}, refunds, user);
    }
  }

  lemma {:induction false} NoLocks(user: nat)
    ensures Total(LocksOf(map[], user), Same) == 0
  {
    assert LocksOf(map[], user) == map[];
  }

  lemma {:induction false} BucketsCover(t: Tables, h: History, user: nat)
    requires CollateralInv(t, h) && Of(user) in t.wallets
    ensures Covers(t.wallets[Of(user)].buckets.Keys, t.members, h.refunds, user)
    ensures t.wallets[Of(user)].buckets == Expected(t.wallets[Of(user)].buckets.Keys, t.members, h.refunds)
  {
    hide Locked;
    var buckets := t.wallets[Of(user)].buckets;
    forall key | key in buckets.Keys
      ensures key.bucket == Rosca && key.source.Member? && key.source.user == user
      ensures buckets[key] == Remaining(t.members, h.refunds, key.source)
    {
      assert GoodBucket(t, h, user, key);
    }
    forall k | k in t.members
      ensures t.members[k].id.Member? && t.members[k].id.circle == k.0 && t.members[k].id.user == k.1
      ensures k.1 == user ==> Key(Rosca, t.members[k].id) in buckets.Keys
    {
      assert GoodMember(t, h, k);
    }
    forall id | id in h.refunds && id.Member? && id.user == user ensures Key(Rosca, id) in buckets.Keys {
      assert GoodRefund(t, h, id);
    }
  }

  /** In every run a user's reserved total is the collateral of the memberships not yet released, less
      whatever rejections have already given back for the user's memberships. Without a rejection
      that is exactly what joining locked and completion or leaving has not unlocked; each rejection
      makes it fall short by the refunded collateral, and once the refunds exceed the locks the user can
      spend more than the balance. */
  lemma {:induction false} ReservedIsWhatIsLocked(steps: seq<Step>, user: nat)
    requires Of(user) in Reached(steps).tables.wallets
    ensures var w := Reached(steps);
      var reserved := Reserved(w.tables.wallets[Of(user)]);
      var locks := Total(LocksOf(w.tables.members, user), Same);
      var refunds := RefundsOf(w.history.refunds, user);
      && reserved == locks - Total(refunds, Same)
      && (refunds == map[] ==> 0 <= reserved == locks <= Balance(w.tables.wallets[Of(user)]))
      && (reserved == locks <==> refunds == map[])
      && Available(w.tables.wallets[Of(user)]) == Balance(w.tables.wallets[Of(user)]) - locks + Total(refunds, Same)
      && (Available(w.tables.wallets[Of(user)]) > Balance(w.tables.wallets[Of(user)]) <==> Total(refunds, Same) > locks)
  {
    hide Reached, WalletsInv, PoolInv, LoansInv, Conserved, Covers, GoodMember, GoodBucket, GoodRefund;
    ReachedInv(steps);
    var w := Reached(steps);
    var keys := w.tables.wallets[Of(user)].buckets.Keys;
    BucketsCover(w.tables, w.history, user);
    ExpectedTotal(keys, w.tables.members, w.history.refunds, user);
    EveryWalletAuditsClean(steps, Of(user));
    LocksNotNegative(w.tables, w.history, user);
    RefundsPositive(w.tables, w.history, user);
  }

  lemma {:induction false} LocksNotNegative(t: Tables, h: History, user: nat)
    requires CollateralInv(t, h)
    ensures Total(LocksOf(t.members, user), Same) >= 0
  {
    forall k | k in LocksOf(t.members, user) ensures Same(LocksOf(t.members, user)[k]) >= 0 {
      assert GoodMember(t, h, k);
    }
    TotalNonNegative(LocksOf(t.members, user), Same);
  }

  lemma {:induction false} RefundsPositive(t: Tables, h: History, user: nat)
    requires CollateralInv(t, h)
    ensures RefundsOf(h.refunds, user) == map[] ==> Total(RefundsOf(h.refunds, user), Same) == 0
    ensures RefundsOf(h.refunds, user) != map[] ==> Total(RefundsOf(h.refunds, user), Same) > 0
  {
    var refunds := RefundsOf(h.refunds, user);
    forall id | id in refunds ensures refunds[id] > 0 {
      assert GoodRefund(t, h, id);
    }
    if refunds != map[] {
      var id :| id in refunds;
      TotalSplit(refunds, Same, id);
      TotalNonNegative(refunds - {id}, Same);
    }
  }

  /** In every run each bucket belongs to one membership and holds the collateral that membership still locks, or
      nothing once it is released or gone, less what a rejection gave back for it; and each membership not released
      has its bucket, in its own member's wallet. */
  lemma {:induction false} EveryBucketIsItsLock(steps: seq<Step>, user: nat, key: BucketKey)
    requires Of(user) in Reached(steps).tables.wallets && key in Reached(steps).tables.wallets[Of(user)].buckets
    ensures var w := Reached(steps);
      var id := key.source;
      && key.bucket.Rosca? && id.Member? && id.user == user
      && w.tables.wallets[Of(user)].buckets[key] == Locked(w.tables.members, id) - Refunded(w.history, id)
      && (id !in w.history.refunds ==>
           w.tables.wallets[Of(user)].buckets[key] ==
             if (id.circle, user) in w.tables.members && w.tables.members[(id.circle, user)].id == id
             then LockIn(w.tables.members[(id.circle, user)]) else 0)
  {
    hide Reached, WalletsInv, PoolInv, LoansInv, Conserved;
    ReachedInv(steps);
    assert GoodBucket(Reached(steps).tables, Reached(steps).history, user, key);
  }

  lemma {:induction false} EveryLockHasItsBucket(steps: seq<Step>, k: (nat, nat))
    requires k in Reached(steps).tables.members
    ensures var w := Reached(steps);
      var key := Key(Rosca, w.tables.members[k].id);
      && w.tables.members[k].id.Member? && w.tables.members[k].id.circle == k.0 && w.tables.members[k].id.user == k.1
      && Of(k.1) in w.tables.wallets && key in w.tables.wallets[Of(k.1)].buckets
      && w.tables.wallets[Of(k.1)].buckets[key] ==
           LockIn(w.tables.members[k]) - Refunded(w.history, w.tables.members[k].id)
  {
    hide Reached, Inv;
    ReachedInv(steps);
    MemberLocks(Reached(steps).tables, Reached(steps).history, k);
    BucketHolds(Reached(steps).tables, Reached(steps).history, k);
  }

  // ----- Completion and rejection ------------------------------------------------------------------------

  predicate Emptied(t: Tables, h: History, k: (nat, nat))
    requires k in t.members
  {
    && t.members[k].released
    && Of(k.1) in t.wallets && Key(Rosca, t.members[k].id) in t.wallets[Of(k.1)].buckets
    && t.wallets[Of(k.1)].buckets[Key(Rosca, t.members[k].id)] == -Refunded(h, t.members[k].id)
  }

  /** The last cycle's payout completes the circle and empties the bucket of every membership, except that
      a membership refunded by a rejection ends below zero by its refund. */
  lemma {:induction false} CompletionUnlocks(t: Tables, h: History, circle: nat, cycle: int, t': Tables, u: nat)
    requires Inv(World(t, h)) && ProcessPayout(t, circle, cycle) == Success(t')
    requires cycle == t.circles[circle].durationCycles
    ensures circle in t'.circles && t'.circles[circle].status.Completed?
    ensures (circle, u) in t.members <==> (circle, u) in t'.members
    ensures (circle, u) in t'.members ==> Emptied(t', h, (circle, u))
  {
    hide Inv, PaidOut, Disburse, ReleasedWallet, HasLivePayout, Pot;
    var recipient := t.schedules[(circle, cycle)].recipient.value;
    var paid := PaidOut(t, circle, cycle, recipient).value;
    PaidOutKeeps(t, h, circle, cycle, recipient, paid);
    PaidOutCircles(t, circle, cycle, recipient, paid);
    PayoutKeeps(t, h, circle, cycle, t');
    if (circle, u) in t.members {
      MemberLocks(paid, h, (circle, u));
      MemberLocks(t', h, (circle, u));
      BucketHolds(t', h, (circle, u));
    }
  }

  lemma {:induction false} BucketHolds(t: Tables, h: History, k: (nat, nat))
    requires Inv(World(t, h)) && k in t.members
    ensures var key := Key(Rosca, t.members[k].id);
      && Of(k.1) in t.wallets && key in t.wallets[Of(k.1)].buckets
      && t.wallets[Of(k.1)].buckets[key] == LockIn(t.members[k]) - Refunded(h, t.members[k].id)
  {
    hide WalletsInv, PoolInv, LoansInv, Conserved;
    assert GoodMember(t, h, k);
    assert GoodBucket(t, h, k.1, Key(Rosca, t.members[k].id));
  }

  lemma {:induction false} RefundedTwice(t: Tables, h: History, circle: nat, admin: nat, user: nat,
      t1: Tables)
    requires Inv(World(t, h)) && RejectMember(t, circle, admin, user) == Success(t1)
    requires t.circles[circle].status.Draft? && t.circles[circle].filledSlots >= 0
    ensures LeaveCircle(t1, user, circle).Success?
    ensures var m := t.members[(circle, user)];
      var t2 := LeaveCircle(t1, user, circle).value;
      var key := Key(Rosca, m.id);
      && m.collateral > 0
      && Of(user) in t.wallets && key in t.wallets[Of(user)].buckets
      && t.wallets[Of(user)].buckets[key] == m.collateral
      && Of(user) in t2.wallets && key in t2.wallets[Of(user)].buckets
      && t2.wallets[Of(user)].buckets[key] == -m.collateral
      && (circle, user) !in t2.members
  {
    hide Inv, Pay, Balance;
    var k := (circle, user);
    var m := t.members[k];
    var h1 := h.(refunds := h.refunds[m.id := m.collateral]);
    MemberLocks(t, h, k);
    BucketHolds(t, h, k);
    RejectKeeps(t, h, circle, admin, user, t1);
    RefundsFully(t1, h1, k);
    MemberLocks(t1, h1, k);
    BucketHolds(t1, h1, k);
    var t2 := LeaveCircle(t1, user, circle).value;
    UnlockedWallets(t1, h1, k, t2, h1);
  }
  /** A rejected member of a draft circle can still leave it, and is refunded again: the bucket, which
      held the collateral, ends as far below zero. */
  lemma {:induction false} RejectedLeaverIsRefundedTwice(past: seq<Step>, circle: nat, admin: nat, user: nat,
      t1: Tables)
    requires RejectMember(Reached(past).tables, circle, admin, user) == Success(t1)
    requires Reached(past).tables.circles[circle].status.Draft?
    ensures LeaveCircle(t1, user, circle).Success?
    ensures var t := Reached(past).tables;
      var m := t.members[(circle, user)];
      var t2 := LeaveCircle(t1, user, circle).value;
      var key := Key(Rosca, m.id);
      && m.collateral > 0
      && Of(user) in t.wallets && key in t.wallets[Of(user)].buckets
      && t.wallets[Of(user)].buckets[key] == m.collateral
      && Of(user) in t2.wallets && key in t2.wallets[Of(user)].buckets
      && t2.wallets[Of(user)].buckets[key] == -m.collateral
      && (circle, user) !in t2.members
  {
    hide Reached, Inv, RejectMember, LeaveCircle;
    var w := Reached(past);
    ReachedInv(past);
    RejectNeedsCircle(w.tables, circle, admin, user);
    SlotToGiveBack(past, circle, user);
    RefundedTwice(w.tables, w.history, circle, admin, user, t1);
  }

  lemma {:induction false} RejectNeedsCircle(t: Tables, circle: nat, admin: nat, user: nat)
    ensures RejectMember(t, circle, admin, user).Success? ==> circle in t.circles && (circle, user) in t.members
  {
    hide Pay;
  }

  /** In every reachable state leaving works exactly for a membership of a draft circle, and returns its
      collateral to what can be spent: the slot counter never stands in the way. */
  lemma {:induction false} LeaveExactly(past: seq<Step>, user: nat, circle: nat)
    ensures var t := Reached(past).tables;
      && (LeaveCircle(t, user, circle).Success? <==>
           circle in t.circles && t.circles[circle].status.Draft? && (circle, user) in t.members)
      && (LeaveCircle(t, user, circle).Success? ==>
           var t' := LeaveCircle(t, user, circle).value;
           && (circle, user) !in t'.members && Of(user) in t.wallets && Of(user) in t'.wallets
           && Balance(t'.wallets[Of(user)]) == Balance(t.wallets[Of(user)])
           && Available(t'.wallets[Of(user)]) == Available(t.wallets[Of(user)]) + t.members[(circle, user)].collateral)
  {
    hide Reached, Inv, LeaveCircle, Balance, Available;
    var w := Reached(past);
    ReachedInv(past);
    LeaveOutcome(w.tables, w.history, user, circle);
    if circle in w.tables.circles && w.tables.circles[circle].status.Draft? {
      SlotToGiveBack(past, circle, user);
    }
  }
}
