/** After a payout, whoever did not pay in is marked down. */
module MissedContributions {
  import opened Wrappers
  import opened Ledger
  import opened Tables
  import opened Contributions
  import opened Payouts
  import opened Platform
  import opened Preservation
  import opened Runs
  import Trust

  predicate PaidIn(rows: seq<ContributionRow>, circle: nat, cycle: int, user: nat) {
    exists i :: 0 <= i < |rows| && ForCycle(rows[i], circle, cycle) && rows[i].user == user
  }

  /** The users the two queries together pick out. */
  function Missing(t: Tables, circle: nat, cycle: int): set<nat> {
    set k | k in t.members && k.0 == circle && t.members[k].status.Active? &&
      !PaidIn(t.contributions, circle, cycle, k.1) :: k.1
  }

  lemma {:induction false} MissingMeans(t: Tables, circle: nat, cycle: int, user: nat)
    ensures user in Missing(t, circle, cycle) <==>
      (circle, user) in t.members && t.members[(circle, user)].status.Active? &&
        !PaidIn(t.contributions, circle, cycle, user)
  {
    hide PaidIn;
    assert (circle, user) in t.members ==> (circle, user).1 == user;
  }

  function Row(stats: map<nat, Trust.Stats>, user: nat): Trust.Stats {
    if user in stats then stats[user] else Trust.NEW_USER
  }

  /** The trust table once each of these users has one missed payment more. */
  function MarkedDown(stats: map<nat, Trust.Stats>, users: set<nat>, months: nat -> int): map<nat, Trust.Stats> {
    map u | u in stats.Keys + users ::
      if u in users then Trust.Updated(Row(stats, u), Trust.MissedPayment(false), months(u)) else stats[u]
  }

  lemma {:induction false} MarkOneMore(stats: map<nat, Trust.Stats>, users: set<nat>, months: nat -> int, u: nat)
    requires u !in users
    ensures Row(MarkedDown(stats, users, months), u) == Row(stats, u)
    ensures MarkedDown(stats, users + {u}, months)
      == MarkedDown(stats, users, months)[u := Trust.Updated(Row(stats, u), Trust.MissedPayment(false), months(u))]
  {
    hide Trust.Updated;
  }

  /** Whoever missed the cycle has one payment more expected and missed, in this cycle too, and one more in a row;
      none of it counts as one after a payout. Whoever did not is left as they were. */
  lemma {:induction false} MarkedDownOnce(stats: map<nat, Trust.Stats>, users: set<nat>, months: nat -> int, u: nat)
    ensures var s, s' := Row(stats, u), Row(MarkedDown(stats, users, months), u);
      if u in users then
        s' == s.(expected := s.expected + 1, missed := s.missed + 1, cycleExpected := s.cycleExpected + 1,
          consecutiveLate := s.consecutiveLate + 1, score := s'.score)
      else s' == s
  {
    hide Trust.Index;
  }

  method RecordMissedContributions(db: Database, trust: Trust.TrustService, circle: nat, cycle: int, months: nat -> int)
    modifies trust
    ensures trust.stats == MarkedDown(old(trust.stats), Missing(db.Snapshot(), circle, cycle), months)
  {
    hide Trust.Updated, PaidIn;
    var missedUserIds := Missing(db.Snapshot(), circle, cycle);
    ghost var before := trust.stats;
    var rest := missedUserIds;
    while rest != {}
      invariant rest <= missedUserIds
      invariant trust.stats == MarkedDown(before, missedUserIds - rest, months)
      decreases |rest|
    {
      var user :| user in rest;
      MarkOneMore(before, missedUserIds - rest, months, user);
      trust.UpdateTrustScore(user, Trust.MissedPayment(false), months(user));
      assert missedUserIds - (rest - {user}) == missedUserIds - rest + {user};
      rest := rest - {user};
    }
    assert missedUserIds - {} == missedUserIds;
  }

  /** The last payout releases and completes every membership: in a circle under way none was released before. */
  lemma {:induction false} NobodyActive(t: Tables, h: History, circle: nat, t': Tables, u: nat)
    requires Inv(World(t, h)) && circle in t.circles && !t.circles[circle].status.Completed?
    requires Finalize(t, circle) == Success(t') && (circle, u) in t'.members
    ensures t'.members[(circle, u)].status.Completed?
  {
    hide Inv, ReleasedWallet;
    MemberLocks(t, h, (circle, u));
  }

  lemma {:induction false} MissingAfter(t: Tables, h: History, circle: nat, cycle: int, t': Tables, u: nat)
    requires Inv(World(t, h)) && ProcessPayout(t, circle, cycle) == Success(t')
    ensures u in Missing(t', circle, cycle) <==>
      cycle != t.circles[circle].durationCycles && u in Missing(t, circle, cycle)
  {
    hide Inv, PaidOut, Finalize, Disburse, HasLivePayout, Pot, Missing, PaidIn;
    var recipient := t.schedules[(circle, cycle)].recipient.value;
    var paid := PaidOut(t, circle, cycle, recipient).value;
    PaidOutKeeps(t, h, circle, cycle, recipient, paid);
    PaidOutCircles(t, circle, cycle, recipient, paid);
    MissingMeans(t, circle, cycle, u);
    MissingMeans(t', circle, cycle, u);
    if cycle == t.circles[circle].durationCycles && (circle, u) in t'.members {
      NobodyActive(paid, h, circle, t', u);
    }
  }

  ghost function PaysCircle(t: Tables, circle: nat, cycle: int): (last: bool)
    requires ProcessPayout(t, circle, cycle).Success?
    ensures circle in t.circles && (last <==> cycle == t.circles[circle].durationCycles)
  {
    cycle == t.circles[circle].durationCycles
  }

  /** The memberships are read after the payout. So a payout leaves the list of those who missed its cycle as
      it was, except that the circle's last payout, which also completes every membership, empties it: nobody
      is marked down for missing the last cycle. */
  lemma {:induction false} LastCycleMarksNobody(t: Tables, h: History, circle: nat, cycle: int, t': Tables)
    requires Inv(World(t, h)) && ProcessPayout(t, circle, cycle) == Success(t')
    ensures Missing(t', circle, cycle) ==
      if cycle == t.circles[circle].durationCycles then {} else Missing(t, circle, cycle)
  {
    hide Inv, ProcessPayout, Missing;
    var last := PaysCircle(t, circle, cycle);
    forall u: nat ensures u in Missing(t', circle, cycle) <==> !last && u in Missing(t, circle, cycle) {
      MissingAfter(t, h, circle, cycle, t', u);
    }
  }
}
