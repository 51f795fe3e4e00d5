/** Cycle contributions: paired ledger entries from a member's wallet into the pool. */
module Contributions {
  import opened Wrappers
  import opened Ledger
  import opened Tables
  import Trust

  /** Rows of one cycle of one circle. */
  predicate ForCycle(row: ContributionRow, circle: nat, cycle: int) {
    row.circle == circle && row.cycle == cycle
  }

  predicate HasContributed(rows: seq<ContributionRow>, circle: nat, member: SourceId, cycle: int) {
    exists i :: 0 <= i < |rows| && ForCycle(rows[i], circle, cycle) && rows[i].member == member
  }

  /** 2% of the contribution, charged after the deadline: Math.round(2 * 100) parts in 10000. */
  function LatePenalty(amount: int): (fee: int)
    ensures 50 * fee <= amount < 50 * (fee + 1)
  {
    amount * 200 / 10000
  }

  function LateFee(amount: int, isLate: bool): (fee: int)
    ensures if isLate then 50 * fee <= amount < 50 * (fee + 1) else fee == 0
  {
    if isLate then LatePenalty(amount) else 0
  }

  function Transfer(kind: EntryType, bucket: Option<BucketType>, amount: int, tag: Label, source: SourceType,
      draw: nat): Params {
    Params(kind, bucket, amount, Drawn(tag, draw), source, Row(draw))
  }

  function Contributed(m: MembershipRow, isLate: bool, penalty: int): MembershipRow {
    m.(completedCycles := m.completedCycles + 1,
       latePayments := m.latePayments + if isLate then 1 else 0,
       penaltiesPaid := m.penaltiesPaid + if penalty > 0 then penalty else 0)
  }

  /** The four ledger writes, the last two only when there is a penalty. */
  ghost function Collect(ws: Wallets, user: nat, amount: int, penalty: int, draw: nat): Result<Wallets, Error> {
    var ws1 :- Pay(ws, Of(user), Transfer(Debit, Some(Main), amount, Contrib, SourceType.Contribution, draw));
    var ws2 :- Pay(ws1, Pool, Transfer(Credit, Some(Main), amount, PoolCred, SourceType.Contribution, draw));
    if penalty > 0 then
      var ws3 :- Pay(ws2, Of(user), Transfer(Debit, None, penalty, Pen, SourceType.Penalty, draw));
      Pay(ws3, Pool, Transfer(Credit, None, penalty, PoolPen, SourceType.Penalty, draw))
    else Success(ws2)
  }

  ghost function MakeContribution(t: Tables, now: int, user: nat, circle: nat, cycle: int): Result<Tables, Error> {
    if circle !in t.circles then Failure(CircleNotFound)
    else if !t.circles[circle].status.Active? then Failure(CircleNotActive)
    else if (circle, user) !in t.members || !t.members[(circle, user)].status.Active? then Failure(NotAMember)
    else if (circle, cycle) !in t.schedules then Failure(NoSchedule)
    else
      var c, m, schedule := t.circles[circle], t.members[(circle, user)], t.schedules[(circle, cycle)];
      if HasContributed(t.contributions, circle, m.id, cycle) then Failure(AlreadyContributed)
      else if Pool !in t.wallets then Failure(PoolNotConfigured)
      else if Of(user) !in t.wallets then Failure(WalletNotFound)
      else if now >= schedule.payoutDate then Failure(WindowClosed)
      else
        var isLate := now > schedule.deadline;
        var penalty := LateFee(c.amount, isLate);
        var ws :- Collect(t.wallets, user, c.amount, penalty, t.draws);
        Success(t.(wallets := ws, draws := t.draws + 1,
                   contributions := t.contributions + [ContributionRow(circle, user, m.id, cycle, c.amount, penalty)],
                   members := t.members[(circle, user) := Contributed(m, isLate, penalty)]))
  }

  method CollectTx(db: Database, user: nat, amount: int, penalty: int) returns (r: Result<(), Error>)
    modifies db.ledger
    ensures match Collect(old(db.ledger.wallets), user, amount, penalty, db.draws)
      case Failure(e) => r == Failure(e) && db.ledger.wallets == old(db.ledger.wallets)
      case Success(ws) => r.Success? && db.ledger.wallets == ws
  {
    hide Pay;
    var saved := db.ledger.wallets;
    var w := db.WriteEntry(Of(user), Transfer(Debit, Some(Main), amount, Contrib, SourceType.Contribution, db.draws));
    if w.Success? {
      w := db.WriteEntry(Pool, Transfer(Credit, Some(Main), amount, PoolCred, SourceType.Contribution, db.draws));
    }
    if w.Success? && penalty > 0 {
      w := db.WriteEntry(Of(user), Transfer(Debit, None, penalty, Pen, SourceType.Penalty, db.draws));
      if w.Success? {
        w := db.WriteEntry(Pool, Transfer(Credit, None, penalty, PoolPen, SourceType.Penalty, db.draws));
      }
    }
    if w.Failure? {
      db.ledger.wallets := saved;
      return Failure(w.error);
    }
    return Success(());
  }

  /** The counters of the membership. */
  method CountContribution(db: Database, circle: nat, user: nat, isLate: bool, penalty: int)
    requires (circle, user) in db.members
    modifies db`members
    ensures db.members ==
      old(db.members)[(circle, user) := Contributed(old(db.members)[(circle, user)], isLate, penalty)]
  {
    var m := db.members[(circle, user)];
    m := m.(completedCycles := m.completedCycles + 1);
    if isLate {
      m := m.(latePayments := m.latePayments + 1);
    }
    if penalty > 0 {
      m := m.(penaltiesPaid := m.penaltiesPaid + penalty);
    }
    db.members := db.members[(circle, user) := m];
  }

  /** The trust score moves in the same transaction, and only if everything else went through. */
  method MakeContributionTx(db: Database, trust: Trust.TrustService, now: int, user: nat, circle: nat, cycle: int,
      months: int)
    returns (r: Result<ContributionRow, Error>)
    modifies db, db.ledger, trust
    ensures match MakeContribution(old(db.Snapshot()), now, user, circle, cycle)
      case Failure(e) => r == Failure(e) && db.Snapshot() == old(db.Snapshot()) && trust.stats == old(trust.stats)
      case Success(t) => r.Success? && db.Snapshot() == t
    ensures r.Success? ==>
      && (circle, cycle) in old(db.schedules)
      && var onTime := now <= old(db.schedules)[(circle, cycle)].deadline;
      && trust.stats == Trust.Recorded(old(trust.stats), user, Trust.Contribution(onTime, false), months)
  {
    hide Collect, Contributed, HasContributed, Trust.Updated;
    if circle !in db.circles {
      return Failure(CircleNotFound);
    }
    var c := db.circles[circle];
    if !c.status.Active? {
      return Failure(CircleNotActive);
    }
    if (circle, user) !in db.members || !db.members[(circle, user)].status.Active? {
      return Failure(NotAMember);
    }
    var m := db.members[(circle, user)];
    if (circle, cycle) !in db.schedules {
      return Failure(NoSchedule);
    }
    var schedule := db.schedules[(circle, cycle)];
    if HasContributed(db.contributions, circle, m.id, cycle) {
      return Failure(AlreadyContributed);
    }
    if Pool !in db.ledger.wallets {
      return Failure(PoolNotConfigured);
    }
    if Of(user) !in db.ledger.wallets {
      return Failure(WalletNotFound);
    }
    if now >= schedule.payoutDate {
      return Failure(WindowClosed);
    }
    var isLate := now > schedule.deadline;
    var penalty := if isLate then c.amount * 200 / 10000 else 0;
    var _ :- CollectTx(db, user, c.amount, penalty);

    var contribution := ContributionRow(circle, user, m.id, cycle, c.amount, penalty);
    db.contributions := db.contributions + [contribution];
    CountContribution(db, circle, user, isLate, penalty);
    db.draws := db.draws + 1;
    trust.UpdateTrustScore(user, Trust.Contribution(!isLate, false), months);
    return Success(contribution);
  }

  /** A late contribution is charged the one whole number of kobo a fiftieth of it reaches and no more, and one in
      time is charged nothing. */
  lemma {:induction false} LateFeeExactly(amount: int, isLate: bool, fee: int)
    ensures LateFee(amount, isLate) == fee <==>
      if isLate then 50 * fee <= amount < 50 * (fee + 1) else fee == 0
  {
  }

  /** A contribution too small for a whole kobo of penalty is charged none. */
  lemma {:induction false} LatePenaltyBounds(amount: int, isLate: bool)
    requires amount > 0
    ensures 0 <= LateFee(amount, isLate) < amount
    ensures LateFee(amount, isLate) > 0 <==> isLate && amount >= 50
  {
  }
}
