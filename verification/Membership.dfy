/** Joining, leaving, approving and rejecting: the collateral each membership locks. */
module Memberships {
  import opened Wrappers
  import opened Ledger
  import opened Tables

  /** 10% of the contribution amount, in kobo. */
  function Collateral(contributionAmount: int): (tenth: int)
    ensures 10 * tenth <= contributionAmount < 10 * (tenth + 1)
  {
    contributionAmount * 10 / 100
  }

  function ReserveParams(id: SourceId, collateral: int, draw: nat): Params {
    Params(Reserve, Some(Rosca), collateral, Drawn(CollRes, draw), CollateralReserve, id)
  }

  function RefundParams(m: MembershipRow, draw: nat): Params {
    Params(Release, Some(Rosca), m.collateral, Drawn(CollRel, draw), CollateralReserve, m.id)
  }

  function NewMember(id: SourceId, status: MembershipStatus, position: Option<int>, collateral: int,
      now: int): MembershipRow {
    MembershipRow(id, status, position, collateral, false, Some(now), 0, 0, 0)
  }

  function Refill(c: CircleRow, change: int): CircleRow {
    c.(filledSlots := c.filledSlots + change)
  }

  ghost function RequestToJoin(t: Tables, now: int, user: nat, circle: nat): Result<Tables, Error> {
    if Of(user) !in t.wallets then Failure(WalletNotFound)
    else if circle !in t.circles then Failure(CircleNotFound)
    else
      var c := t.circles[circle];
      if c.isPrivate then Failure(CirclePrivate)
      else if !c.status.Draft? && !c.status.Active? then Failure(CircleClosed)
      else if c.filledSlots >= c.maxSlots then Failure(CircleFull)
      else if (circle, user) in t.members then Failure(AlreadyAMember)
      else
        var id := Member(circle, user, t.draws);
        var collateral := Collateral(c.amount);
        var ws :- Pay(t.wallets, Of(user), ReserveParams(id, collateral, t.draws));
        Success(t.(wallets := ws, draws := t.draws + 1,
                   members := t.members[(circle, user) :=
                     NewMember(id, MembershipStatus.Pending, None, collateral, now)]))
  }

  ghost function JoinByInvite(t: Tables, now: int, user: nat, token: nat): Result<Tables, Error> {
    if token !in t.invites then Failure(InvalidInvite)
    else
      var invite := t.invites[token];
      if invite.used || invite.expiresAt < now || invite.invitee != user then Failure(InvalidInvite)
      else if invite.circle !in t.circles then Failure(CircleNotFound)
      else
        var circle := invite.circle;
        var c := t.circles[circle];
        if !c.status.Draft? then Failure(CircleClosed)
        else if c.filledSlots >= c.maxSlots then Failure(CircleFull)
        else if (circle, user) in t.members then Failure(AlreadyAMember)
        else if Of(user) !in t.wallets then Failure(WalletNotFound)
        else
          var id := Member(circle, user, t.draws);
          var collateral := Collateral(c.amount);
          var ws :- Pay(t.wallets, Of(user), ReserveParams(id, collateral, t.draws));
          Success(t.(wallets := ws, draws := t.draws + 1,
                     members := t.members[(circle, user) :=
                       NewMember(id, MembershipStatus.Active, Some(c.filledSlots + 1), collateral, now)],
                     circles := t.circles[circle := Refill(c, 1)],
                     invites := t.invites[token := invite.(used := true)]))
  }

  /** The refund every way out of a circle pays first: nothing when nothing was locked. */
  ghost function Refund(t: Tables, user: nat, m: MembershipRow): Result<Wallets, Error> {
    if m.collateral > 0 then
      if Of(user) !in t.wallets then Failure(WalletNotFound)
      else Pay(t.wallets, Of(user), RefundParams(m, t.draws))
    else Success(t.wallets)
  }

  ghost function LeaveCircle(t: Tables, user: nat, circle: nat): Result<Tables, Error> {
    if circle !in t.circles then Failure(CircleNotFound)
    else if !t.circles[circle].status.Draft? then Failure(CircleNotDraft)
    else if (circle, user) !in t.members then Failure(NotAMember)
    else if Of(user) !in t.wallets then Failure(WalletNotFound)
    else
      var c := t.circles[circle];
      var m := t.members[(circle, user)];
      var ws :- Refund(t, user, m);
      var c' := if m.status.Active? then Refill(c, -1) else c;
      if c'.filledSlots < 0 then Failure(SlotsInconsistent)
      else
        Success(t.(wallets := ws, draws := t.draws + 1,
                   members := t.members - {(circle, user)}, circles := t.circles[circle := c']))
  }

  ghost function CancelJoinRequest(t: Tables, user: nat, circle: nat): Result<Tables, Error> {
    if (circle, user) !in t.members then Failure(NotAMember)
    else
      var m := t.members[(circle, user)];
      if !m.status.Pending? then Failure(NotPending)
      else
        var ws :- Refund(t, user, m);
        Success(t.(wallets := ws, draws := t.draws + 1, members := t.members - {(circle, user)}))
  }

  /** Neither the membership's status nor the circle's slots are looked at. */
  ghost function ApproveMember(t: Tables, circle: nat, admin: nat, user: nat): Result<Tables, Error> {
    if circle !in t.circles then Failure(CircleNotFound)
    else
      var c := t.circles[circle];
      if c.admin != admin then Failure(NotAdmin)
      else if (circle, user) !in t.members then Failure(NotAMember)
      else
        var m := t.members[(circle, user)];
        Success(t.(members := t.members[(circle, user) :=
                     m.(status := MembershipStatus.Active, position := Some(c.filledSlots + 1))],
                   circles := t.circles[circle := Refill(c, 1)]))
  }

  /** The collateral goes back, and the flag that says so stays false. */
  ghost function RejectMember(t: Tables, circle: nat, admin: nat, user: nat): Result<Tables, Error> {
    if circle !in t.circles then Failure(CircleNotFound)
    else if t.circles[circle].admin != admin then Failure(NotAdmin)
    else if (circle, user) !in t.members then Failure(NotAMember)
    else
      var m := t.members[(circle, user)];
      if !m.status.Pending? then Failure(NotPending)
      else
        var ws :- Refund(t, user, m);
        Success(t.(wallets := ws, draws := t.draws + 1,
                   members := t.members[(circle, user) := m.(status := MembershipStatus.Rejected)]))
  }

  // ----- The same operations as transactions on the database --------------------------------------

  method RequestToJoinTx(db: Database, now: int, user: nat, circle: nat) returns (r: Result<(), Error>)
    modifies db, db.ledger
    ensures match RequestToJoin(old(db.Snapshot()), now, user, circle)
      case Failure(e) => r == Failure(e) && db.Snapshot() == old(db.Snapshot())
      case Success(t) => r.Success? && db.Snapshot() == t
  {
    hide Pay;
    if Of(user) !in db.ledger.wallets {
      return Failure(WalletNotFound);
    }
    if circle !in db.circles {
      return Failure(CircleNotFound);
    }
    var c := db.circles[circle];
    if c.isPrivate {
      return Failure(CirclePrivate);
    }
    if !c.status.Draft? && !c.status.Active? {
      return Failure(CircleClosed);
    }
    if c.filledSlots >= c.maxSlots {
      return Failure(CircleFull);
    }
    if (circle, user) in db.members {
      return Failure(AlreadyAMember);
    }
    var membershipId := Member(circle, user, db.draws);
    var collateralAmount := Collateral(c.amount);
    var _ :- db.WriteEntry(Of(user), ReserveParams(membershipId, collateralAmount, db.draws));
    db.members := db.members[(circle, user) :=
      NewMember(membershipId, MembershipStatus.Pending, None, collateralAmount, now)];
    db.draws := db.draws + 1;
    return Success(());
  }

  method JoinByInviteTx(db: Database, now: int, user: nat, token: nat) returns (r: Result<(), Error>)
    modifies db, db.ledger
    ensures match JoinByInvite(old(db.Snapshot()), now, user, token)
      case Failure(e) => r == Failure(e) && db.Snapshot() == old(db.Snapshot())
      case Success(t) => r.Success? && db.Snapshot() == t
  {
    hide Pay;
    if token !in db.invites {
      return Failure(InvalidInvite);
    }
    var invite := db.invites[token];
    if invite.used || invite.expiresAt < now || invite.invitee != user {
      return Failure(InvalidInvite);
    }
    var circle := invite.circle;
    if circle !in db.circles {
      return Failure(CircleNotFound);
    }
    var c := db.circles[circle];
    if !c.status.Draft? {
      return Failure(CircleClosed);
    }
    if c.filledSlots >= c.maxSlots {
      return Failure(CircleFull);
    }
    if (circle, user) in db.members {
      return Failure(AlreadyAMember);
    }
    if Of(user) !in db.ledger.wallets {
      return Failure(WalletNotFound);
    }
    var membershipId := Member(circle, user, db.draws);
    var collateralAmount := Collateral(c.amount);
    var _ :- db.WriteEntry(Of(user), ReserveParams(membershipId, collateralAmount, db.draws));
    db.members := db.members[(circle, user) :=
      NewMember(membershipId, MembershipStatus.Active, Some(c.filledSlots + 1), collateralAmount, now)];
    db.circles := db.circles[circle := Refill(c, 1)];
    db.invites := db.invites[token := invite.(used := true)];
    db.draws := db.draws + 1;
    return Success(());
  }

  method RefundTx(db: Database, user: nat, m: MembershipRow) returns (r: Result<(), Error>)
    modifies db.ledger
    ensures match Refund(old(db.Snapshot()), user, m)
      case Failure(e) => r == Failure(e) && db.Snapshot() == old(db.Snapshot())
      case Success(ws) => r.Success? && db.Snapshot() == old(db.Snapshot()).(wallets := ws)
  {
    hide Pay;
    if m.collateral > 0 {
      if Of(user) !in db.ledger.wallets {
        return Failure(WalletNotFound);
      }
      var _ :- db.WriteEntry(Of(user), RefundParams(m, db.draws));
    }
    return Success(());
  }

  method LeaveCircleTx(db: Database, user: nat, circle: nat) returns (r: Result<(), Error>)
    modifies db, db.ledger
    ensures match LeaveCircle(old(db.Snapshot()), user, circle)
      case Failure(e) => r == Failure(e) && db.Snapshot() == old(db.Snapshot())
      case Success(t) => r.Success? && db.Snapshot() == t
  {
    hide Pay;
    if circle !in db.circles {
      return Failure(CircleNotFound);
    }
    if !db.circles[circle].status.Draft? {
      return Failure(CircleNotDraft);
    }
    if (circle, user) !in db.members {
      return Failure(NotAMember);
    }
    if Of(user) !in db.ledger.wallets {
      return Failure(WalletNotFound);
    }
    var saved := db.Snapshot();
    var m := db.members[(circle, user)];
    var _ :- RefundTx(db, user, m);
    db.members := db.members - {(circle, user)};
    if m.status.Active? {
      db.circles := db.circles[circle := Refill(db.circles[circle], -1)];
    } else {
      assert db.circles == db.circles[circle := db.circles[circle]];
    }
    if db.circles[circle].filledSlots < 0 {
      db.Restore(saved);
      return Failure(SlotsInconsistent);
    }
    db.draws := db.draws + 1;
    return Success(());
  }

  method CancelJoinRequestTx(db: Database, user: nat, circle: nat) returns (r: Result<(), Error>)
    modifies db, db.ledger
    ensures match CancelJoinRequest(old(db.Snapshot()), user, circle)
      case Failure(e) => r == Failure(e) && db.Snapshot() == old(db.Snapshot())
      case Success(t) => r.Success? && db.Snapshot() == t
  {
    hide Pay;
    if (circle, user) !in db.members {
      return Failure(NotAMember);
    }
    var m := db.members[(circle, user)];
    if !m.status.Pending? {
      return Failure(NotPending);
    }
    var _ :- RefundTx(db, user, m);
    db.members := db.members - {(circle, user)};
    db.draws := db.draws + 1;
    return Success(());
  }

  method ApproveMemberTx(db: Database, circle: nat, admin: nat, user: nat) returns (r: Result<(), Error>)
    modifies db
    ensures match ApproveMember(old(db.Snapshot()), circle, admin, user)
      case Failure(e) => r == Failure(e) && db.Snapshot() == old(db.Snapshot())
      case Success(t) => r.Success? && db.Snapshot() == t
  {
    if circle !in db.circles {
      return Failure(CircleNotFound);
    }
    var c := db.circles[circle];
    if c.admin != admin {
      return Failure(NotAdmin);
    }
    var newPosition := c.filledSlots + 1;
    if (circle, user) !in db.members {
      return Failure(NotAMember);
    }
    var m := db.members[(circle, user)];
    db.members := db.members[(circle, user) := m.(status := MembershipStatus.Active, position := Some(newPosition))];
    db.circles := db.circles[circle := Refill(c, 1)];
    return Success(());
  }

  method RejectMemberTx(db: Database, circle: nat, admin: nat, user: nat) returns (r: Result<(), Error>)
    modifies db, db.ledger
    ensures match RejectMember(old(db.Snapshot()), circle, admin, user)
      case Failure(e) => r == Failure(e) && db.Snapshot() == old(db.Snapshot())
      case Success(t) => r.Success? && db.Snapshot() == t
  {
    hide Pay;
    if circle !in db.circles {
      return Failure(CircleNotFound);
    }
    if db.circles[circle].admin != admin {
      return Failure(NotAdmin);
    }
    if (circle, user) !in db.members {
      return Failure(NotAMember);
    }
    var m := db.members[(circle, user)];
    if !m.status.Pending? {
      return Failure(NotPending);
    }
    var _ :- RefundTx(db, user, m);
    db.members := db.members[(circle, user) := m.(status := MembershipStatus.Rejected)];
    db.draws := db.draws + 1;
    return Success(());
  }
}
