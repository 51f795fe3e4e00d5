/** Creating, editing, configuring and activating a circle. */
module Circles {
  import opened Wrappers
  import opened Ledger
  import opened Tables
  import C = Calendar
  import Sorter
  import P = Positions

  /** The users table is not part of the model; users are the rows it has. */
  ghost function CreateCircle(t: Tables, users: set<nat>, circle: nat, row: CircleRow): Result<Tables, Error> {
    if row.admin !in users then Failure(UserNotFound)
    else if row.amount <= 0 then Failure(BadAmount)
    else if circle in t.circles then Failure(UniqueViolation)
    else Success(t.(circles := t.circles[circle := row.(status := CircleStatus.Draft, filledSlots := 0)]))
  }

  /** A change to a draft circle: only the fields that are given move. */
  datatype Change = Change(amount: Option<int>, maxSlots: Option<int>, logic: Option<Sorter.PayoutLogic>)

  ghost function UpdateCircle(t: Tables, circle: nat, admin: nat, change: Change): Result<Tables, Error> {
    if circle !in t.circles || t.circles[circle].admin != admin then Failure(CircleNotFound)
    else
      var c := t.circles[circle];
      if !c.status.Draft? then Failure(CircleNotDraft)
      else if change.maxSlots.Some? && change.maxSlots.value != 0 && change.maxSlots.value < c.filledSlots then
        Failure(SlotsInconsistent)
      else if change.amount.Some? && change.amount.value <= 0 then Failure(BadAmount)
      else
        Success(t.(circles := t.circles[circle := c.(
          amount := if change.amount.Some? then change.amount.value else c.amount,
          maxSlots := if change.maxSlots.Some? then change.maxSlots.value else c.maxSlots,
          logic := if change.logic.Some? then change.logic.value else c.logic)]))
  }

  method CreateCircleTx(db: Database, users: set<nat>, circle: nat, row: CircleRow) returns (r: Result<(), Error>)
    modifies db
    ensures match CreateCircle(old(db.Snapshot()), users, circle, row)
      case Failure(e) => r == Failure(e) && db.Snapshot() == old(db.Snapshot())
      case Success(t) => r.Success? && db.Snapshot() == t
    ensures r.Success? <==> row.admin in users && row.amount > 0 && circle !in old(db.circles)
    ensures r.Success? ==> circle in db.circles && db.circles - {circle} == old(db.circles)
    ensures r.Success? ==> db.circles[circle].status.Draft? && db.circles[circle].filledSlots == 0
  {
    if row.admin !in users {
      return Failure(UserNotFound);
    }
    if row.amount <= 0 {
      return Failure(BadAmount);
    }
    if circle in db.circles {
      return Failure(UniqueViolation);
    }
    db.circles := db.circles[circle := row.(status := CircleStatus.Draft, filledSlots := 0)];
    return Success(());
  }

  method UpdateCircleTx(db: Database, circle: nat, admin: nat, change: Change) returns (r: Result<(), Error>)
    modifies db
    ensures match UpdateCircle(old(db.Snapshot()), circle, admin, change)
      case Failure(e) => r == Failure(e) && db.Snapshot() == old(db.Snapshot())
      case Success(t) => r.Success? && db.Snapshot() == t
    ensures r.Success? ==> circle in old(db.circles) && db.circles.Keys == old(db.circles.Keys)
    ensures r.Success? ==> db.circles[circle].admin == admin && db.circles[circle].status.Draft?
    ensures forall c :: c in db.circles && db.circles[c] != old(db.circles)[c] ==> c == circle && r.Success?
  {
    if circle !in db.circles || db.circles[circle].admin != admin {
      return Failure(CircleNotFound);
    }
    var c := db.circles[circle];
    if !c.status.Draft? {
      return Failure(CircleNotDraft);
    }
    if change.maxSlots.Some? && change.maxSlots.value != 0 && change.maxSlots.value < c.filledSlots {
      return Failure(SlotsInconsistent);
    }
    if change.amount.Some? && change.amount.value <= 0 {
      return Failure(BadAmount);
    }
    if change.amount.Some? {
      c := c.(amount := change.amount.value);
    }
    if change.maxSlots.Some? {
      c := c.(maxSlots := change.maxSlots.value);
    }
    if change.logic.Some? {
      c := c.(logic := change.logic.value);
    }
    db.circles := db.circles[circle := c];
    return Success(());
  }

  /** The users a query for the circle's active memberships returns, in whatever order. */
  ghost predicate Listing(t: Tables, circle: nat, listing: seq<nat>) {
    && Sorter.Distinct(listing)
    && (forall u :: u in listing <==> (circle, u) in t.members && t.members[(circle, u)].status.Active?)
  }

  // ----- updatePayoutConfiguration ------------------------------------------------------------------

  function Holdings(members: map<(nat, nat), MembershipRow>, circle: nat, listing: seq<nat>): (rows: seq<P.Holding>)
    requires forall u :: u in listing ==> (circle, u) in members
    ensures |rows| == |listing|
    ensures forall i :: 0 <= i < |rows| ==> rows[i] == P.Holding(listing[i], members[(circle, listing[i])].position)
  {
    seq(|listing|, i requires 0 <= i < |listing| => P.Holding(listing[i], members[(circle, listing[i])].position))
  }

  predicate GoodPositions(asns: seq<P.Assignment>) {
    && (forall i :: 0 <= i < |asns| ==> asns[i].position >= 1)
    && (forall i, j :: 0 <= i < j < |asns| ==> asns[i].position != asns[j].position)
  }

  function Placed(members: map<(nat, nat), MembershipRow>, circle: nat, writes: map<nat, int>): map<(nat,
      nat), MembershipRow> {
    map k | k in members ::
      if k.0 == circle && k.1 in writes then members[k].(position := Some(writes[k.1])) else members[k]
  }

  ghost function ConfigurePayout(t: Tables, circle: nat, admin: nat, logic: Option<Sorter.PayoutLogic>,
                                 asns: seq<P.Assignment>, listing: seq<nat>): Result<Tables, Error>
    requires Listing(t, circle, listing)
  {
    if circle !in t.circles then Failure(CircleNotFound)
    else
      var c := t.circles[circle];
      var newLogic := if logic.Some? then logic.value else c.logic;
      if c.admin != admin then Failure(NotAdmin)
      else if !c.status.Draft? then Failure(CircleNotDraft)
      else if !newLogic.AdminAssigned? && |asns| > 0 then Failure(BadPositions)
      else if !GoodPositions(asns) then Failure(BadPositions)
      else
        var writes := P.Writes(Holdings(t.members, circle, listing), P.Incoming(asns), asns);
        if exists u :: u in writes && (circle, u) !in t.members then Failure(NotAMember)
        else Success(t.(circles := t.circles[circle := c.(logic := newLogic)],
          members := Placed(t.members, circle, writes)))
  }

  method ConfigurePayoutTx(db: Database, circle: nat, admin: nat, logic: Option<Sorter.PayoutLogic>,
                           asns: seq<P.Assignment>, listing: seq<nat>) returns (r: Result<(), Error>)
    requires Listing(db.Snapshot(), circle, listing)
    modifies db
    ensures match ConfigurePayout(old(db.Snapshot()), circle, admin, logic, asns, listing)
      case Failure(e) => r == Failure(e) && db.Snapshot() == old(db.Snapshot())
      case Success(t) => r.Success? && db.Snapshot() == t
  {
    if circle !in db.circles {
      return Failure(CircleNotFound);
    }
    var c := db.circles[circle];
    if c.admin != admin {
      return Failure(NotAdmin);
    }
    if !c.status.Draft? {
      return Failure(CircleNotDraft);
    }
    var newLogic := if logic.Some? then logic.value else c.logic;
    if !newLogic.AdminAssigned? && |asns| > 0 {
      return Failure(BadPositions);
    }
    if !GoodPositions(asns) {
      return Failure(BadPositions);
    }
    var writes := P.ComputeWrites(Holdings(db.members, circle, listing), asns);
    if exists u :: u in writes && (circle, u) !in db.members {
      return Failure(NotAMember);
    }
    db.circles := db.circles[circle := c.(logic := newLogic)];
    db.members := Placed(db.members, circle, writes);
    return Success(());
  }

  // ----- generateSchedules ----------------------------------------------------------------------------

  /** The rows handed to the sorter. Trust statistics live in another table. */
  function SortRows(members: map<(nat, nat), MembershipRow>, circle: nat, listing: seq<nat>, trust: map<nat,
      int>): (rows: seq<Sorter.Row>)
    requires forall u :: u in listing ==> (circle, u) in members
    ensures |rows| == |listing|
    ensures forall i :: 0 <= i < |rows| ==> rows[i].user == listing[i]
    ensures forall i :: 0 <= i < |rows| ==> rows[i].position == members[(circle, listing[i])].position
  {
    seq(|listing|, i requires 0 <= i < |listing| =>
      var m := members[(circle, listing[i])];
      Sorter.Row(listing[i], m.joinedAt, if listing[i] in trust then Some(trust[listing[i]]) else None, m.position))
  }

  predicate Assigned(rows: seq<Sorter.Row>) {
    forall i :: 0 <= i < |rows| ==> rows[i].position.Some?
  }

  predicate Unrepeated(rows: seq<Sorter.Row>) {
    forall i, j :: 0 <= i < j < |rows| ==> rows[i].position != rows[j].position
  }

  /** The index of a user among the sorted rows, or |rows|. */
  function Place(rows: seq<Sorter.Row>, user: nat): (k: nat)
    ensures k <= |rows|
    ensures k < |rows| ==> rows[k].user == user
    ensures k == |rows| ==> forall i :: 0 <= i < |rows| ==> rows[i].user != user
  {
    if |rows| == 0 || rows[0].user == user then 0
    else
      assert forall i :: 1 <= i < |rows| ==> rows[i] == rows[1..][i - 1];
      1 + Place(rows[1..], user)
  }

  function Positioned(members: map<(nat, nat), MembershipRow>, circle: nat, sorted: seq<Sorter.Row>): map<(nat,
      nat), MembershipRow> {
    map k | k in members ::
      if k.0 == circle && Place(sorted, k.1) < |sorted|
      then members[k].(position := Some(Place(sorted, k.1) + 1)) else members[k]
  }

  function Slot(first: C.Date, f: C.Frequency, timeOfDay: int, sorted: seq<Sorter.Row>, i: nat): ScheduleRow
    requires C.Valid(first) && 1 <= i && |sorted| > 0
  {
    var deadline := C.Instant(C.Deadline(first, f, i - 1), timeOfDay);
    ScheduleRow(deadline, deadline + C.DayMs, Some(sorted[(i - 1) % |sorted|].user), ScheduleStatus.Upcoming)
  }

  function Scheduled(schedules: map<(nat, int), ScheduleRow>, circle: nat, first: C.Date, f: C.Frequency,
      timeOfDay: int,
                     sorted: seq<Sorter.Row>, n: nat): map<(nat, int), ScheduleRow>
    requires C.Valid(first) && (n > 0 ==> |sorted| > 0)
  {
    if n == 0 then schedules
    else
      var before := Scheduled(schedules, circle, first, f, timeOfDay, sorted, n - 1);
      before[(circle, n) := Slot(first, f, timeOfDay, sorted, n)]
  }

  method GenerateSchedules(schedules: map<(nat, int), ScheduleRow>, circle: nat, first: C.Date, f: C.Frequency,
                           timeOfDay: int, sorted: seq<Sorter.Row>)
    returns (result: map<(nat, int), ScheduleRow>)
    requires C.Valid(first)
    ensures result == Scheduled(schedules, circle, first, f, timeOfDay, sorted, |sorted|)
  {
    hide C.Step, C.DayNumber, C.Length;
    result := schedules;
    var currentDate := new C.LocalDate(first);
    for i := 1 to |sorted| + 1
      invariant currentDate.Value() == C.Deadline(first, f, i - 1)
      invariant result == Scheduled(schedules, circle, first, f, timeOfDay, sorted, i - 1)
    {
      var contributionDeadline := C.Instant(currentDate.Value(), timeOfDay);
      var payoutDate := contributionDeadline + 24 * 60 * 60 * 1000;
      var recipientIndex := (i - 1) % |sorted|;
      var recipientId := sorted[recipientIndex].user;
      result := result[(circle, i) :=
        ScheduleRow(contributionDeadline, payoutDate, Some(recipientId), ScheduleStatus.Upcoming)];
      currentDate := C.AddFrequency(currentDate, f);
    }
  }

  // ----- activateCircle -------------------------------------------------------------------------------

  const ActivationBufferMs: int := 30 * 60 * 1000

  /** A request to activate, with what the outside supplies: the clock, the order in which the database
      lists the active members, their trust scores, and the random draws. */
  datatype Activation = Activation(
    circle: nat, now: int, first: C.Date, timeOfDay: int, listing: seq<nat>, trust: map<nat, int>, draws: seq<nat>)

  ghost predicate Ready(t: Tables, a: Activation) {
    Listing(t, a.circle, a.listing) && C.Valid(a.first) && Sorter.Draws(a.draws, |a.listing|)
  }

  function Rows(t: Tables, a: Activation): seq<Sorter.Row>
    requires forall u :: u in a.listing ==> (a.circle, u) in t.members
  {
    SortRows(t.members, a.circle, a.listing, a.trust)
  }

  /** The payout order the circle starts with. */
  function Order(t: Tables, a: Activation): (order: seq<Sorter.Row>)
    requires a.circle in t.circles && Sorter.Draws(a.draws, |a.listing|)
    requires forall u :: u in a.listing ==> (a.circle, u) in t.members
    ensures |order| == |a.listing|
  {
    Sorter.Sorted(Rows(t, a), t.circles[a.circle].logic, a.draws)
  }

  /** The state an accepted activation leads to. */
  function Activated(t: Tables, a: Activation): Tables
    requires a.circle in t.circles && C.Valid(a.first) && Sorter.Draws(a.draws, |a.listing|)
    requires forall u :: u in a.listing ==> (a.circle, u) in t.members
  {
    var c := t.circles[a.circle];
    t.(circles := t.circles[a.circle := c.(status := CircleStatus.Active, durationCycles := |a.listing|)],
       members := Positioned(t.members, a.circle, Order(t, a)),
       schedules := Scheduled(t.schedules, a.circle, a.first, c.frequency, a.timeOfDay, Order(t, a), |a.listing|))
  }

  lemma {:induction false} RowsDistinct(t: Tables, a: Activation)
    requires Ready(t, a)
    ensures Sorter.Distinct(Rows(t, a))
    ensures forall i, j :: 0 <= i < j < |a.listing| ==> Rows(t, a)[i].user != Rows(t, a)[j].user
    ensures a.circle in t.circles ==> multiset(Order(t, a)) == multiset(Rows(t, a))
  {
    if a.circle in t.circles {
      Sorter.SortedPermutes(Rows(t, a), t.circles[a.circle].logic, a.draws);
    }
  }

  ghost function ActivateCircle(t: Tables, a: Activation): Result<Tables, Error>
    requires Ready(t, a)
  {
    if C.Instant(a.first, a.timeOfDay) < a.now - ActivationBufferMs then Failure(DeadlineInPast)
    else if a.circle !in t.circles then Failure(CircleNotFound)
    else
      var c := t.circles[a.circle];
      if !c.status.Draft? then Failure(CircleNotDraft)
      else if c.filledSlots != |a.listing| then Failure(SlotsInconsistent)
      else if c.logic.AdminAssigned? && !Assigned(Rows(t, a)) then Failure(PositionsMissing)
      else if c.logic.AdminAssigned? && !Unrepeated(Rows(t, a)) then Failure(PositionsRepeated)
      else Success(Activated(t, a))
  }

  method ActivateCircleTx(db: Database, a: Activation) returns (r: Result<(), Error>)
    requires Ready(db.Snapshot(), a)
    modifies db
    ensures match ActivateCircle(old(db.Snapshot()), a)
      case Failure(e) => r == Failure(e) && db.Snapshot() == old(db.Snapshot())
      case Success(t) => r.Success? && db.Snapshot() == t
  {
    hide Scheduled, Positioned, Sorter.Sorted, Assigned, Unrepeated, C.Instant, Sorter.Distinct;
    if C.Instant(a.first, a.timeOfDay) < a.now - ActivationBufferMs {
      return Failure(DeadlineInPast);
    }
    if a.circle !in db.circles {
      return Failure(CircleNotFound);
    }
    var c := db.circles[a.circle];
    if !c.status.Draft? {
      return Failure(CircleNotDraft);
    }
    if c.filledSlots != |a.listing| {
      return Failure(SlotsInconsistent);
    }
    var rows := SortRows(db.members, a.circle, a.listing, a.trust);
    if c.logic.AdminAssigned? {
      if !Assigned(rows) {
        return Failure(PositionsMissing);
      }
      if !Unrepeated(rows) {
        return Failure(PositionsRepeated);
      }
    }
    var memberships := new Sorter.Row[|rows|](i requires 0 <= i < |rows| => rows[i]);
    assert memberships[..] == rows;
    var sorted := Sorter.Sort(memberships, c.logic, a.draws);
    var schedules := GenerateSchedules(db.schedules, a.circle, a.first, c.frequency, a.timeOfDay, sorted[..]);
    db.circles := db.circles[a.circle := c.(status := CircleStatus.Active, durationCycles := |a.listing|)];
    db.members := Positioned(db.members, a.circle, sorted[..]);
    db.schedules := schedules;
    return Success(());
  }

  // ----- What activation builds -----------------------------------------------------------------------

  lemma {:induction false} ScheduledContents(schedules: map<(nat, int), ScheduleRow>, circle: nat, first: C.Date,
                                             f: C.Frequency, timeOfDay: int, sorted: seq<Sorter.Row>, n: nat)
    requires C.Valid(first) && (n > 0 ==> |sorted| > 0)
    ensures var s := Scheduled(schedules, circle, first, f, timeOfDay, sorted, n);
      && s.Keys >= schedules.Keys
      && (forall i: nat :: 1 <= i <= n ==> (circle, i) in s && s[(circle, i)] == Slot(first, f, timeOfDay, sorted, i))
      && (forall k :: k in s && !(k.0 == circle && 1 <= k.1 <= n) ==> k in schedules && s[k] == schedules[k])
  {
    hide Slot;
    if n > 0 {
      ScheduledContents(schedules, circle, first, f, timeOfDay, sorted, n - 1);
    }
  }

  lemma {:induction false} UserOnce(rows: seq<Sorter.Row>, sorted: seq<Sorter.Row>)
    requires multiset(rows) == multiset(sorted)
    requires forall i, j :: 0 <= i < j < |rows| ==> rows[i].user != rows[j].user
    ensures |rows| == |sorted|
    ensures forall i, j :: 0 <= i < j < |sorted| ==> sorted[i].user != sorted[j].user
    ensures forall x :: x in rows <==> x in sorted
  {
    Sorter.SameMembers(rows, sorted);
    Sorter.DistinctKept(rows, sorted);
    forall i, j | 0 <= i < j < |sorted| ensures sorted[i].user != sorted[j].user {
      assert sorted[i] in rows && sorted[j] in rows;
      var a :| 0 <= a < |rows| && rows[a] == sorted[i];
      var b :| 0 <= b < |rows| && rows[b] == sorted[j];
      assert a != b;
    }
  }

  lemma {:induction false} PlaceOfRow(rows: seq<Sorter.Row>, i: nat)
    requires i < |rows|
    requires forall i, j :: 0 <= i < j < |rows| ==> rows[i].user != rows[j].user
    ensures Place(rows, rows[i].user) == i
  {
    var k := Place(rows, rows[i].user);
    assert k < |rows| && rows[k].user == rows[i].user;
  }

  /** The order lists every active member once, at the place they will be stored at. */
  lemma {:induction false} OrderAt(t: Tables, a: Activation, i: nat)
    requires Ready(t, a) && a.circle in t.circles && i < |a.listing|
    ensures |Order(t, a)| == |a.listing|
    ensures var u := Order(t, a)[i].user;
      && u in a.listing
      && Order(t, a)[i].position == t.members[(a.circle, u)].position
      && Place(Order(t, a), u) == i
  {
    RowsDistinct(t, a);
    var rows, order := Rows(t, a), Order(t, a);
    UserOnce(rows, order);
    PlaceOfRow(order, i);
    assert order[i] in rows;
    hide Order;
    var k :| 0 <= k < |rows| && rows[k] == order[i];
  }

  lemma {:induction false} PlaceOfMember(t: Tables, a: Activation, u: nat)
    requires Ready(t, a) && a.circle in t.circles && u in a.listing
    ensures Place(Order(t, a), u) < |Order(t, a)| == |a.listing|
  {
    RowsDistinct(t, a);
    var rows, order := Rows(t, a), Order(t, a);
    UserOnce(rows, order);
    var k :| 0 <= k < |a.listing| && a.listing[k] == u;
    assert rows[k] in order;
    hide Order;
    var i :| 0 <= i < |order| && order[i] == rows[k];
    assert order[i].user == u;
  }

  /** Cycle i pays an active member who is stored at position i. */
  predicate CyclePaysItsMember(t: Tables, circle: nat, i: int) {
    && (circle, i) in t.schedules
    && t.schedules[(circle, i)].recipient.Some?
    && var u := t.schedules[(circle, i)].recipient.value;
    && (circle, u) in t.members
    && t.members[(circle, u)].status.Active?
    && t.members[(circle, u)].position == Some(i)
  }

  /** The member is paid in the cycle of their position. */
  predicate MemberHasTheirCycle(t: Tables, circle: nat, n: int, u: nat)
    requires (circle, u) in t.members
  {
    var position := t.members[(circle, u)].position;
    && position.Some?
    && 1 <= position.value <= n
    && (circle, position.value) in t.schedules
    && t.schedules[(circle, position.value)].recipient == Some(u)
  }

  lemma {:induction false} SlotRecipient(first: C.Date, f: C.Frequency, timeOfDay: int, sorted: seq<Sorter.Row>, i: nat)
    requires C.Valid(first) && 1 <= i <= |sorted|
    ensures Slot(first, f, timeOfDay, sorted, i).recipient == Some(sorted[i - 1].user)
  {
    hide C.Deadline, C.Instant, C.Valid;
    assert (i - 1) % |sorted| == i - 1;
  }

  lemma {:induction false} PositionedAt(members: map<(nat, nat), MembershipRow>, circle: nat, sorted: seq<Sorter.Row>,
      i: nat)
    requires i < |sorted| && (circle, sorted[i].user) in members && Place(sorted, sorted[i].user) == i
    ensures var m := Positioned(members, circle, sorted);
      && (circle, sorted[i].user) in m
      && m[(circle, sorted[i].user)] == members[(circle, sorted[i].user)].(position := Some(i + 1))
  {
  }

  lemma {:induction false} ActivationCycle(t: Tables, a: Activation, i: nat)
    requires Ready(t, a) && a.circle in t.circles && 1 <= i <= |a.listing|
    ensures CyclePaysItsMember(Activated(t, a), a.circle, i)
    ensures Activated(t, a).schedules[(a.circle, i)] ==
      Slot(a.first, t.circles[a.circle].frequency, a.timeOfDay, Order(t, a), i)
    ensures Activated(t, a).schedules[(a.circle, i)].recipient == Some(Order(t, a)[i - 1].user)
  {
    var order := Order(t, a);
    OrderAt(t, a, i - 1);
    PositionedAt(t.members, a.circle, order, i - 1);
    ScheduledContents(t.schedules, a.circle, a.first, t.circles[a.circle].frequency, a.timeOfDay, order, |a.listing|);
    SlotRecipient(a.first, t.circles[a.circle].frequency, a.timeOfDay, order, i);
    assert (a.circle, order[i - 1].user) in t.members && t.members[(a.circle, order[i - 1].user)].status.Active?;
    hide Order, Rows, C.Deadline, C.Instant, Slot, Scheduled, Positioned, Ready, Listing, Place;
  }

  lemma {:induction false} ActivationMember(t: Tables, a: Activation, u: nat)
    requires Ready(t, a) && a.circle in t.circles && u in a.listing
    ensures (a.circle, u) in Activated(t, a).members && MemberHasTheirCycle(Activated(t, a), a.circle, |a.listing|, u)
  {
    PlaceOfMember(t, a, u);
    var i := Place(Order(t, a), u);
    ActivationCycle(t, a, i + 1);
    hide Order, Rows, Scheduled, Sorter.Draws, Sorter.Distinct, C.Valid;
  }

  lemma {:induction false} ActivationFrame(t: Tables, a: Activation)
    requires Ready(t, a) && a.circle in t.circles
    ensures Listing(Activated(t, a), a.circle, a.listing)
    ensures forall k :: k in Activated(t, a).schedules && !(k.0 == a.circle && 1 <= k.1 <= |a.listing|) ==>
      k in t.schedules && Activated(t, a).schedules[k] == t.schedules[k]
  {
    hide Order, Rows, Scheduled, Positioned, Sorter.Draws, Sorter.Distinct, C.Valid;
    ScheduledElsewhere(t.schedules, a.circle, a.first, t.circles[a.circle].frequency, a.timeOfDay, Order(t, a),
      |a.listing|);
    PositionedStatus(t.members, a.circle, Order(t, a));
  }

  lemma {:induction false} ScheduledElsewhere(schedules: map<(nat, int), ScheduleRow>, circle: nat, first: C.Date,
                                              f: C.Frequency, timeOfDay: int, sorted: seq<Sorter.Row>, n: nat)
    requires C.Valid(first) && (n > 0 ==> |sorted| > 0)
    ensures var s := Scheduled(schedules, circle, first, f, timeOfDay, sorted, n);
      forall k :: k in s && !(k.0 == circle && 1 <= k.1 <= n) ==> k in schedules && s[k] == schedules[k]
  {
    hide Slot, Scheduled;
    ScheduledContents(schedules, circle, first, f, timeOfDay, sorted, n);
  }

  lemma {:induction false} PositionedStatus(members: map<(nat, nat), MembershipRow>, circle: nat,
      sorted: seq<Sorter.Row>)
    ensures Positioned(members, circle, sorted).Keys == members.Keys
    ensures forall k :: k in members ==> Positioned(members, circle, sorted)[k].status == members[k].status
  {
  }

  /** Activation gives the circle one cycle per active member and pairs them off: each cycle pays the
      member stored at its number, and each active member is paid in the cycle of their position and
      in no other. Nothing outside these cycles is scheduled. */
  lemma {:induction false} ActivationPairsOff(t: Tables, a: Activation)
    requires Ready(t, a) && ActivateCircle(t, a).Success?
    ensures var t' := ActivateCircle(t, a).value;
      var n := |a.listing|;
      && t'.circles[a.circle].durationCycles == t'.circles[a.circle].filledSlots == n
      && Listing(t', a.circle, a.listing)
      && (forall i: nat :: 1 <= i <= n ==> CyclePaysItsMember(t', a.circle, i))
      && (forall u :: u in a.listing ==> MemberHasTheirCycle(t', a.circle, n, u))
      && (forall k :: k in t'.schedules && !(k.0 == a.circle && 1 <= k.1 <= n) ==>
           k in t.schedules && t'.schedules[k] == t.schedules[k])
  {
    ActivationFrame(t, a);
    hide Positioned, Scheduled, CyclePaysItsMember, MemberHasTheirCycle, Order, Rows;
    forall i: nat | 1 <= i <= |a.listing| ensures CyclePaysItsMember(Activated(t, a), a.circle, i) {
      ActivationCycle(t, a, i);
    }
    forall u | u in a.listing
      ensures (a.circle, u) in Activated(t, a).members && MemberHasTheirCycle(Activated(t, a), a.circle, |a.listing|, u)
    {
      ActivationMember(t, a, u);
    }
  }

  lemma {:induction false} AdminSorted(rows: seq<Sorter.Row>, i: nat, j: nat)
    requires Sorter.Distinct(rows) && Assigned(rows) && Unrepeated(rows) && i < j < |rows|
    ensures var order := Sorter.StableSort(rows, Sorter.ByAdminAssigned);
      order[i].position.Some? && order[j].position.Some? && order[i].position.value < order[j].position.value
  {
    var order := Sorter.StableSort(rows, Sorter.ByAdminAssigned);
    Sorter.ComparatorsAreOrders();
    Sorter.StableSortSorts(rows, Sorter.ByAdminAssigned);
    Sorter.DistinctKept(rows, order);
    assert Sorter.Before(rows, Sorter.ByAdminAssigned, order[i], order[j]);
    assert order[i] in rows && order[j] in rows;
    var k :| 0 <= k < |rows| && rows[k] == order[i];
    var m :| 0 <= m < |rows| && rows[m] == order[j];
    assert k != m;
  }

  /** Under ADMIN_ASSIGNED the admin's order survives: whoever was placed earlier is paid earlier. */
  lemma {:induction false} AdminOrderKept(t: Tables, a: Activation, i: nat, j: nat)
    requires Ready(t, a) && ActivateCircle(t, a).Success?
    requires t.circles[a.circle].logic.AdminAssigned? && 1 <= i < j <= |a.listing|
    ensures var t' := ActivateCircle(t, a).value;
      && CyclePaysItsMember(t', a.circle, i)
      && CyclePaysItsMember(t', a.circle, j)
      && var u, v := t'.schedules[(a.circle, i)].recipient.value, t'.schedules[(a.circle, j)].recipient.value;
      && u in a.listing && v in a.listing
      && t.members[(a.circle, u)].position.Some? && t.members[(a.circle, v)].position.Some?
      && t.members[(a.circle, u)].position.value < t.members[(a.circle, v)].position.value
  {
    hide Rows, CyclePaysItsMember, Positioned, Scheduled, Slot, Order;
    AdminOrder(t, a);
    ActivationCycle(t, a, i);
    ActivationCycle(t, a, j);
    OrderAt(t, a, i - 1);
    OrderAt(t, a, j - 1);
    RowsDistinct(t, a);
    AdminSorted(Rows(t, a), i - 1, j - 1);
  }

  lemma {:induction false} AdminOrder(t: Tables, a: Activation)
    requires Ready(t, a) && a.circle in t.circles && t.circles[a.circle].logic.AdminAssigned?
    ensures Order(t, a) == Sorter.StableSort(Rows(t, a), Sorter.ByAdminAssigned)
  {
  }

  predicate PaysIn(t: Tables, circle: nat, cycle: int, user: nat) {
    (circle, cycle) in t.schedules && t.schedules[(circle, cycle)].recipient == Some(user)
  }

  /** Members p and q of the listing are the ones paid in cycles i and j. */
  ghost predicate PaidInTurn(t: Tables, a: Activation, i: nat, j: nat, p: nat, q: nat) {
    && Ready(t, a) && ActivateCircle(t, a).Success? && 1 <= i < j <= |a.listing|
    && p < |a.listing| && q < |a.listing|
    && PaysIn(ActivateCircle(t, a).value, a.circle, i, a.listing[p])
    && PaysIn(ActivateCircle(t, a).value, a.circle, j, a.listing[q])
  }

  /** Only the row of a member has the member's user. */
  lemma {:induction false} RowOf(t: Tables, a: Activation, i: nat, p: nat)
    requires Ready(t, a) && a.circle in t.circles && i < |a.listing| && p < |a.listing|
    requires Order(t, a)[i].user == a.listing[p]
    ensures |Rows(t, a)| == |a.listing| && Order(t, a)[i] == Rows(t, a)[p]
  {
    hide Order;
    RowsDistinct(t, a);
    var rows := Rows(t, a);
    Sorter.SameMembers(rows, Order(t, a));
    assert Order(t, a)[i] in rows;
    var k :| 0 <= k < |rows| && rows[k] == Order(t, a)[i];
    assert rows[k].user == rows[p].user;
  }

  lemma {:induction false} OrderedRows(t: Tables, a: Activation, i: nat, j: nat, p: nat, q: nat)
    requires PaidInTurn(t, a, i, j, p, q)
    ensures var rows := Rows(t, a);
      var logic := t.circles[a.circle].logic;
      && |rows| == |a.listing| && Sorter.Distinct(rows)
      && Sorter.Sorted(rows, logic, a.draws)[i - 1] == rows[p] && Sorter.Sorted(rows, logic, a.draws)[j - 1] == rows[q]
  {
    hide Rows, Positioned, Scheduled, Slot, Order, Listing;
    ActivationCycle(t, a, i);
    ActivationCycle(t, a, j);
    RowsDistinct(t, a);
    RowOf(t, a, i - 1, p);
    RowOf(t, a, j - 1, q);
    OrderIs(t, a);
  }

  lemma {:induction false} OrderIs(t: Tables, a: Activation)
    requires Ready(t, a) && a.circle in t.circles
    ensures |Rows(t, a)| == |a.listing|
    ensures Order(t, a) == Sorter.Sorted(Rows(t, a), t.circles[a.circle].logic, a.draws)
  {
  }

  /** Under TRUST_SCORE no cycle pays a member with a lower trust score than a later one does; a member without
      a score counts as 1, and members of equal trust are paid as they were listed. */
  lemma {:induction false} TrustedPaidFirst(t: Tables, a: Activation, i: nat, j: nat, p: nat, q: nat)
    requires PaidInTurn(t, a, i, j, p, q) && t.circles[a.circle].logic.TrustScore?
    ensures var x := if a.listing[p] in a.trust then a.trust[a.listing[p]] else 1;
      var y := if a.listing[q] in a.trust then a.trust[a.listing[q]] else 1;
      x > y || (x == y && p < q)
  {
    hide ActivateCircle, Sorter.Sorted, Sorter.Distinct;
    OrderedRows(t, a, i, j, p, q);
    Sorter.TrustOrder(Rows(t, a), a.draws, i - 1, j - 1, p, q);
  }

  /** Under SEQUENTIAL no cycle pays a later joiner than a later cycle does; members without a join date are paid
      last, and members who joined at once as they were listed. */
  lemma {:induction false} EarlierJoinersPaidFirst(t: Tables, a: Activation, i: nat, j: nat, p: nat, q: nat)
    requires PaidInTurn(t, a, i, j, p, q) && t.circles[a.circle].logic.Sequential?
    ensures (a.circle, a.listing[p]) in t.members && (a.circle, a.listing[q]) in t.members
    ensures var x := t.members[(a.circle, a.listing[p])].joinedAt;
      var y := t.members[(a.circle, a.listing[q])].joinedAt;
      || (x.Some? && (y.None? || x.value < y.value))
      || (x == y && p < q)
  {
    hide ActivateCircle, Sorter.Sorted, Sorter.Distinct;
    OrderedRows(t, a, i, j, p, q);
    Sorter.SequentialOrder(Rows(t, a), a.draws, i - 1, j - 1, p, q);
  }

  /** Under COMBINED trust decides, then the join date, then the listing. */
  lemma {:induction false} TrustedThenEarlierPaidFirst(t: Tables, a: Activation, i: nat, j: nat, p: nat, q: nat)
    requires PaidInTurn(t, a, i, j, p, q) && t.circles[a.circle].logic.Combined?
    ensures (a.circle, a.listing[p]) in t.members && (a.circle, a.listing[q]) in t.members
    ensures var x := if a.listing[p] in a.trust then a.trust[a.listing[p]] else 1;
      var y := if a.listing[q] in a.trust then a.trust[a.listing[q]] else 1;
      var since := t.members[(a.circle, a.listing[p])].joinedAt;
      var until := t.members[(a.circle, a.listing[q])].joinedAt;
      || x > y
      || (x == y && since.Some? && (until.None? || since.value < until.value))
      || (x == y && since == until && p < q)
  {
    hide ActivateCircle, Sorter.Sorted, Sorter.Distinct;
    OrderedRows(t, a, i, j, p, q);
    Sorter.CombinedOrder(Rows(t, a), a.draws, i - 1, j - 1, p, q);
  }

  // ----- Exactly when a circle starts ---------------------------------------------------------------------------

  lemma {:induction false} InstantIs(d: C.Date, timeOfDay: int)
    ensures C.Instant(d, timeOfDay) == 86_400_000 * C.DayNumber(d) + timeOfDay
  {
    hide C.DayNumber;
  }

  /** Every active member has a position, and no two the same one. */
  predicate AllPlaced(t: Tables, a: Activation)
    requires forall u :: u in a.listing ==> (a.circle, u) in t.members
  {
    && (forall i :: 0 <= i < |a.listing| ==> t.members[(a.circle, a.listing[i])].position.Some?)
    && (forall i, j :: 0 <= i < j < |a.listing| ==>
          t.members[(a.circle, a.listing[i])].position != t.members[(a.circle, a.listing[j])].position)
  }

  lemma {:induction false} AssignedMeans(t: Tables, a: Activation)
    requires Ready(t, a)
    ensures Assigned(Rows(t, a)) && Unrepeated(Rows(t, a)) <==> AllPlaced(t, a)
  {
    var rows := Rows(t, a);
    forall i | 0 <= i < |rows| ensures rows[i].position == t.members[(a.circle, a.listing[i])].position {
    }
  }

  /** A circle starts exactly when it is a draft, its first deadline is no more than half an hour past, as many slots
      are filled as there are active members and, when the admin decides the order, every one of them has a position
      of their own. */
  lemma {:induction false} ActivateExactly(t: Tables, a: Activation)
    requires Ready(t, a)
    ensures ActivateCircle(t, a).Success? <==>
      && 86_400_000 * C.DayNumber(a.first) + a.timeOfDay >= a.now - 1_800_000
      && a.circle in t.circles && t.circles[a.circle].status.Draft?
      && t.circles[a.circle].filledSlots == |a.listing|
      && (t.circles[a.circle].logic.AdminAssigned? ==> AllPlaced(t, a))
  {
    hide C.Instant, C.DayNumber, Activated, Rows, Assigned, Unrepeated, AllPlaced;
    InstantIs(a.first, a.timeOfDay);
    AssignedMeans(t, a);
  }

  lemma {:induction false} SlotIs(first: C.Date, f: C.Frequency, timeOfDay: int, sorted: seq<Sorter.Row>, i: nat)
    requires C.Valid(first) && 1 <= i <= |sorted|
    ensures var deadline := 86_400_000 * C.DayNumber(C.Deadline(first, f, i - 1)) + timeOfDay;
      Slot(first, f, timeOfDay, sorted, i) ==
        ScheduleRow(deadline, deadline + 86_400_000, Some(sorted[i - 1].user), ScheduleStatus.Upcoming)
  {
    hide C.Deadline, C.DayNumber, C.Instant;
    InstantIs(C.Deadline(first, f, i - 1), timeOfDay);
    SlotRecipient(first, f, timeOfDay, sorted, i);
  }

  /** What a start changes: the circle runs for as many cycles as it has active members, cycle i is due at the i-th
      date from the first and paid out 24 hours later, members of the circle get positions, and nothing else moves. */
  lemma {:induction false} ActivationWrites(t: Tables, a: Activation, i: nat)
    requires Ready(t, a) && ActivateCircle(t, a).Success? && 1 <= i <= |a.listing|
    ensures var t' := ActivateCircle(t, a).value;
      var c := t.circles[a.circle];
      var deadline := 86_400_000 * C.DayNumber(C.Deadline(a.first, c.frequency, i - 1)) + a.timeOfDay;
      && t' == t.(circles := t'.circles, members := t'.members, schedules := t'.schedules)
      && t'.circles ==
           t.circles[a.circle := c.(status := CircleStatus.Active, durationCycles := |a.listing|)]
      && (a.circle, i) in t'.schedules && t'.schedules[(a.circle, i)].recipient.Some?
      && t'.schedules[(a.circle, i)] == ScheduleRow(deadline, deadline + 86_400_000,
           t'.schedules[(a.circle, i)].recipient, ScheduleStatus.Upcoming)
      && t'.members.Keys == t.members.Keys
      && (forall k :: k in t.members ==> t'.members[k] == t.members[k].(position := t'.members[k].position))
      && (forall k :: k in t.members && k.0 != a.circle ==> t'.members[k] == t.members[k])
  {
    hide C.Instant, C.DayNumber, C.Deadline, Order, Rows, Assigned, Unrepeated, Slot, Scheduled, Positioned;
    ActivationCycle(t, a, i);
    SlotIs(a.first, t.circles[a.circle].frequency, a.timeOfDay, Order(t, a), i);
    OnlyPositions(t.members, a.circle, Order(t, a));
  }

  lemma {:induction false} OnlyPositions(members: map<(nat, nat), MembershipRow>, circle: nat,
      sorted: seq<Sorter.Row>)
    ensures var after := Positioned(members, circle, sorted);
      && after.Keys == members.Keys
      && (forall k :: k in members ==> after[k] == members[k].(position := after[k].position))
      && (forall k :: k in members && k.0 != circle ==> after[k] == members[k])
  {
    hide Place;
  }

  // ----- Exactly when a configuration is taken --------------------------------------------------------------------

  /** A configuration is taken exactly from the administrator of a draft, with positions only under admin assignment,
      all of them different and from 1 up, for users who have a membership. It sets the order of payment, moves
      positions in that circle, and nothing else. */
  lemma {:induction false} ConfigureExactly(t: Tables, circle: nat, admin: nat, logic: Option<Sorter.PayoutLogic>,
      asns: seq<P.Assignment>, listing: seq<nat>)
    requires Listing(t, circle, listing)
    ensures ConfigurePayout(t, circle, admin, logic, asns, listing).Success? <==>
      && circle in t.circles && t.circles[circle].admin == admin && t.circles[circle].status.Draft?
      && (|asns| > 0 ==> (if logic.Some? then logic.value else t.circles[circle].logic).AdminAssigned?)
      && (forall i :: 0 <= i < |asns| ==> asns[i].position >= 1 && (circle, asns[i].user) in t.members)
      && (forall i, j :: 0 <= i < j < |asns| ==> asns[i].position != asns[j].position)
    ensures ConfigurePayout(t, circle, admin, logic, asns, listing).Success? ==>
      var t' := ConfigurePayout(t, circle, admin, logic, asns, listing).value;
      && t' == t.(circles := t'.circles, members := t'.members)
      && t'.circles == t.circles[circle := t.circles[circle].(
           logic := if logic.Some? then logic.value else t.circles[circle].logic)]
      && t'.members.Keys == t.members.Keys
      && (forall k :: k in t.members ==> t'.members[k] == t.members[k].(position := t'.members[k].position))
      && (forall k :: k in t.members && k.0 != circle ==> t'.members[k] == t.members[k])
  {
    hide P.Writes, P.Incoming, Holdings, Placed, Sorter.Distinct;
    var writes := P.Writes(Holdings(t.members, circle, listing), P.Incoming(asns), asns);
    forall u: nat ensures u in writes && (circle, u) !in t.members ==>
        exists i :: 0 <= i < |asns| && asns[i].user == u {
      WrittenTo(t, circle, listing, asns, u);
    }
    forall i | 0 <= i < |asns| ensures asns[i].user in writes {
      WrittenTo(t, circle, listing, asns, asns[i].user);
    }
    OnlyPlaced(t.members, circle, writes);
  }

  lemma {:induction false} OnlyPlaced(members: map<(nat, nat), MembershipRow>, circle: nat, writes: map<nat, int>)
    ensures var after := Placed(members, circle, writes);
      && after.Keys == members.Keys
      && (forall k :: k in members ==> after[k] == members[k].(position := after[k].position))
      && (forall k :: k in members && k.0 != circle ==> after[k] == members[k])
  {
  }

  /** Only users who are assigned something, and active members, have their position written. */
  lemma {:induction false} WrittenTo(t: Tables, circle: nat, listing: seq<nat>, asns: seq<P.Assignment>, u: nat)
    requires Listing(t, circle, listing)
    ensures var writes := P.Writes(Holdings(t.members, circle, listing), P.Incoming(asns), asns);
      && ((exists i :: 0 <= i < |asns| && asns[i].user == u) ==> u in writes)
      && (u in writes && (circle, u) !in t.members ==> exists i :: 0 <= i < |asns| && asns[i].user == u)
  {
    hide P.Writes, P.Holder, P.OldPosition;
    var rows := Holdings(t.members, circle, listing);
    P.WrittenUsers(rows, P.Incoming(asns), asns, u);
    if u in P.Writes(rows, P.Incoming(asns), asns) && !exists i :: 0 <= i < |asns| && asns[i].user == u {
      var i :| 0 <= i < |asns| && P.Displaced(rows, P.Incoming(asns), asns[i]) == Some(u);
      var k := P.HolderIsRow(rows, asns[i].position);
      assert rows[k].user == listing[k] && u in listing;
    }
  }
}
