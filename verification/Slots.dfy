/** A circle's slot counter against the members it stands for. */
module Slots {
  import opened Wrappers
  import opened Tables
  import opened Memberships
  import opened Contributions
  import opened Loans
  import opened Payouts
  import opened Circles
  import opened Platform
  import opened Preservation
  import opened Runs
  import opened Guarantees
  import opened Frames
  import opened Records
  import A = Audit
  import C = Calendar
  import P = Positions
  import Sorter

  type Members = map<(nat, nat), MembershipRow>

  function ActiveIn(members: Members, circle: nat): set<nat> {
    set k | k in members && k.0 == circle && members[k].status.Active? :: k.1
  }

  predicate IsActive(members: Members, circle: nat, user: nat) {
    (circle, user) in members && members[(circle, user)].status.Active?
  }

  lemma {:induction false} ActiveMeans(members: Members, circle: nat, user: nat)
    ensures user in ActiveIn(members, circle) <==> IsActive(members, circle, user)
  {
    assert (circle, user) in members ==> (circle, user).1 == user;
  }

  /** How far the counter runs ahead of the members it counts. */
  function Drift(t: Tables, circle: nat): int
    requires circle in t.circles
  {
    t.circles[circle].filledSlots - |ActiveIn(t.members, circle)|
  }

  /** Every circle under way has the drift it had; a new one has none. */
  ghost predicate SameDrift(t: Tables, t': Tables) {
    && (forall c :: c in t.circles ==>
          c in t'.circles && (!t'.circles[c].status.Completed? ==> Drift(t', c) == Drift(t, c)))
    && (forall c :: c in t'.circles && c !in t.circles ==> Drift(t', c) == 0)
  }

  /** An approval that goes through for somebody who is active already. */
  ghost predicate Reapproves(t: Tables, step: Step, circle: nat) {
    && step.Approve? && step.circle == circle
    && Platform.Attempt(t, step).Success?
    && IsActive(t.members, circle, step.user)
  }

  // ----- How the set of active members moves -----------------------------------------------------------------

  lemma {:induction false} SameActive(members: Members, members': Members, circle: nat)
    requires forall u: nat :: IsActive(members', circle, u) <==> IsActive(members, circle, u)
    ensures ActiveIn(members', circle) == ActiveIn(members, circle)
  {
    forall u: nat ensures u in ActiveIn(members', circle) <==> u in ActiveIn(members, circle) {
      ActiveMeans(members, circle, u);
      ActiveMeans(members', circle, u);
    }
    hide ActiveIn;
  }

  lemma {:induction false} OneMore(members: Members, members': Members, circle: nat, user: nat)
    requires !IsActive(members, circle, user) && IsActive(members', circle, user)
    requires forall u: nat :: u != user ==> (IsActive(members', circle, u) <==> IsActive(members, circle, u))
    ensures |ActiveIn(members', circle)| == |ActiveIn(members, circle)| + 1
  {
    forall u: nat ensures u in ActiveIn(members', circle) <==> u in ActiveIn(members, circle) + {user} {
      ActiveMeans(members, circle, u);
      ActiveMeans(members', circle, u);
    }
    ActiveMeans(members, circle, user);
    hide ActiveIn;
    assert ActiveIn(members', circle) == ActiveIn(members, circle) + {user};
  }

  /** Only one circle's counter and one member of it moved, together. */
  ghost predicate Moved(t: Tables, t': Tables, circle: nat, user: nat) {
    && t'.circles.Keys == t.circles.Keys && circle in t.circles
    && (forall c :: c in t.circles && c != circle ==> t'.circles[c].filledSlots == t.circles[c].filledSlots)
    && (forall c :: c in t.circles && t.circles[c].status.Completed? ==> t'.circles[c].status.Completed?)
    && (forall c: nat, u: nat :: (c, u) != (circle, user) ==>
         (IsActive(t'.members, c, u) <==> IsActive(t.members, c, u)))
  }

  function Change(t: Tables, t': Tables, circle: nat, user: nat): int {
    (if IsActive(t'.members, circle, user) then 1 else 0) - if IsActive(t.members, circle, user) then 1 else 0
  }

  lemma {:induction false} MovedCounts(t: Tables, t': Tables, circle: nat, user: nat)
    requires Moved(t, t', circle, user)
    requires t'.circles[circle].filledSlots == t.circles[circle].filledSlots + Change(t, t', circle, user)
    ensures SameDrift(t, t')
  {
    hide ActiveIn, IsActive;
    forall c | c in t.circles ensures Drift(t', c) == Drift(t, c) {
      if c != circle || Change(t, t', circle, user) == 0 {
        SameActive(t.members, t'.members, c);
      } else if Change(t, t', circle, user) == 1 {
        OneMore(t.members, t'.members, circle, user);
      } else {
        OneMore(t'.members, t.members, circle, user);
      }
    }
  }

  /** Nobody's status and nobody's counter moved. */
  ghost predicate Still(t: Tables, t': Tables) {
    && t'.circles.Keys == t.circles.Keys
    && (forall c :: c in t.circles ==> t'.circles[c].filledSlots == t.circles[c].filledSlots)
    && (forall c :: c in t.circles && t.circles[c].status.Completed? ==> t'.circles[c].status.Completed?)
    && (forall c: nat, u: nat :: c in t.circles && !t'.circles[c].status.Completed? ==>
          (IsActive(t'.members, c, u) <==> IsActive(t.members, c, u)))
  }

  lemma {:induction false} StillCounts(t: Tables, t': Tables)
    requires Still(t, t')
    ensures SameDrift(t, t')
  {
    hide ActiveIn, IsActive;
    forall c | c in t.circles && !t'.circles[c].status.Completed? ensures Drift(t', c) == Drift(t, c) {
      SameActive(t.members, t'.members, c);
    }
  }

  // ----- Each step -------------------------------------------------------------------------------------------

  lemma {:induction false} JoinCounts(t: Tables, now: int, user: nat, circle: nat, t': Tables)
    requires RequestToJoin(t, now, user, circle) == Success(t')
    ensures SameDrift(t, t')
  {
    hide Pay, SameDrift, ActiveIn;
    StillCounts(t, t');
  }

  lemma {:induction false} JoinInvitedCounts(t: Tables, now: int, user: nat, token: nat, t': Tables)
    requires JoinByInvite(t, now, user, token) == Success(t')
    ensures SameDrift(t, t')
  {
    hide Pay, SameDrift, ActiveIn;
    MovedCounts(t, t', t.invites[token].circle, user);
  }

  lemma {:induction false} LeaveCounts(t: Tables, user: nat, circle: nat, t': Tables)
    requires LeaveCircle(t, user, circle) == Success(t')
    ensures SameDrift(t, t')
  {
    hide Pay, SameDrift, ActiveIn;
    MovedCounts(t, t', circle, user);
  }

  lemma {:induction false} CancelCounts(t: Tables, user: nat, circle: nat, t': Tables)
    requires CancelJoinRequest(t, user, circle) == Success(t')
    ensures SameDrift(t, t')
  {
    hide Pay, SameDrift, ActiveIn;
    StillCounts(t, t');
  }

  lemma {:induction false} RejectCounts(t: Tables, circle: nat, admin: nat, user: nat, t': Tables)
    requires RejectMember(t, circle, admin, user) == Success(t')
    ensures SameDrift(t, t')
  {
    hide Pay, SameDrift, ActiveIn;
    StillCounts(t, t');
  }

  lemma {:induction false} MembersCount(t: Tables, step: Step, t': Tables)
    requires ForMembers(step) && !step.Approve? && Does(t, step, t')
    ensures SameDrift(t, t')
  {
    hide SameDrift, RequestToJoin, JoinByInvite, LeaveCircle, CancelJoinRequest, RejectMember;
    match step
    case Join(now, user, circle) => JoinCounts(t, now, user, circle, t');
    case JoinInvited(now, user, token) => JoinInvitedCounts(t, now, user, token, t');
    case Leave(user, circle) => LeaveCounts(t, user, circle, t');
    case Cancel(user, circle) => CancelCounts(t, user, circle, t');
    case Reject(circle, admin, user) => RejectCounts(t, circle, admin, user, t');
  }

  /** Approval adds a slot whatever the membership was, so the counter runs ahead by one when the member was
      active before. */
  lemma {:induction false} ApprovalCounts(t: Tables, circle: nat, admin: nat, user: nat, t': Tables, c: nat)
    requires ApproveMember(t, circle, admin, user) == Success(t') && c in t.circles
    ensures t'.circles.Keys == t.circles.Keys
    ensures Drift(t', c) == Drift(t, c) + if c == circle && IsActive(t.members, circle, user) then 1 else 0
  {
    hide ActiveIn;
    if c == circle && !IsActive(t.members, circle, user) {
      OneMore(t.members, t'.members, c, user);
    } else {
      SameActive(t.members, t'.members, c);
    }
  }

  lemma {:induction false} ConfigureCounts(t: Tables, circle: nat, admin: nat, logic: Option<Sorter.PayoutLogic>,
                                           asns: seq<P.Assignment>, listing: seq<nat>, t': Tables)
    requires Listing(t, circle, listing)
    requires ConfigurePayout(t, circle, admin, logic, asns, listing) == Success(t')
    ensures SameDrift(t, t')
  {
    hide SameDrift, ActiveIn, P.Writes, P.Incoming, GoodPositions, Placed;
    PlacedStatus(t.members, circle, P.Writes(Holdings(t.members, circle, listing), P.Incoming(asns), asns));
    StillCounts(t, t');
  }

  lemma {:induction false} ActivateCounts(t: Tables, a: Activation, t': Tables)
    requires Ready(t, a) && ActivateCircle(t, a) == Success(t')
    ensures SameDrift(t, t')
  {
    hide SameDrift, ActiveIn, Positioned, Scheduled, Order, Rows, Assigned, Unrepeated;
    PositionedStatus(t.members, a.circle, Order(t, a));
    StillCounts(t, t');
  }

  lemma {:induction false} CirclesCount(t: Tables, h: History, step: Step, t': Tables)
    requires Inv(World(t, h)) && ForCircles(step) && Enabled(t, step)
    requires Does(t, step, t')
    ensures SameDrift(t, t')
  {
    hide Inv, Ready, Listing, CreateCircle, ConfigurePayout, ActivateCircle, SameDrift, ActiveIn;
    match step
    case Create(users, circle, row) => CreateCounts(t, h, users, circle, row, t');
    case Update(_, _, _) => StillCounts(t, t');
    case Configure(circle, admin, logic, asns, listing) => ConfigureCounts(t, circle, admin, logic, asns, listing, t');
    case Invites(_) => StillCounts(t, t');
    case Activate(a) => ActivateCounts(t, a, t');
  }

  lemma {:induction false} PlacedStatus(members: Members, circle: nat, writes: map<nat, int>)
    ensures Placed(members, circle, writes).Keys == members.Keys
    ensures forall k :: k in members ==> Placed(members, circle, writes)[k].status == members[k].status
  {
  }

  lemma {:induction false} CreateCounts(t: Tables, h: History, users: set<nat>, circle: nat, row: CircleRow, t': Tables)
    requires Inv(World(t, h)) && CreateCircle(t, users, circle, row) == Success(t')
    ensures SameDrift(t, t')
  {
    hide Inv;
    forall u: nat ensures !IsActive(t.members, circle, u) {
      if (circle, u) in t.members {
        MemberLocks(t, h, (circle, u));
      }
    }
    SameActive(t.members, map[], circle);
    assert ActiveIn(map[], circle) == {};
    hide ActiveIn;
  }

  lemma {:induction false} PayoutCounts(t: Tables, circle: nat, cycle: int, t': Tables)
    requires ProcessPayout(t, circle, cycle) == Success(t')
    ensures SameDrift(t, t')
  {
    hide PaidOut, Finalize, SameDrift, ActiveIn, HasLivePayout, Pot;
    var recipient := t.schedules[(circle, cycle)].recipient.value;
    var paid := PaidOut(t, circle, cycle, recipient).value;
    PaidOutCircles(t, circle, cycle, recipient, paid);
    if cycle == t.circles[circle].durationCycles {
      FinalizeFrame(paid, circle, t');
      ClosedElsewhere(paid, circle, t');
    }
    StillCounts(t, t');
  }

  lemma {:induction false} ClosedElsewhere(t: Tables, circle: nat, t': Tables)
    requires circle in t.circles && Finalize(t, circle) == Success(t')
    ensures forall c: nat, u: nat :: c != circle ==> (IsActive(t'.members, c, u) <==> IsActive(t.members, c, u))
  {
    hide ReleasedWallet;
  }

  /** One step moves a circle's drift by one when it approves an active member again, and not otherwise. */
  lemma {:induction false} StepDrift(t: Tables, h: History, step: Step, t': Tables, c: nat)
    requires Inv(World(t, h)) && Does(t, step, t')
    requires c in t'.circles && !t'.circles[c].status.Completed?
    ensures Drift(t', c) == (if c in t.circles then Drift(t, c) else 0) + if Reapproves(t, step, c) then 1 else 0
    ensures Reapproves(t, step, c) ==> c in t.circles
  {
    hide Inv, Drift, ActiveIn, Platform.Attempt, Enabled, Still;
    if step.Approve? {
      ApprovalDrift(t, step, t', c);
    } else if ForMembers(step) {
      MembersCount(t, step, t');
    } else if ForCircles(step) {
      CirclesCount(t, h, step, t');
    } else if step.Payout? {
      PayoutDrift(t, step, t');
    } else if step.Retry? {
      RetryRefused(t, step);
    } else {
      OthersStill(t, step, t');
      StillCounts(t, t');
    }
  }

  lemma {:induction false} PayoutDrift(t: Tables, step: Step, t': Tables)
    requires step.Payout? && Does(t, step, t')
    ensures SameDrift(t, t')
  {
    hide ProcessPayout, SameDrift;
    PayoutCounts(t, step.circle, step.cycle, t');
  }

  lemma {:induction false} OthersStill(t: Tables, step: Step, t': Tables)
    requires !ForMembers(step) && !ForCircles(step) && !step.Payout? && !step.Retry? && Does(t, step, t')
    ensures Still(t, t')
  {
    hide MakeContribution, ReversePayout, ApplyLoan, A.Attempt, Earlier;
    match step
    case Contribute(now, user, circle, cycle) => ContributionMade(t, now, user, circle, cycle, t');
    case Reverse(payout, recipient, amount, schedule) => ReversedRows(t, payout, recipient, amount, schedule, t');
    case Borrow(user, circle, score, seen) => LoanMade(t, seen, user, circle, score, t');
    case _ =>
  }

  lemma {:induction false} ReversedRows(t: Tables, payout: nat, recipient: nat, amount: int, schedule: (nat, int),
      t': Tables)
    requires ReversePayout(t, payout, recipient, amount, schedule) == Success(t')
    ensures t'.circles == t.circles && t'.members == t.members
  {
    hide Pay;
  }

  lemma {:induction false} ApprovalDrift(t: Tables, step: Step, t': Tables, c: nat)
    requires step.Approve? && Does(t, step, t') && c in t'.circles && !t'.circles[c].status.Completed?
    ensures c in t.circles && Drift(t', c) == Drift(t, c) + if Reapproves(t, step, c) then 1 else 0
  {
    hide Drift, ActiveIn, ApproveMember;
    ApprovalSlots(t, step, t');
    ApprovalCounts(t, step.circle, step.admin, step.user, t', c);
  }

  lemma {:induction false} ApprovalSlots(t: Tables, step: Step, t': Tables)
    requires step.Approve? && Does(t, step, t')
    ensures t'.circles.Keys == t.circles.Keys && step.circle in t.circles
  {
  }

  // ----- Every run -------------------------------------------------------------------------------------------

  /** How often a run approves a member of this circle who is active already. */
  ghost function Reapprovals(w: World, steps: seq<Step>, circle: nat): nat
    decreases |steps|
  {
    if |steps| == 0 then 0
    else
      (if Reapproves(w.tables, steps[0], circle) then 1 else 0)
      + Reapprovals(Platform.Apply(w, steps[0]), steps[1..], circle)
  }

  function DriftOf(t: Tables, circle: nat): int {
    if circle in t.circles then Drift(t, circle) else 0
  }

  lemma {:induction false} ApplyDrift(w: World, step: Step, c: nat)
    requires Inv(w) && !IsOver(Platform.Apply(w, step).tables.circles, c)
    ensures DriftOf(Platform.Apply(w, step).tables, c)
      == DriftOf(w.tables, c) + if Reapproves(w.tables, step, c) then 1 else 0
  {
    hide Inv, Drift, Platform.Attempt, Enabled, Track, IsActive;
    StepKeepsCircle(w, step, c);
    if Accepted(w.tables, step) {
      var t' := Platform.Attempt(w.tables, step).value;
      if c in t'.circles {
        StepDrift(w.tables, w.history, step, t', c);
      } else {
        NoCircle(w.tables, step, c);
      }
    } else {
      AlwaysEnabled(w.tables, step, c);
    }
  }

  lemma {:induction false} NoCircle(t: Tables, step: Step, c: nat)
    requires c !in t.circles
    ensures !Reapproves(t, step, c)
  {
    hide IsActive;
  }

  lemma {:induction false} AlwaysEnabled(t: Tables, step: Step, c: nat)
    ensures Reapproves(t, step, c) ==> Enabled(t, step)
  {
    hide IsActive, ApproveMember;
  }

  lemma {:induction false} RunDrift(w: World, steps: seq<Step>, c: nat)
    requires Inv(w) && !IsOver(Platform.Run(w, steps).tables.circles, c)
    ensures DriftOf(Platform.Run(w, steps).tables, c) == DriftOf(w.tables, c) + Reapprovals(w, steps, c)
    decreases |steps|
  {
    hide Inv, DriftOf, Platform.Apply, Reapproves, IsOver;
    if |steps| > 0 {
      var w1 := Platform.Apply(w, steps[0]);
      StepKeeps(w, steps[0]);
      if IsOver(w1.tables.circles, c) {
        StaysCompleted(w1, steps[1..], c);
      } else {
        ApplyDrift(w, steps[0], c);
        RunDrift(w1, steps[1..], c);
      }
    }
  }

  /** In every run the slot counter of a circle that is not completed is the number of its active members and
      of the approvals repeated for active members of this very circle. */
  lemma {:induction false} SlotsCountMembersAndRepeats(past: seq<Step>, c: nat)
    requires c in Reached(past).tables.circles && !Reached(past).tables.circles[c].status.Completed?
    ensures var t := Reached(past).tables;
      t.circles[c].filledSlots == |ActiveIn(t.members, c)| + Reapprovals(Genesis(), past, c)
  {
    hide Platform.Run, Inv, ActiveIn, Reapprovals;
    GenesisInv();
    RunDrift(Genesis(), past, c);
  }

  lemma {:induction false} ListingCounts(listing: seq<nat>, users: set<nat>)
    requires Sorter.Distinct(listing) && forall u :: u in listing <==> u in users
    ensures |listing| == |users|
    decreases |listing|
  {
    if |listing| == 0 {
      assert users == {};
    } else {
      var last := listing[|listing| - 1];
      var front := listing[..|listing| - 1];
      assert listing == front + [last];
      forall u ensures u in front <==> u in users - {last} {
        if u in front {
          var i :| 0 <= i < |front| && front[i] == u;
          assert listing[i] != listing[|listing| - 1];
        }
      }
      ListingCounts(front, users - {last});
      assert users == users - {last} + {last};
    }
  }

  lemma {:induction false} ListingIsActive(t: Tables, circle: nat, listing: seq<nat>)
    requires Listing(t, circle, listing)
    ensures |listing| == |ActiveIn(t.members, circle)|
  {
    hide Sorter.Distinct;
    forall u: nat ensures u in listing <==> u in ActiveIn(t.members, circle) {
      ActiveMeans(t.members, circle, u);
    }
    hide ActiveIn;
    ListingCounts(listing, ActiveIn(t.members, circle));
  }

  /** Activation of a draft with a deadline that is not long past: refused for a wrong slot count exactly when
      an active member of this circle was once approved again, and otherwise only for missing or repeated
      admin positions. */
  lemma {:induction false} ActivationMiscountsExactly(past: seq<Step>, a: Activation)
    requires var t := Reached(past).tables;
      && Ready(t, a) && a.circle in t.circles && t.circles[a.circle].status.Draft?
      && C.Instant(a.first, a.timeOfDay) >= a.now - ActivationBufferMs
    ensures var t := Reached(past).tables;
      && (ActivateCircle(t, a) == Failure(SlotsInconsistent) <==> Reapprovals(Genesis(), past, a.circle) > 0)
      && (ActivateCircle(t, a).Success? <==>
           && Reapprovals(Genesis(), past, a.circle) == 0
           && (t.circles[a.circle].logic.AdminAssigned? ==> Assigned(Rows(t, a)) && Unrepeated(Rows(t, a))))
  {
    hide Reached, Reapprovals, Rows, Assigned, Unrepeated, C.Instant, C.Valid, Activated, Sorter.Draws,
         Sorter.Distinct, ActiveIn;
    SlotsCountMembersAndRepeats(past, a.circle);
    ListingIsActive(Reached(past).tables, a.circle, a.listing);
  }

  /** A circle that is not completed has a slot for each active member, so leaving never finds too few. */
  lemma {:induction false} SlotToGiveBack(past: seq<Step>, circle: nat, user: nat)
    requires circle in Reached(past).tables.circles && !Reached(past).tables.circles[circle].status.Completed?
    ensures var t := Reached(past).tables;
      t.circles[circle].filledSlots >= if IsActive(t.members, circle, user) then 1 else 0
  {
    hide Reached, Reapprovals, ActiveIn;
    SlotsCountMembersAndRepeats(past, circle);
    var t := Reached(past).tables;
    ActiveMeans(t.members, circle, user);
    assert user in ActiveIn(t.members, circle) ==> |ActiveIn(t.members, circle)| >= |{user}|;
  }

  // ----- Room ------------------------------------------------------------------------------------------------

  predicate Within(t: Tables, circle: nat)
    requires circle in t.circles
  {
    t.circles[circle].filledSlots <= t.circles[circle].maxSlots
  }

  /** The two ways past a circle's size: approving into a full circle, and an edit to zero slots, which the
      guard against too few slots takes for no edit. */
  ghost predicate Overfills(t: Tables, step: Step, circle: nat)
    requires circle in t.circles
  {
    && Accepted(t, step)
    && ((step.Approve? && step.circle == circle && t.circles[circle].filledSlots == t.circles[circle].maxSlots)
        || (step.Update? && step.circle == circle && step.change.maxSlots == Some(0)
            && t.circles[circle].filledSlots > 0))
  }

  /** Nothing about slots moved. */
  ghost predicate SameRoom(t: Tables, t': Tables) {
    && t'.circles.Keys == t.circles.Keys
    && forall c :: c in t.circles ==>
      && t'.circles[c].filledSlots == t.circles[c].filledSlots && t'.circles[c].maxSlots == t.circles[c].maxSlots
  }

  /** What a membership step may do to the slots of one circle. */
  ghost predicate SlotsMove(t: Tables, t': Tables, c: nat, approved: bool) {
    && t'.circles.Keys == t.circles.Keys
    && (c in t.circles ==>
          && t'.circles[c].maxSlots == t.circles[c].maxSlots
          && (approved ==> t'.circles[c].filledSlots == t.circles[c].filledSlots + 1)
          && (!approved ==> t'.circles[c].filledSlots <= t.circles[c].filledSlots || Within(t', c)))
  }

  lemma {:induction false} RequestSlots(t: Tables, step: Step, t': Tables, c: nat)
    requires step.Join? || step.Cancel? || step.Reject?
    requires Does(t, step, t')
    ensures SlotsMove(t, t', c, false)
  {
    hide Pay, Collateral, NewMember;
  }

  lemma {:induction false} InviteSlots(t: Tables, now: int, user: nat, token: nat, t': Tables, c: nat)
    requires JoinByInvite(t, now, user, token) == Success(t')
    ensures SlotsMove(t, t', c, false)
  {
    hide Pay, Collateral, NewMember;
  }

  lemma {:induction false} LeaveSlots(t: Tables, user: nat, circle: nat, t': Tables, c: nat)
    requires LeaveCircle(t, user, circle) == Success(t')
    ensures SlotsMove(t, t', c, false)
  {
    hide Pay;
  }

  lemma {:induction false} MembersSlots(t: Tables, step: Step, t': Tables, c: nat)
    requires ForMembers(step) && Does(t, step, t')
    ensures SlotsMove(t, t', c, step.Approve? && step.circle == c)
  {
    hide RequestToJoin, CancelJoinRequest, RejectMember, JoinByInvite, LeaveCircle;
    match step
    case JoinInvited(now, user, token) => InviteSlots(t, now, user, token, t', c);
    case Leave(user, circle) => LeaveSlots(t, user, circle, t', c);
    case Approve(_, _, _) =>
    case _ => RequestSlots(t, step, t', c);
  }

  lemma {:induction false} MembersRoom(t: Tables, step: Step, t': Tables, c: nat)
    requires ForMembers(step) && Does(t, step, t') && c in t.circles && Within(t, c)
    ensures c in t'.circles && (Within(t', c) <==> !Overfills(t, step, c))
  {
    hide Platform.Attempt, Enabled;
    MembersSlots(t, step, t', c);
  }

  lemma {:induction false} CirclesRoom(t: Tables, step: Step, t': Tables, c: nat)
    requires ForCircles(step) && Does(t, step, t') && c in t.circles
    requires Within(t, c)
    ensures c in t'.circles && (Within(t', c) <==> !Overfills(t, step, c))
  {
    hide Ready, Listing, Positioned, Scheduled, Order, Rows, Assigned, Unrepeated, P.Writes, P.Incoming, Placed,
         Holdings, GoodPositions;
  }

  lemma {:induction false} OthersRoom(t: Tables, step: Step, t': Tables)
    requires !ForMembers(step) && !ForCircles(step) && !step.Payout? && !step.Retry?
    requires Does(t, step, t')
    ensures SameRoom(t, t')
  {
    hide Pay, Collect, A.Attempt, HasActive, HasTaken, HasContributed;
  }

  lemma {:induction false} PayoutRoom(t: Tables, step: Step, t': Tables)
    requires step.Payout? && Does(t, step, t')
    ensures SameRoom(t, t')
  {
    hide PaidOut, Finalize, HasLivePayout, Pot;
    var recipient := t.schedules[(step.circle, step.cycle)].recipient.value;
    var paid := PaidOut(t, step.circle, step.cycle, recipient).value;
    PaidOutCircles(t, step.circle, step.cycle, recipient, paid);
    if step.cycle == t.circles[step.circle].durationCycles {
      FinalizeFrame(paid, step.circle, t');
    }
  }

  /** A step leaves a circle within its size exactly when it neither approves into a full circle nor edits the
      size to zero: invites check the room, and every other edit keeps at least the filled slots. */
  lemma {:induction false} StepRoom(t: Tables, step: Step, t': Tables, c: nat)
    requires Does(t, step, t') && c in t.circles && Within(t, c)
    ensures c in t'.circles && (Within(t', c) <==> !Overfills(t, step, c))
  {
    hide Platform.Attempt, Enabled;
    if ForMembers(step) {
      MembersRoom(t, step, t', c);
    } else if ForCircles(step) {
      CirclesRoom(t, step, t', c);
    } else if step.Payout? {
      PayoutRoom(t, step, t');
    } else if step.Retry? {
      RetryRefused(t, step);
    } else {
      OthersRoom(t, step, t');
    }
  }

  /** Any membership of a full circle can be approved, and that takes the circle past its size. The guard of the edit
      by itself would let an edit to zero slots through too. */
  lemma {:induction false} RoomRunsOut(t: Tables, circle: nat, user: nat)
    requires circle in t.circles && Within(t, circle)
    ensures t.circles[circle].filledSlots == t.circles[circle].maxSlots && (circle, user) in t.members ==>
      var r := ApproveMember(t, circle, t.circles[circle].admin, user);
      r.Success? && circle in r.value.circles && !Within(r.value, circle)
    ensures t.circles[circle].filledSlots > 0 && t.circles[circle].status.Draft? ==>
      var r := UpdateCircle(t, circle, t.circles[circle].admin, Circles.Change(None, Some(0), None));
      r.Success? && circle in r.value.circles && !Within(r.value, circle)
  {
  }

  // ----- Room, as requests reach the service -----------------------------------------------------------------------

  /** Requests to create or edit a circle are refused before they reach the service unless they ask for at least two
      slots. */
  predicate Validated(step: Step) {
    match step
    case Create(_, _, row) => row.maxSlots >= 2
    case Update(_, _, change) => change.maxSlots.Some? ==> change.maxSlots.value >= 2
    case _ => true
  }

  /** An approval that goes through while the circle is full. */
  ghost predicate Overapproves(t: Tables, step: Step, circle: nat) {
    && step.Approve? && step.circle == circle && circle in t.circles
    && t.circles[circle].filledSlots >= t.circles[circle].maxSlots
    && Accepted(t, step)
  }

  /** How often a run does that. */
  ghost function Overapprovals(w: World, steps: seq<Step>, circle: nat): nat
    decreases |steps|
  {
    if |steps| == 0 then 0
    else
      (if Overapproves(w.tables, steps[0], circle) then 1 else 0)
      + Overapprovals(Platform.Apply(w, steps[0]), steps[1..], circle)
  }

  /** How many slots a circle has filled past its size. */
  function Excess(t: Tables, circle: nat): nat {
    if circle in t.circles && t.circles[circle].filledSlots > t.circles[circle].maxSlots
    then t.circles[circle].filledSlots - t.circles[circle].maxSlots else 0
  }

  lemma {:induction false} MembersExcess(t: Tables, step: Step, t': Tables, c: nat)
    requires ForMembers(step) && Does(t, step, t')
    ensures Excess(t', c) <= Excess(t, c) + if Overapproves(t, step, c) then 1 else 0
  {
    hide Platform.Attempt, Enabled;
    MembersSlots(t, step, t', c);
  }

  lemma {:induction false} CirclesExcess(t: Tables, step: Step, t': Tables, c: nat)
    requires ForCircles(step) && Validated(step) && Does(t, step, t')
    ensures Excess(t', c) <= Excess(t, c)
  {
    hide Ready, Listing, Positioned, Scheduled, Order, Rows, Assigned, Unrepeated, P.Writes, P.Incoming, Placed,
         Holdings, GoodPositions;
  }

  lemma {:induction false} StepExcess(t: Tables, step: Step, t': Tables, c: nat)
    requires Validated(step) && Does(t, step, t')
    ensures Excess(t', c) <= Excess(t, c) + if Overapproves(t, step, c) then 1 else 0
  {
    hide Platform.Attempt, Enabled, Validated, Overapproves;
    if ForMembers(step) {
      MembersExcess(t, step, t', c);
    } else if ForCircles(step) {
      CirclesExcess(t, step, t', c);
    } else if step.Payout? {
      PayoutRoom(t, step, t');
    } else if step.Retry? {
      RetryRefused(t, step);
    } else {
      OthersRoom(t, step, t');
    }
  }

  lemma {:induction false} RunExcess(w: World, steps: seq<Step>, c: nat)
    requires forall i :: 0 <= i < |steps| ==> Validated(steps[i])
    ensures Excess(Platform.Run(w, steps).tables, c) <= Excess(w.tables, c) + Overapprovals(w, steps, c)
    decreases |steps|
  {
    hide Platform.Attempt, Enabled, Track, Excess, Overapproves, Validated;
    if |steps| > 0 {
      if Accepted(w.tables, steps[0]) {
        StepExcess(w.tables, steps[0], Platform.Attempt(w.tables, steps[0]).value, c);
      }
      RunExcess(Platform.Apply(w, steps[0]), steps[1..], c);
    }
  }

  /** In every run of validated requests a circle has filled no more slots past its size than there were approvals
      into it while it was full: without one of those it is always within its size. */
  lemma {:induction false} OnlyApprovalsOverfill(past: seq<Step>, c: nat)
    requires c in Reached(past).tables.circles && forall i :: 0 <= i < |past| ==> Validated(past[i])
    ensures var row := Reached(past).tables.circles[c];
      row.filledSlots <= row.maxSlots + Overapprovals(Genesis(), past, c)
  {
    hide Platform.Run, Overapprovals, Validated;
    RunExcess(Genesis(), past, c);
  }
}
