/** What one step of the platform may do to circles, schedules, memberships and rows, whichever step it is. */
module Frames {
  import opened Wrappers
  import opened Ledger
  import opened Tables
  import opened Memberships
  import opened Contributions
  import opened Loans
  import opened Payouts
  import opened Circles
  import opened Platform
  import opened Preservation
  import opened Guarantees
  import A = Audit
  import P = Positions
  import Sorter

  // ----- Steps in groups -------------------------------------------------------------------------------------

  predicate ForMembers(step: Step) {
    step.Join? || step.JoinInvited? || step.Leave? || step.Cancel? || step.Approve? || step.Reject?
  }

  predicate ForCircles(step: Step) {
    step.Create? || step.Update? || step.Configure? || step.Invites? || step.Activate?
  }

  ghost predicate SameActivity(t: Tables, t': Tables) {
    t'.contributions == t.contributions && t'.payouts == t.payouts && t'.loans == t.loans
  }

  lemma {:induction false} MembersActivity(t: Tables, step: Step, t': Tables)
    requires ForMembers(step) && Does(t, step, t')
    ensures SameActivity(t, t')
  {
    hide Pay, Collateral, NewMember;
  }

  lemma {:induction false} CirclesActivity(t: Tables, step: Step, t': Tables)
    requires ForCircles(step) && Does(t, step, t')
    ensures SameActivity(t, t')
  {
    hide Ready, Listing, Positioned, Scheduled, Order, Rows, Assigned, Unrepeated, P.Writes, P.Incoming, Placed,
         Holdings, GoodPositions;
  }

  // ----- Circles -------------------------------------------------------------------------------------------

  predicate FixedTerms(c: CircleRow, c': CircleRow) {
    c'.amount == c.amount && c'.frequency == c.frequency && c'.durationCycles == c.durationCycles
  }

  /** A started circle keeps its terms; a circle starts by activation and ends by its last payout. */
  predicate CircleMoves(c: CircleRow, c': CircleRow, circle: nat, step: Step) {
    match c.status
    case Draft =>
      || c'.status.Draft?
      || (step.Activate? && step.a.circle == circle && c'.status.Active? && c'.amount == c.amount
          && c'.durationCycles == |step.a.listing|)
    case Active =>
      && FixedTerms(c, c')
      && (c'.status.Active? || (c'.status.Completed? && step == Payout(circle, c.durationCycles)))
    case _ => FixedTerms(c, c') && c'.status == c.status
  }

  ghost predicate CirclesMove(t: Tables, step: Step, t': Tables) {
    && (forall c :: c in t.circles ==> c in t'.circles && CircleMoves(t.circles[c], t'.circles[c], c, step))
    && (forall c :: c in t'.circles && c !in t.circles ==> t'.circles[c].status.Draft?)
  }

  // ----- Schedules -----------------------------------------------------------------------------------------

  predicate SameSchedule(s: ScheduleRow, s': ScheduleRow) {
    s'.recipient == s.recipient && s'.deadline == s.deadline && s'.payoutDate == s.payoutDate
  }

  predicate Schedules(step: Step, k: (nat, int)) {
    step.Activate? && step.a.circle == k.0 && 1 <= k.1 <= |step.a.listing|
  }

  /** Only activation adds schedules, and nothing but their status ever changes. */
  ghost predicate SchedulesMove(t: Tables, step: Step, t': Tables) {
    && (forall k :: k in t.schedules && !Schedules(step, k) ==>
          k in t'.schedules && SameSchedule(t.schedules[k], t'.schedules[k]))
    && (forall k :: k in t'.schedules && k !in t.schedules ==> Schedules(step, k))
  }

  // ----- Memberships ---------------------------------------------------------------------------------------

  predicate UnderWay(t: Tables, k: (nat, nat))
    requires k in t.members
  {
    !t.members[k].status.Pending? && k.0 in t.circles && !t.circles[k.0].status.Draft?
  }

  /** Once its circle has started, a membership that is not a mere request stays, with its identifier; an active
      one stays active until the circle completes. */
  ghost predicate MembersMove(t: Tables, t': Tables) {
    forall k :: k in t.members && UnderWay(t, k) ==>
      && k in t'.members && t'.members[k].id == t.members[k].id && UnderWay(t', k)
      && (t.members[k].status.Active? && t'.circles[k.0].status.Active? ==> t'.members[k].status.Active?)
  }

  ghost predicate Frame(t: Tables, step: Step, t': Tables) {
    CirclesMove(t, step, t') && SchedulesMove(t, step, t') && MembersMove(t, t')
  }

  predicate SameStanding(m: MembershipRow, m': MembershipRow) {
    m'.id == m.id && !m'.status.Pending? && (m.status.Active? ==> m'.status.Active?)
  }

  /** Nothing moved but slots, places and counters. */
  ghost predicate Settled(t: Tables, t': Tables) {
    && t'.circles.Keys == t.circles.Keys
    && (forall c :: c in t.circles ==>
          FixedTerms(t.circles[c], t'.circles[c]) && t'.circles[c].status == t.circles[c].status)
    && t'.schedules.Keys == t.schedules.Keys
    && (forall k :: k in t.schedules ==> SameSchedule(t.schedules[k], t'.schedules[k]))
    && (forall k :: k in t.members && !t.members[k].status.Pending? ==>
          && (k.0 in t.circles && !t.circles[k.0].status.Draft? ==> k in t'.members)
          && (k in t'.members ==> SameStanding(t.members[k], t'.members[k])))
  }

  lemma {:induction false} SettledFrame(t: Tables, step: Step, t': Tables)
    requires Settled(t, t')
    ensures Frame(t, step, t')
  {
  }

  lemma {:induction false} JoinSettled(t: Tables, now: int, user: nat, circle: nat, t': Tables)
    requires RequestToJoin(t, now, user, circle) == Success(t')
    ensures Settled(t, t')
  {
    hide Pay, Collateral, NewMember;
  }

  lemma {:induction false} InviteSettled(t: Tables, now: int, user: nat, token: nat, t': Tables)
    requires JoinByInvite(t, now, user, token) == Success(t')
    ensures Settled(t, t')
  {
    hide Pay, Collateral, NewMember;
  }

  lemma {:induction false} LeaveSettled(t: Tables, user: nat, circle: nat, t': Tables)
    requires LeaveCircle(t, user, circle) == Success(t') || CancelJoinRequest(t, user, circle) == Success(t')
    ensures Settled(t, t')
  {
    hide Pay;
  }

  lemma {:induction false} AdminSettled(t: Tables, circle: nat, admin: nat, user: nat, t': Tables)
    requires ApproveMember(t, circle, admin, user) == Success(t') || RejectMember(t, circle, admin, user) == Success(t')
    ensures Settled(t, t')
  {
    hide Pay;
  }

  lemma {:induction false} MembersSettled(t: Tables, step: Step, t': Tables)
    requires ForMembers(step) && Does(t, step, t')
    ensures Settled(t, t')
  {
    hide RequestToJoin, JoinByInvite, LeaveCircle, CancelJoinRequest, ApproveMember, RejectMember, Settled;
    match step
    case Join(now, user, circle) => JoinSettled(t, now, user, circle, t');
    case JoinInvited(now, user, token) => InviteSettled(t, now, user, token, t');
    case Leave(user, circle) => LeaveSettled(t, user, circle, t');
    case Cancel(user, circle) => LeaveSettled(t, user, circle, t');
    case Approve(circle, admin, user) => AdminSettled(t, circle, admin, user, t');
    case Reject(circle, admin, user) => AdminSettled(t, circle, admin, user, t');
  }

  lemma {:induction false} ConfigureSettled(t: Tables, step: Step, t': Tables)
    requires step.Configure? && Does(t, step, t')
    ensures Settled(t, t')
  {
    hide P.Writes, P.Incoming, GoodPositions, Placed, Settled, Sorter.Distinct;
    var writes := P.Writes(Holdings(t.members, step.circle, step.listing), P.Incoming(step.asns), step.asns);
    PlacedSettled(t, step.circle, writes, t'.circles[step.circle].logic, t');
  }

  lemma {:induction false} PlacedSettled(t: Tables, circle: nat, writes: map<nat, int>,
      logic: Sorter.PayoutLogic, t': Tables)
    requires circle in t.circles && t'.circles == t.circles[circle := t.circles[circle].(logic := logic)]
    requires t'.members == Placed(t.members, circle, writes) && t'.schedules == t.schedules
    ensures Settled(t, t')
  {
  }

  /** Circles came or moved, but no started one, and nothing else did. */
  lemma {:induction false} DraftsFrame(t: Tables, step: Step, t': Tables)
    requires t'.schedules == t.schedules && t'.members == t.members
    requires forall c :: c in t.circles ==>
      c in t'.circles && (t'.circles[c] == t.circles[c] || (t.circles[c].status.Draft? && t'.circles[c].status.Draft?))
    requires forall c :: c in t'.circles && c !in t.circles ==> t'.circles[c].status.Draft?
    ensures Frame(t, step, t')
  {
  }

  lemma {:induction false} DraftFrame(t: Tables, step: Step, t': Tables)
    requires step.Create? || step.Update? || step.Invites?
    requires Does(t, step, t')
    ensures Frame(t, step, t')
  {
    hide Frame;
    DraftsFrame(t, step, t');
  }

  lemma {:induction false} ActivateFrame(t: Tables, step: Step, t': Tables)
    requires step.Activate? && Does(t, step, t')
    ensures Frame(t, step, t')
  {
    hide Platform.Attempt, Enabled, Activated, Ready, CirclesMove, SchedulesMove, MembersMove;
    ActivatesDraft(t, step, t');
    ActivatedCircles(t, step.a);
    ActivatedSchedules(t, step.a);
    ActivatedMembers(t, step.a);
  }

  lemma {:induction false} ActivatesDraft(t: Tables, step: Step, t': Tables)
    requires Does(t, step, t') && step.Activate?
    ensures step.a.circle in t.circles && t.circles[step.a.circle].status.Draft? && Ready(t, step.a)
    ensures t' == Activated(t, step.a)
  {
    hide Ready, Rows, Assigned, Unrepeated, Activated;
  }

  lemma {:induction false} ActivatedCircles(t: Tables, a: Activation)
    requires Ready(t, a) && a.circle in t.circles && t.circles[a.circle].status.Draft?
    ensures CirclesMove(t, Step.Activate(a), Activated(t, a))
  {
    hide Positioned, Scheduled, Order, Ready;
  }

  lemma {:induction false} ActivatedSchedules(t: Tables, a: Activation)
    requires Ready(t, a) && a.circle in t.circles
    ensures SchedulesMove(t, Step.Activate(a), Activated(t, a))
  {
    hide Activated, Ready;
    ActivationFrame(t, a);
    ActivationKeys(t, a);
  }

  lemma {:induction false} ActivatedMembers(t: Tables, a: Activation)
    requires Ready(t, a) && a.circle in t.circles && t.circles[a.circle].status.Draft?
    ensures MembersMove(t, Activated(t, a))
  {
    hide Positioned, Scheduled, Order, Sorter.Distinct;
    PositionedIds(t.members, a.circle, Order(t, a));
  }

  lemma {:induction false} PositionedIds(members: map<(nat, nat), MembershipRow>, circle: nat, sorted: seq<Sorter.Row>)
    ensures Positioned(members, circle, sorted).Keys == members.Keys
    ensures forall k :: k in members ==> Positioned(members, circle, sorted)[k].id == members[k].id
    ensures forall k :: k in members ==> Positioned(members, circle, sorted)[k].status == members[k].status
  {
  }

  lemma {:induction false} ActivationKeys(t: Tables, a: Activation)
    requires Ready(t, a) && a.circle in t.circles
    ensures t.schedules.Keys <= Activated(t, a).schedules.Keys
  {
    hide Positioned, Scheduled, Order, Rows, Sorter.Distinct, Slot;
    ScheduledContents(t.schedules, a.circle, a.first, t.circles[a.circle].frequency, a.timeOfDay, Order(t, a),
      |a.listing|);
  }

  lemma {:induction false} PaidOutSettled(t: Tables, circle: nat, cycle: int, recipient: nat, t': Tables)
    requires (circle, cycle) in t.schedules && PaidOut(t, circle, cycle, recipient) == Success(t')
    ensures Settled(t, t')
  {
    hide Disburse, Repay, HasPayout, Pot;
  }

  lemma {:induction false} CloseAllElsewhere(t: Tables, circle: nat)
    ensures CloseAll(t, circle).Keys == t.members.Keys
    ensures forall k :: k in t.members && k.0 != circle ==> CloseAll(t, circle)[k] == t.members[k]
    ensures forall k :: k in t.members ==> CloseAll(t, circle)[k].id == t.members[k].id
    ensures forall k :: k in t.members && CloseAll(t, circle)[k].status.Pending? ==> t.members[k].status.Pending?
  {
  }

  lemma {:induction false} FinalizeMembers(t: Tables, circle: nat, t': Tables)
    requires circle in t.circles && Finalize(t, circle) == Success(t')
    ensures t'.members == CloseAll(t, circle)
  {
    hide ReleasedWallet;
  }

  lemma {:induction false} PayoutFrames(t: Tables, step: Step, t': Tables)
    requires step.Payout? && Does(t, step, t')
    ensures Frame(t, step, t')
  {
    hide PaidOut, Finalize, HasLivePayout, Pot, CloseAll;
    var circle, cycle := step.circle, step.cycle;
    var recipient := t.schedules[(circle, cycle)].recipient.value;
    var paid := PaidOut(t, circle, cycle, recipient).value;
    PaidOutSettled(t, circle, cycle, recipient, paid);
    PaidOutCircles(t, circle, cycle, recipient, paid);
    if cycle == t.circles[circle].durationCycles {
      FinalizeFrame(paid, circle, t');
      FinalizeMembers(paid, circle, t');
      hide ProcessPayout, Settled, Frame;
      FinishedFrame(t, circle, cycle, paid, t');
    } else {
      SettledFrame(t, step, t');
    }
  }

  /** The last payout's own writes, and then the end of its circle. */
  lemma {:induction false} FinishedFrame(t: Tables, circle: nat, cycle: int, paid: Tables, t': Tables)
    requires Settled(t, paid) && paid.circles == t.circles && paid.members == t.members
    requires circle in t.circles && t.circles[circle].status.Active? && cycle == t.circles[circle].durationCycles
    requires t'.circles == t.circles[circle := t.circles[circle].(status := CircleStatus.Completed)]
    requires t'.members == CloseAll(paid, circle) && t'.schedules == paid.schedules
    ensures Frame(t, Payout(circle, cycle), t')
  {
    hide CloseAll;
    CloseAllElsewhere(paid, circle);
  }

  lemma {:induction false} ContributeSettled(t: Tables, now: int, user: nat, circle: nat, cycle: int, t': Tables)
    requires MakeContribution(t, now, user, circle, cycle) == Success(t')
    ensures Settled(t, t')
  {
    hide Collect, HasContributed, LateFee, MakeContribution;
    ContributionMade(t, now, user, circle, cycle, t');
  }

  lemma {:induction false} ReverseSettled(t: Tables, payout: nat, recipient: nat, amount: int, schedule: (nat, int),
      t': Tables)
    requires ReversePayout(t, payout, recipient, amount, schedule) == Success(t')
    ensures Settled(t, t')
  {
    hide Pay;
  }

  lemma {:induction false} SameRows(t: Tables, t': Tables)
    requires t'.circles == t.circles && t'.schedules == t.schedules && t'.members == t.members
    ensures Settled(t, t')
  {
  }

  lemma {:induction false} MoneySettled(t: Tables, step: Step, t': Tables)
    requires step.OpenWallet? || step.External? || step.Contribute? || step.Reverse? || step.Borrow?
    requires Does(t, step, t')
    ensures Settled(t, t')
  {
    hide MakeContribution, ReversePayout, ApplyLoan, A.Attempt, Settled, Earlier;
    match step
    case Contribute(now, user, circle, cycle) => ContributeSettled(t, now, user, circle, cycle, t');
    case Reverse(payout, recipient, amount, schedule) => ReverseSettled(t, payout, recipient, amount, schedule, t');
    case Borrow(user, circle, score, seen) =>
      LoanMade(t, seen, user, circle, score, t');
      SameRows(t, t');
    case OpenWallet(_) => SameRows(t, t');
    case External(_, _) => SameRows(t, t');
  }

  lemma {:induction false} StepFrame(t: Tables, step: Step, t': Tables)
    requires Does(t, step, t')
    ensures Frame(t, step, t')
  {
    hide Platform.Attempt, Enabled, Frame, Settled;
    if ForMembers(step) {
      MembersSettled(t, step, t');
      SettledFrame(t, step, t');
    } else if step.Configure? {
      ConfigureSettled(t, step, t');
      SettledFrame(t, step, t');
    } else if step.Create? || step.Update? || step.Invites? {
      DraftFrame(t, step, t');
    } else if step.Activate? {
      ActivateFrame(t, step, t');
    } else if step.Payout? {
      PayoutFrames(t, step, t');
    } else if step.Retry? {
      RetryRefused(t, step);
    } else {
      MoneySettled(t, step, t');
      SettledFrame(t, step, t');
    }
  }

  lemma {:induction false} RetryRefused(t: Tables, step: Step)
    requires step.Retry?
    ensures Platform.Attempt(t, step).Failure?
  {
    hide RetryPayout;
    RetryNeverSucceeds(t, step.payout);
  }

  // ----- Rows ------------------------------------------------------------------------------------------------

  ghost predicate SamePayouts(before: seq<PayoutRow>, after: seq<PayoutRow>) {
    && |after| == |before|
    && forall i :: 0 <= i < |before| ==>
         && after[i].circle == before[i].circle && after[i].cycle == before[i].cycle
         && after[i].recipient == before[i].recipient && after[i].amount == before[i].amount
  }

  /** A contribution at the circle's amount, by one of its active members, to a cycle it has not paid yet. */
  predicate FreshRow(t: Tables, row: ContributionRow) {
    && row.circle in t.circles && t.circles[row.circle].status.Active?
    && (row.circle, row.user) in t.members && t.members[(row.circle, row.user)].status.Active?
    && row.member == t.members[(row.circle, row.user)].id
    && (row.circle, row.cycle) in t.schedules
    && !HasContributed(t.contributions, row.circle, row.member, row.cycle)
    && row.amount == t.circles[row.circle].amount
    && (row.penalty == 0 || row.penalty == LatePenalty(row.amount))
  }

  ghost predicate RowsMove(t: Tables, step: Step, t': Tables) {
    && (if step.Contribute? then
          && |t'.contributions| == |t.contributions| + 1
          && var row := t'.contributions[|t.contributions|];
          && t'.contributions == t.contributions + [row] && FreshRow(t, row)
          && row.circle == step.circle && row.user == step.user && row.cycle == step.cycle
          && row.penalty == LateFee(row.amount, step.now > t.schedules[(row.circle, row.cycle)].deadline)
        else t'.contributions == t.contributions)
    && (if step.Payout? then
          && |t'.payouts| == |t.payouts| + 1
          && var row := t'.payouts[|t.payouts|];
          && t'.payouts == t.payouts + [row] && row.circle == step.circle && row.cycle == step.cycle
          && row.circle in t.circles && t.circles[row.circle].status.Active?
          && (row.circle, row.cycle) in t.schedules
          && t.schedules[(row.circle, row.cycle)].recipient == Some(row.recipient)
          && !HasPayout(t.payouts, row.circle, row.cycle)
          && t'.loans == Repay(t.loans, row.recipient, row.circle, Pot(t.contributions, row.circle, row.cycle)).loans
        else
          && SamePayouts(t.payouts, t'.payouts)
          && (if step.Borrow? then |t'.loans| == |t.loans| + 1 && t'.loans == t.loans + [t'.loans[|t.loans|]]
              else t'.loans == t.loans))
  }

  lemma {:induction false} PaidOutRows(t: Tables, circle: nat, cycle: int, recipient: nat, t': Tables)
    requires (circle, cycle) in t.schedules && t.schedules[(circle, cycle)].recipient == Some(recipient)
    requires circle in t.circles && t.circles[circle].status.Active?
    requires PaidOut(t, circle, cycle, recipient) == Success(t')
    ensures RowsMove(t, Payout(circle, cycle), t')
  {
    hide Disburse, Repay, HasPayout, Pot;
  }

  lemma {:induction false} PayoutRows(t: Tables, step: Step, t': Tables)
    requires step.Payout? && Does(t, step, t')
    ensures RowsMove(t, step, t')
  {
    hide PaidOut, Finalize, HasLivePayout, HasPayout, Pot, Repay;
    var circle, cycle := step.circle, step.cycle;
    var recipient := t.schedules[(circle, cycle)].recipient.value;
    var paid := PaidOut(t, circle, cycle, recipient).value;
    PaidOutRows(t, circle, cycle, recipient, paid);
    if cycle == t.circles[circle].durationCycles {
      PaidOutCircles(t, circle, cycle, recipient, paid);
      FinalizeFrame(paid, circle, t');
    }
  }

  lemma {:induction false} SameActivityRows(t: Tables, step: Step, t': Tables)
    requires SameActivity(t, t') && !step.Contribute? && !step.Payout? && !step.Borrow?
    ensures RowsMove(t, step, t')
  {
  }

  lemma {:induction false} MoneyRows(t: Tables, step: Step, t': Tables)
    requires step.OpenWallet? || step.External? || step.Contribute? || step.Reverse? || step.Borrow?
    requires Does(t, step, t')
    ensures RowsMove(t, step, t')
  {
    hide MakeContribution, ApplyLoan, ReversePayout, A.Attempt, Earlier, RowsMove;
    match step
    case Contribute(now, user, circle, cycle) => ContributeRows(t, now, user, circle, cycle, t');
    case Borrow(user, circle, score, seen) => BorrowRows(t, seen, user, circle, score, t');
    case Reverse(payout, recipient, amount, schedule) => ReverseRows(t, payout, recipient, amount, schedule, t');
    case _ => SameActivityRows(t, step, t');
  }

  lemma {:induction false} ContributeRows(t: Tables, now: int, user: nat, circle: nat, cycle: int, t': Tables)
    requires MakeContribution(t, now, user, circle, cycle) == Success(t')
    ensures RowsMove(t, Contribute(now, user, circle, cycle), t')
  {
    hide Collect, HasContributed, LatePenalty;
  }

  lemma {:induction false} BorrowRows(t: Tables, seen: Tables, user: nat, circle: nat, score: int, t': Tables)
    requires ApplyLoan(t, seen, user, circle, score) == Success(t')
    ensures RowsMove(t, Borrow(user, circle, score, seen), t')
  {
    hide ApplyLoan, HasActive, HasTaken;
    LoanMade(t, seen, user, circle, score, t');
  }

  lemma {:induction false} ReverseRows(t: Tables, payout: nat, recipient: nat, amount: int, schedule: (nat, int),
      t': Tables)
    requires ReversePayout(t, payout, recipient, amount, schedule) == Success(t')
    ensures RowsMove(t, Reverse(payout, recipient, amount, schedule), t')
  {
    hide Pay;
  }

  lemma {:induction false} StepRows(t: Tables, step: Step, t': Tables)
    requires Does(t, step, t')
    ensures RowsMove(t, step, t')
  {
    hide Platform.Attempt, Enabled, RowsMove;
    if ForMembers(step) {
      MembersActivity(t, step, t');
      SameActivityRows(t, step, t');
    } else if ForCircles(step) {
      CirclesActivity(t, step, t');
      SameActivityRows(t, step, t');
    } else if step.Payout? {
      PayoutRows(t, step, t');
    } else if step.Retry? {
      RetryRefused(t, step);
    } else {
      MoneyRows(t, step, t');
    }
  }

  lemma {:induction false} SameHas(before: seq<PayoutRow>, after: seq<PayoutRow>, c: nat, k: int)
    requires SamePayouts(before, after)
    ensures HasPayout(after, c, k) <==> HasPayout(before, c, k)
  {
    assert forall i :: 0 <= i < |before| ==> (IsFor(after[i], c, k) <==> IsFor(before[i], c, k));
  }

  lemma {:induction false} OtherPot(rows: seq<ContributionRow>, row: ContributionRow, c: nat, k: int)
    requires row.circle != c
    ensures Pot(rows + [row], c, k) == Pot(rows, c, k)
  {
    assert (rows + [row])[..|rows|] == rows;
  }
}
