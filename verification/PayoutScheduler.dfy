/** The hourly batch of due payouts, and the permanence of payout rows. */
module PayoutScheduler {
  import opened Wrappers
  import opened Ledger
  import opened Tables
  import opened Contributions
  import opened Loans
  import opened Payouts
  import opened Platform
  import opened Preservation
  import opened Runs
  import opened Guarantees
  import opened Frames
  import opened Records
  import Sorter

  /** A payout that fails is logged and the batch goes on. */
  ghost function ProcessDue(t: Tables, due: seq<(nat, int)>): Tables
    decreases |due|
  {
    if |due| == 0 then t else ProcessDue(PayIfPossible(t, due[0].0, due[0].1), due[1..])
  }

  ghost function PayIfPossible(t: Tables, circle: nat, cycle: int): Tables {
    match ProcessPayout(t, circle, cycle)
    case Success(t') => t'
    case Failure(_) => t
  }

  lemma {:induction false} ProcessDueAppend(t: Tables, due: seq<(nat, int)>, last: (nat, int))
    ensures ProcessDue(t, due + [last]) == PayIfPossible(ProcessDue(t, due), last.0, last.1)
    decreases |due|
  {
    hide PayIfPossible;
    var all := due + [last];
    if |due| == 0 {
      assert all[1..] == [];
    } else {
      assert all[1..] == due[1..] + [last];
      ProcessDueAppend(PayIfPossible(t, due[0].0, due[0].1), due[1..], last);
    }
  }

  lemma {:induction false} LivePayoutRefuses(t: Tables, circle: nat, cycle: int)
    requires HasLivePayout(t.payouts, circle, cycle)
    ensures PayIfPossible(t, circle, cycle) == t
  {
  }

  method ProcessDuePayouts(db: Database, due: seq<(nat, int)>)
    modifies db, db.ledger
    ensures db.Snapshot() == ProcessDue(old(db.Snapshot()), due)
  {
    hide ProcessPayout, HasLivePayout;
    ghost var start := db.Snapshot();
    for i := 0 to |due|
      invariant db.Snapshot() == ProcessDue(start, due[..i])
    {
      var circle, cycle := due[i].0, due[i].1;
      assert due[..i + 1] == due[..i] + [due[i]];
      ProcessDueAppend(start, due[..i], due[i]);
      if HasLivePayout(db.payouts, circle, cycle) {
        LivePayoutRefuses(db.Snapshot(), circle, cycle);
        continue;
      }
      var _ := ProcessPayoutTx(db, circle, cycle);
    }
    assert due[..|due|] == due;
  }

  // ----- What the batch achieves -------------------------------------------------------------------------

  /** No schedule twice, and a circle's last cycle after its others. */
  predicate InOrder(t: Tables, due: seq<(nat, int)>) {
    forall i, j :: 0 <= i < j < |due| ==>
      && due[i] != due[j]
      && (due[i].0 == due[j].0 && due[i].0 in t.circles ==> due[i].1 != t.circles[due[i].0].durationCycles)
  }

  /** A payout changes the eligibility of its own cycle, and of its circle's others only by completing it. */
  lemma {:induction false} PayoutFrame(t: Tables, circle: nat, cycle: int, t': Tables, c: nat, k: int)
    requires ProcessPayout(t, circle, cycle) == Success(t')
    ensures HasPayout(t'.payouts, c, k) <==> HasPayout(t.payouts, c, k) || (c, k) == (circle, cycle)
    ensures (c, k) != (circle, cycle) && !(c == circle && cycle == t.circles[circle].durationCycles) ==>
      (Eligible(t', c, k) <==> Eligible(t, c, k))
    ensures t'.circles.Keys == t.circles.Keys
    ensures forall o :: o in t.circles ==> t'.circles[o].durationCycles == t.circles[o].durationCycles
  {
    hide Finalize, Disburse, HasPayout, HasLivePayout, Pot, Repay;
    var recipient := t.schedules[(circle, cycle)].recipient.value;
    var paid := PaidOut(t, circle, cycle, recipient).value;
    PaidNow(t.payouts, paid.payouts[|t.payouts|], c, k);
    if cycle == t.circles[circle].durationCycles {
      FinalizeFrame(paid, circle, t');
    }
  }

  /** The batch creates a payout for exactly the listed schedules that were eligible when it started:
      no failure of one keeps another from being paid. */
  lemma {:induction false} BatchPaysTheEligible(t: Tables, h: History, due: seq<(nat, int)>, c: nat, k: int)
    requires Inv(World(t, h)) && InOrder(t, due)
    ensures var t' := ProcessDue(t, due);
      && Inv(World(t', h))
      && (HasPayout(t'.payouts, c, k) <==> HasPayout(t.payouts, c, k) || ((c, k) in due && Eligible(t, c, k)))
    decreases |due|
  {
    hide Inv, ProcessPayout, HasPayout, Eligible, InOrder;
    if |due| > 0 {
      var t1 := PayIfPossible(t, due[0].0, due[0].1);
      PayoutExactly(t, h, due[0].0, due[0].1);
      HeadStep(t, h, due, t1, c, k);
      BatchPaysTheEligible(t1, h, due[1..], c, k);
      assert (c, k) in due <==> (c, k) == due[0] || (c, k) in due[1..];
    }
  }

  lemma {:induction false} HeadStep(t: Tables, h: History, due: seq<(nat, int)>, t1: Tables, c: nat, k: int)
    requires Inv(World(t, h)) && InOrder(t, due) && |due| > 0
    requires t1 == PayIfPossible(t, due[0].0, due[0].1)
    ensures Inv(World(t1, h)) && InOrder(t1, due[1..])
    ensures HasPayout(t1.payouts, c, k) <==> HasPayout(t.payouts, c, k) || ((c, k) == due[0] && Eligible(t, c, k))
    ensures (c, k) in due[1..] ==> (Eligible(t1, c, k) <==> Eligible(t, c, k))
  {
    hide Inv, ProcessPayout, HasPayout, Eligible;
    PayoutExactly(t, h, due[0].0, due[0].1);
    if ProcessPayout(t, due[0].0, due[0].1).Success? {
      PayoutKeeps(t, h, due[0].0, due[0].1, t1);
      PayoutFrame(t, due[0].0, due[0].1, t1, c, k);
      EligibleCircle(t, due[0].0, due[0].1);
    }
    if (c, k) in due[1..] {
      var j :| 0 <= j < |due[1..]| && due[1..][j] == (c, k);
      assert due[j + 1] == (c, k);
    }
    forall i, j | 0 <= i < j < |due[1..]|
      ensures due[1..][i] != due[1..][j]
      ensures due[1..][i].0 == due[1..][j].0 && due[1..][i].0 in t1.circles ==>
        due[1..][i].1 != t1.circles[due[1..][i].0].durationCycles
    {
      assert due[1..][i] == due[i + 1] && due[1..][j] == due[j + 1];
    }
  }

  lemma {:induction false} EligibleCircle(t: Tables, circle: nat, cycle: int)
    requires Eligible(t, circle, cycle)
    ensures circle in t.circles
  {
  }

  /** The schedules findDuePayouts returns: UPCOMING, with a recipient, payable by now, earliest first. */
  predicate IsDue(t: Tables, now: int, k: (nat, int)) {
    && k in t.schedules && t.schedules[k].status.Upcoming? && t.schedules[k].recipient.Some?
    && t.schedules[k].payoutDate <= now
  }

  ghost predicate DueListing(t: Tables, now: int, due: seq<(nat, int)>) {
    && Sorter.Distinct(due)
    && (forall k :: k in due <==> IsDue(t, now, k))
    && (forall i, j :: 0 <= i < j < |due| ==> NoLater(t, due[i], due[j]))
  }

  predicate NoLater(t: Tables, k: (nat, int), m: (nat, int)) {
    k in t.schedules && m in t.schedules && t.schedules[k].payoutDate <= t.schedules[m].payoutDate
  }

  /** The timetable of a circle runs forward, so a listing by payout date has its last cycle last. */
  lemma {:induction false} DueInOrder(t: Tables, now: int, due: seq<(nat, int)>)
    requires Recorded(t) && DueListing(t, now, due)
    ensures InOrder(t, due)
  {
    hide GoodRows, Started;
    forall i, j | 0 <= i < j < |due|
      ensures due[i] != due[j]
      ensures due[i].0 == due[j].0 && due[i].0 in t.circles ==> due[i].1 != t.circles[due[i].0].durationCycles
    {
      assert NoLater(t, due[i], due[j]);
      LastIsLast(t, due[i], due[j]);
    }
  }

  lemma {:induction false} LastIsLast(t: Tables, k: (nat, int), m: (nat, int))
    requires GoodTimetable(t) && NoLater(t, k, m) && k != m
    ensures k.0 == m.0 && k.0 in t.circles ==> k.1 != t.circles[k.0].durationCycles
  {
    hide Started;
    assert GoodSchedule(t, k) && GoodSchedule(t, m);
    assert (k.0, k.1) == k && (m.0, m.1) == m;
    assert k.0 == m.0 && m.1 < k.1 ==> Before(t, m.0, m.1, k.1);
  }

  /** In every reachable state the hourly batch creates a payout for exactly the cycles that are due, have a
      contribution and no payout row, in an active circle: no failure of one keeps another from being paid,
      and completing a circle never overtakes one of its cycles. */
  lemma {:induction false} BatchPaysTheDue(past: seq<Step>, now: int, due: seq<(nat, int)>, c: nat, k: int)
    requires DueListing(Reached(past).tables, now, due)
    ensures var t := Reached(past).tables;
      HasPayout(ProcessDue(t, due).payouts, c, k) <==>
        || HasPayout(t.payouts, c, k)
        || (Eligible(t, c, k) && t.schedules[(c, k)].status.Upcoming? && t.schedules[(c, k)].payoutDate <= now)
  {
    hide Reached, HasPayout, ProcessDue, DueListing;
    BatchPaysListed(past, now, due, c, k);
  }

  lemma {:induction false} BatchPaysListed(past: seq<Step>, now: int, due: seq<(nat, int)>, c: nat, k: int)
    requires DueListing(Reached(past).tables, now, due)
    ensures var t := Reached(past).tables;
      HasPayout(ProcessDue(t, due).payouts, c, k) <==>
        HasPayout(t.payouts, c, k) || (IsDue(t, now, (c, k)) && Eligible(t, c, k))
  {
    hide Reached, Inv, Recorded, InOrder, HasPayout, Eligible, ProcessDue;
    ReachedInv(past);
    ReachedRecords(past);
    var w := Reached(past);
    DueInOrder(w.tables, now, due);
    BatchPaysTheEligible(w.tables, w.history, due, c, k);
  }

  // ----- Payout rows are for ever ------------------------------------------------------------------------

  ghost predicate RowsKept(before: seq<PayoutRow>, after: seq<PayoutRow>) {
    && |before| <= |after|
    && forall i :: 0 <= i < |before| ==>
         && after[i].circle == before[i].circle && after[i].cycle == before[i].cycle
         && after[i].recipient == before[i].recipient && after[i].amount == before[i].amount
  }

  lemma {:induction false} StepKeepsRows(t: Tables, step: Step, t': Tables)
    requires Does(t, step, t')
    ensures RowsKept(t.payouts, t'.payouts)
  {
    hide Platform.Attempt, Enabled, FreshRow, Repay, HasPayout;
    StepRows(t, step, t');
  }

  lemma {:induction false} RunKeepsRows(w: World, steps: seq<Step>)
    ensures RowsKept(w.tables.payouts, Platform.Run(w, steps).tables.payouts)
    decreases |steps|
  {
    hide Platform.Attempt, Enabled, Track;
    if |steps| > 0 {
      if Accepted(w.tables, steps[0]) {
        StepKeepsRows(w.tables, steps[0], Platform.Attempt(w.tables, steps[0]).value);
      }
      RunKeepsRows(Platform.Apply(w, steps[0]), steps[1..]);
    }
  }

  /** Once a cycle has a payout row, no run makes a payout for it go through again, even after the row
      was reversed and its schedule is UPCOMING once more. */
  lemma {:induction false} PaidOnceForEver(w: World, steps: seq<Step>, circle: nat, cycle: int)
    requires Inv(w) && HasPayout(w.tables.payouts, circle, cycle)
    ensures ProcessPayout(Platform.Run(w, steps).tables, circle, cycle).Failure?
  {
    hide Inv, ProcessPayout;
    RunKeeps(w, steps);
    RunKeepsRows(w, steps);
    var w' := Platform.Run(w, steps);
    var i :| 0 <= i < |w.tables.payouts| && IsFor(w.tables.payouts[i], circle, cycle);
    assert IsFor(w'.tables.payouts[i], circle, cycle);
    PayoutExactly(w'.tables, w'.history, circle, cycle);
  }

  // ----- The batch among everything else -----------------------------------------------------------------

  /** Each payout of the batch is a transaction of its own, and before each of them the rest of the platform goes on. */
  function Interleaved(due: seq<(nat, int)>, between: seq<seq<Step>>): seq<Step>
    requires |between| == |due|
  {
    if |due| == 0 then []
    else between[0] + ([Payout(due[0].0, due[0].1)] + Interleaved(due[1..], between[1..]))
  }

  /** Nobody but the batch pays this circle out, and nobody contributes to this cycle any more. */
  predicate Leaves(step: Step, c: nat, k: int) {
    && !(step.Payout? && step.circle == c)
    && !(step.Contribute? && step.circle == c && step.cycle == k)
  }

  ghost predicate AllLeave(steps: seq<Step>, c: nat, k: int) {
    forall i :: 0 <= i < |steps| ==> Leaves(steps[i], c, k)
  }

  ghost predicate NonePays(steps: seq<Step>, c: nat) {
    forall i :: 0 <= i < |steps| ==> !(steps[i].Payout? && steps[i].circle == c)
  }

  ghost predicate NobodyElsePays(between: seq<seq<Step>>, c: nat) {
    forall i :: 0 <= i < |between| ==> NonePays(between[i], c)
  }

  ghost predicate Undisturbed(between: seq<seq<Step>>, c: nat, k: int) {
    forall i :: 0 <= i < |between| ==> AllLeave(between[i], c, k)
  }

  lemma {:induction false} PotNeverEmpties(t: Tables, h: History, step: Step, t': Tables, c: nat, k: int)
    requires Inv(World(t, h)) && RowsMove(t, step, t')
    ensures Pot(t'.contributions, c, k) >= Pot(t.contributions, c, k) >= 0
    ensures Leaves(step, c, k) ==> Pot(t'.contributions, c, k) == Pot(t.contributions, c, k)
  {
    hide WalletsInv, CollateralInv, LoansInv, Conserved, Owed, Balance, Repay, HasPayout, FreshRow, SamePayouts;
    PotPositive(t.contributions, c, k);
    if step.Contribute? {
      var row := t'.contributions[|t.contributions|];
      assert (t.contributions + [row])[..|t.contributions|] == t.contributions;
      NewRowPays(t, h, step, t');
    }
  }

  lemma {:induction false} NewRowPays(t: Tables, h: History, step: Step, t': Tables)
    requires Inv(World(t, h)) && RowsMove(t, step, t') && step.Contribute?
    ensures Paid(t'.contributions[|t.contributions|]) > 0
  {
    hide WalletsInv, PoolInv, LoansInv, Conserved, Repay, HasPayout, Pot, SamePayouts, HasContributed;
    AmountsPositive(t, h);
    LatePenaltyBounds(t'.contributions[|t.contributions|].amount, true);
  }

  lemma {:induction false} PayoutsMove(t: Tables, step: Step, t': Tables, c: nat, k: int)
    requires RowsMove(t, step, t')
    ensures HasPayout(t'.payouts, c, k) <==>
      HasPayout(t.payouts, c, k) || (step.Payout? && step.circle == c && step.cycle == k)
  {
    hide HasPayout, Pot, Repay, FreshRow, SamePayouts;
    if step.Payout? {
      PaidNow(t.payouts, t'.payouts[|t.payouts|], c, k);
    } else {
      SameHas(t.payouts, t'.payouts, c, k);
    }
  }

  /** A cycle that could be paid out still can after any step, unless that step paid it or finished its circle. */
  lemma {:induction false} EligibleMoves(t: Tables, h: History, step: Step, t': Tables, c: nat, k: int)
    requires Inv(World(t, h)) && Recorded(t) && (c, k) in t.schedules
    requires Does(t, step, t')
    ensures HasPayout(t'.payouts, c, k) <==>
      HasPayout(t.payouts, c, k) || (step.Payout? && step.circle == c && step.cycle == k)
    ensures Eligible(t, c, k) ==> Eligible(t', c, k) || HasPayout(t'.payouts, c, k) || IsOver(t'.circles, c)
    ensures Eligible(t, c, k) && !(step.Payout? && step.circle == c) ==> Eligible(t', c, k)
    ensures Leaves(step, c, k) ==> (Eligible(t', c, k) <==> Eligible(t, c, k))
    ensures (c, k) in t'.schedules && c in t.circles && c in t'.circles
    ensures t'.circles[c].durationCycles == t.circles[c].durationCycles
  {
    hide Platform.Attempt, Enabled, HasPayout, Pot, MembersMove, SchedulesMove, GoodRows, Inv, RowsMove;
    StepFrame(t, step, t');
    StepRows(t, step, t');
    OldSchedule(t, step, t', (c, k));
    ScheduledStarted(t);
    PotNeverEmpties(t, h, step, t', c, k);
    PayoutsMove(t, step, t', c, k);
  }

  /** What the rest of the platform does to a scheduled cycle and to those of its circle. */
  ghost predicate Between(t: Tables, t': Tables, c: nat, k: int, steps: seq<Step>) {
    && (c, k) in t'.schedules && c in t.circles && c in t'.circles
    && t'.circles[c].durationCycles == t.circles[c].durationCycles
    && (HasPayout(t.payouts, c, k) ==> HasPayout(t'.payouts, c, k))
    && (IsOver(t.circles, c) ==> IsOver(t'.circles, c))
    && (Eligible(t, c, k) ==> Eligible(t', c, k) || HasPayout(t'.payouts, c, k) || IsOver(t'.circles, c))
    && (NonePays(steps, c) && Eligible(t, c, k) ==> Eligible(t', c, k))
    && (AllLeave(steps, c, k) ==>
         (HasPayout(t'.payouts, c, k) <==> HasPayout(t.payouts, c, k)) && (Eligible(t', c, k) <==> Eligible(t, c, k)))
  }

  lemma {:induction false} StepBetween(w: World, step: Step, c: nat, k: int)
    requires Inv(w) && Recorded(w.tables) && (c, k) in w.tables.schedules
    ensures Between(w.tables, Platform.Apply(w, step).tables, c, k, [step])
  {
    hide Inv, Recorded, Platform.Attempt, Enabled, Track, HasPayout, Eligible, Leaves;
    ScheduleOfCircle(w.tables, (c, k));
    StepKeepsCircle(w, step, c);
    assert AllLeave([step], c, k) ==> Leaves([step][0], c, k);
    assert NonePays([step], c) ==> !([step][0].Payout? && [step][0].circle == c);
    if Accepted(w.tables, step) {
      EligibleMoves(w.tables, w.history, step, Platform.Attempt(w.tables, step).value, c, k);
      LeavesUnpaid(step, c, k);
    }
  }

  lemma {:induction false} LeavesUnpaid(step: Step, c: nat, k: int)
    ensures Leaves(step, c, k) ==> !(step.Payout? && step.circle == c && step.cycle == k)
  {
  }

  lemma {:induction false} ScheduleOfCircle(t: Tables, k: (nat, int))
    requires Recorded(t) && k in t.schedules
    ensures k.0 in t.circles
  {
    hide GoodRows;
    ScheduledStarted(t);
  }

  lemma {:induction false} BetweenJoins(t: Tables, t1: Tables, t2: Tables, c: nat, k: int, a: seq<Step>, b: seq<Step>)
    requires Between(t, t1, c, k, a) && Between(t1, t2, c, k, b)
    ensures Between(t, t2, c, k, a + b)
  {
    hide HasPayout, Eligible, IsOver, Leaves;
    assert forall i :: 0 <= i < |a| ==> (a + b)[i] == a[i];
    assert forall i :: 0 <= i < |b| ==> (a + b)[|a| + i] == b[i];
  }

  lemma {:induction false} RunBetween(w: World, steps: seq<Step>, c: nat, k: int)
    requires Inv(w) && Recorded(w.tables) && (c, k) in w.tables.schedules
    ensures var w' := Platform.Run(w, steps);
      Inv(w') && Recorded(w'.tables) && Between(w.tables, w'.tables, c, k, steps)
    decreases |steps|
  {
    hide Inv, Recorded, Between, Platform.Apply;
    if |steps| == 0 {
      NothingBetween(w.tables, c, k);
    } else {
      var w1 := Platform.Apply(w, steps[0]);
      StepKeeps(w, steps[0]);
      RunOne(w, steps[0]);
      RunRecords(w, [steps[0]]);
      StepBetween(w, steps[0], c, k);
      StillScheduled(w.tables, w1.tables, c, k, [steps[0]]);
      RunBetween(w1, steps[1..], c, k);
      BetweenJoins(w.tables, w1.tables, Platform.Run(w, steps).tables, c, k, [steps[0]], steps[1..]);
      assert steps == [steps[0]] + steps[1..];
    }
  }

  lemma {:induction false} NothingBetween(t: Tables, c: nat, k: int)
    requires Recorded(t) && (c, k) in t.schedules
    ensures Between(t, t, c, k, [])
  {
    hide HasPayout, Eligible, Recorded;
    ScheduleOfCircle(t, (c, k));
  }

  lemma {:induction false} StillScheduled(t: Tables, t': Tables, c: nat, k: int, steps: seq<Step>)
    requires Between(t, t', c, k, steps)
    ensures (c, k) in t'.schedules
  {
    hide HasPayout, Eligible;
  }

  /** Every listed cycle is scheduled, and a circle's last cycle is listed after its others. */
  ghost predicate Listed(t: Tables, due: seq<(nat, int)>) {
    InOrder(t, due) && forall key :: key in due ==> key in t.schedules
  }

  /** The batch's own payout of one cycle, seen from another cycle or from itself. */
  lemma {:induction false} TurnOfBatch(w: World, due: seq<(nat, int)>, c: nat, k: int)
    requires Inv(w) && Recorded(w.tables) && Listed(w.tables, due) && |due| > 0 && (c, k) in w.tables.schedules
    ensures var t, t' := w.tables, Platform.Apply(w, Payout(due[0].0, due[0].1)).tables;
      && (due[0] == (c, k) ==> (HasPayout(t'.payouts, c, k) <==> HasPayout(t.payouts, c, k) || Eligible(t, c, k)))
      && (due[0] != (c, k) ==> (HasPayout(t'.payouts, c, k) <==> HasPayout(t.payouts, c, k)))
      && (due[0] != (c, k) && (c, k) in due ==> (Eligible(t', c, k) <==> Eligible(t, c, k)))
  {
    hide Inv, Recorded, ProcessPayout, HasPayout, Eligible, GoodSchedule;
    var (circle, cycle) := due[0];
    PayoutExactly(w.tables, w.history, circle, cycle);
    if ProcessPayout(w.tables, circle, cycle).Success? {
      PayoutFrame(w.tables, circle, cycle, ProcessPayout(w.tables, circle, cycle).value, c, k);
      EligibleCircle(w.tables, circle, cycle);
      if due[0] != (c, k) && (c, k) in due {
        var j :| 0 <= j < |due| && due[j] == (c, k);
        assert 0 < j;
      }
    }
  }

  lemma {:induction false} ListedStays(w: World, steps: seq<Step>, due: seq<(nat, int)>)
    requires Inv(w) && Recorded(w.tables) && Listed(w.tables, due)
    ensures Listed(Platform.Run(w, steps).tables, due)
  {
    hide Inv, Recorded, Platform.Run, Between;
    var t, t' := w.tables, Platform.Run(w, steps).tables;
    forall key | key in due
      ensures key in t'.schedules && key.0 in t.circles && key.0 in t'.circles
      ensures t'.circles[key.0].durationCycles == t.circles[key.0].durationCycles
    {
      RunBetween(w, steps, key.0, key.1);
      SameLength(t, t', key.0, key.1, steps);
    }
  }

  lemma {:induction false} SameLength(t: Tables, t': Tables, c: nat, k: int, steps: seq<Step>)
    requires Between(t, t', c, k, steps)
    ensures (c, k) in t'.schedules && c in t.circles && c in t'.circles
    ensures t'.circles[c].durationCycles == t.circles[c].durationCycles
  {
    hide HasPayout, Eligible;
  }

  lemma {:induction false} ListedTail(t: Tables, due: seq<(nat, int)>)
    requires Listed(t, due) && |due| > 0
    ensures Listed(t, due[1..]) && due[0] in t.schedules && due[0] !in due[1..]
  {
    assert forall i :: 0 <= i < |due| - 1 ==> due[1..][i] == due[i + 1];
  }

  /** What the batch leaves of one scheduled cycle. */
  ghost predicate Served(t: Tables, t': Tables, due: seq<(nat, int)>, between: seq<seq<Step>>, c: nat, k: int) {
    && ((c, k) in due && Eligible(t, c, k) ==> HasPayout(t'.payouts, c, k) || IsOver(t'.circles, c))
    && ((c, k) in due && Eligible(t, c, k) && NobodyElsePays(between, c) ==> HasPayout(t'.payouts, c, k))
    && (Undisturbed(between, c, k) ==>
         (HasPayout(t'.payouts, c, k) <==> HasPayout(t.payouts, c, k) || ((c, k) in due && Eligible(t, c, k))))
  }

  lemma {:induction false} ServesJoin(t: Tables, t1: Tables, t2: Tables, t3: Tables, due: seq<(nat, int)>,
      between: seq<seq<Step>>, c: nat, k: int)
    requires |between| == |due| > 0 && due[0] !in due[1..]
    requires Between(t, t1, c, k, between[0])
    requires due[0] == (c, k) ==> (HasPayout(t2.payouts, c, k) <==> HasPayout(t1.payouts, c, k) || Eligible(t1, c, k))
    requires due[0] != (c, k) ==> (HasPayout(t2.payouts, c, k) <==> HasPayout(t1.payouts, c, k))
    requires due[0] != (c, k) && (c, k) in due ==> (Eligible(t2, c, k) <==> Eligible(t1, c, k))
    requires IsOver(t1.circles, c) ==> IsOver(t3.circles, c)
    requires HasPayout(t2.payouts, c, k) ==> HasPayout(t3.payouts, c, k)
    requires Served(t2, t3, due[1..], between[1..], c, k)
    ensures Served(t, t3, due, between, c, k)
  {
    hide HasPayout, Eligible, IsOver, AllLeave, NonePays;
    assert (c, k) in due <==> due[0] == (c, k) || (c, k) in due[1..];
    if Undisturbed(between, c, k) {
      assert forall i :: 0 <= i < |between| - 1 ==> between[1..][i] == between[i + 1];
      assert AllLeave(between[0], c, k) && Undisturbed(between[1..], c, k);
    }
    if NobodyElsePays(between, c) {
      assert forall i :: 0 <= i < |between| - 1 ==> between[1..][i] == between[i + 1];
      assert NonePays(between[0], c) && NobodyElsePays(between[1..], c);
    }
  }

  lemma {:induction false} KeepsPaidAndOver(t: Tables, t': Tables, c: nat, k: int, steps: seq<Step>)
    requires Between(t, t', c, k, steps)
    ensures HasPayout(t.payouts, c, k) ==> HasPayout(t'.payouts, c, k)
    ensures IsOver(t.circles, c) ==> IsOver(t'.circles, c)
  {
    hide HasPayout, Eligible, IsOver, AllLeave;
  }

  lemma {:induction false} BatchServes(w: World, due: seq<(nat, int)>, between: seq<seq<Step>>, c: nat, k: int)
    requires Inv(w) && Recorded(w.tables) && Listed(w.tables, due) && (c, k) in w.tables.schedules
    requires |between| == |due|
    ensures Served(w.tables, Platform.Run(w, Interleaved(due, between)).tables, due, between, c, k)
    decreases |due|
  {
    hide Inv, Recorded, Listed, Platform.Run, Platform.Apply, Between, HasPayout, Eligible, Undisturbed, NobodyElsePays,
         IsOver;
    if |due| == 0 {
      RunNothing(w);
    } else {
      var payout := Payout(due[0].0, due[0].1);
      var rest := Interleaved(due[1..], between[1..]);
      var w1 := Platform.Run(w, between[0]);
      var w2 := Platform.Apply(w1, payout);
      var w3 := Platform.Run(w2, rest);
      RunConcat(w, between[0], [payout] + rest);
      RunConcat(w1, [payout], rest);
      RunOne(w1, payout);
      RunBetween(w, between[0], c, k);
      ListedStays(w, between[0], due);
      StillScheduled(w.tables, w1.tables, c, k, between[0]);
      TurnOfBatch(w1, due, c, k);
      RunBetween(w1, [payout], c, k);
      ListedStays(w1, [payout], due);
      ListedTail(w2.tables, due);
      StillScheduled(w1.tables, w2.tables, c, k, [payout]);
      KeepsPaidAndOver(w1.tables, w2.tables, c, k, [payout]);
      RunBetween(w2, rest, c, k);
      KeepsPaidAndOver(w2.tables, w3.tables, c, k, rest);
      BatchServes(w2, due[1..], between[1..], c, k);
      ServesJoin(w.tables, w1.tables, w2.tables, w3.tables, due, between, c, k);
    }
  }

  lemma {:induction false} RunNothing(w: World)
    ensures Platform.Run(w, []) == w
  {
  }

  /** The hourly batch in the middle of everything else: from any reachable state, with any steps of the platform
      before each of its payouts. A cycle that was due and eligible when the batch began is paid out at its end, unless
      its circle is over because somebody else paid it out meanwhile. And as long as nobody else pays the circle out or
      contributes to the cycle, the batch pays exactly what it would have paid alone. */
  lemma {:induction false} BatchAmongOthers(past: seq<Step>, now: int, due: seq<(nat, int)>,
      between: seq<seq<Step>>, c: nat, k: int)
    requires DueListing(Reached(past).tables, now, due) && |between| == |due|
    requires (c, k) in Reached(past).tables.schedules
    ensures var t := Reached(past).tables;
      var t' := Reached(past + Interleaved(due, between)).tables;
      && (IsDue(t, now, (c, k)) && Eligible(t, c, k) ==> HasPayout(t'.payouts, c, k) || IsOver(t'.circles, c))
      && (IsDue(t, now, (c, k)) && Eligible(t, c, k) && NobodyElsePays(between, c) ==> HasPayout(t'.payouts, c, k))
      && (Undisturbed(between, c, k) ==>
           (HasPayout(t'.payouts, c, k) <==> HasPayout(ProcessDue(t, due).payouts, c, k)))
  {
    hide Platform.Run, Inv, Recorded, HasPayout, Eligible, ProcessDue, Undisturbed, NobodyElsePays,
         IsOver, IsDue;
    ReachedInv(past);
    ReachedRecords(past);
    var w := Reached(past);
    DueListed(w.tables, now, due);
    RunConcat(Genesis(), past, Interleaved(due, between));
    BatchServes(w, due, between, c, k);
    BatchPaysListed(past, now, due, c, k);
  }

  lemma {:induction false} DueListed(t: Tables, now: int, due: seq<(nat, int)>)
    requires Recorded(t) && DueListing(t, now, due)
    ensures Listed(t, due)
  {
    hide Recorded, InOrder;
    DueInOrder(t, now, due);
    assert forall key :: key in due ==> IsDue(t, now, key);
  }
}
