/** What the tables of every run say about circles under way: their rows, their terms and their timetables. */
module Records {
  import opened Wrappers
  import opened Tables
  import opened Contributions
  import opened Loans
  import opened Payouts
  import opened Circles
  import opened Platform
  import opened Runs
  import opened Frames
  import C = Calendar
  import Sorter

  predicate Started(cs: map<nat, CircleRow>, c: nat) {
    c in cs && !cs[c].status.Draft?
  }

  /** A contribution is to a scheduled cycle, at the amount the circle started with. */
  predicate GoodContribution(t: Tables, row: ContributionRow) {
    && Started(t.circles, row.circle) && row.amount == t.circles[row.circle].amount
    && (row.circle, row.cycle) in t.schedules
    && (row.penalty == 0 || row.penalty == LatePenalty(row.amount))
  }

  /** A cycle of a started circle, one of as many as the circle has, with a recipient and a day to pay out. */
  predicate GoodSchedule(t: Tables, k: (nat, int))
    requires k in t.schedules
  {
    && Started(t.circles, k.0) && 1 <= k.1 <= t.circles[k.0].durationCycles
    && t.schedules[k].recipient.Some? && t.schedules[k].deadline < t.schedules[k].payoutDate
  }

  /** Of two cycles of a circle the earlier pays out before the later one's deadline. */
  predicate Before(t: Tables, c: nat, i: int, j: int)
    requires (c, i) in t.schedules && (c, j) in t.schedules
  {
    t.schedules[(c, i)].payoutDate < t.schedules[(c, j)].deadline
  }

  ghost predicate GoodRows(t: Tables) {
    && (forall i :: 0 <= i < |t.contributions| ==> GoodContribution(t, t.contributions[i]))
    && (forall i :: 0 <= i < |t.payouts| ==> Started(t.circles, t.payouts[i].circle))
    && (forall i :: 0 <= i < |t.loans| ==> Started(t.circles, t.loans[i].circle))
  }

  ghost predicate GoodTimetable(t: Tables) {
    && (forall k :: k in t.schedules ==> GoodSchedule(t, k))
    && (forall c: nat, i: int, j: int :: i < j && (c, i) in t.schedules && (c, j) in t.schedules ==> Before(t, c, i, j))
  }

  ghost predicate Recorded(t: Tables) {
    GoodRows(t) && GoodTimetable(t)
  }

  // ----- Each step -------------------------------------------------------------------------------------------

  lemma {:induction false} StaysStarted(t: Tables, step: Step, t': Tables, c: nat)
    requires CirclesMove(t, step, t') && Started(t.circles, c)
    ensures Started(t'.circles, c) && FixedTerms(t.circles[c], t'.circles[c])
  {
  }

  /** An activated circle was a draft and had no schedule. */
  lemma {:induction false} NothingScheduled(t: Tables, step: Step, k: (nat, int))
    requires GoodTimetable(t) && k in t.schedules
    requires step.Activate? ==> step.a.circle in t.circles ==> t.circles[step.a.circle].status.Draft?
    ensures !Schedules(step, k)
  {
    assert GoodSchedule(t, k);
  }

  lemma {:induction false} OldSchedule(t: Tables, step: Step, t': Tables, k: (nat, int))
    requires Recorded(t) && Does(t, step, t') && k in t.schedules
    ensures k in t'.schedules && SameSchedule(t.schedules[k], t'.schedules[k])
  {
    hide Platform.Attempt, Enabled, Ready, GoodRows, CirclesMove, MembersMove, GoodTimetable;
    StepFrame(t, step, t');
    if step.Activate? {
      ActivatesDraft(t, step, t');
    }
    NothingScheduled(t, step, k);
  }

  lemma {:induction false} RowsStay(t: Tables, step: Step, t': Tables)
    requires Recorded(t) && Does(t, step, t')
    ensures GoodRows(t')
  {
    hide Platform.Attempt, Enabled, GoodTimetable, CircleMoves, SchedulesMove, MembersMove, HasPayout, HasContributed,
         Repay, Pot, LatePenalty;
    StepFrame(t, step, t');
    StepRows(t, step, t');
    hide CirclesMove;
    forall c | Started(t.circles, c) ensures Started(t'.circles, c) && FixedTerms(t.circles[c], t'.circles[c]) {
      StaysStarted(t, step, t', c);
    }
    ContributionsStay(t, step, t');
    OtherRowsStay(t, step, t');
  }

  lemma {:induction false} ContributionsStay(t: Tables, step: Step, t': Tables)
    requires Recorded(t) && Does(t, step, t') && RowsMove(t, step, t')
    requires forall c :: Started(t.circles, c) ==> Started(t'.circles, c) && FixedTerms(t.circles[c], t'.circles[c])
    ensures forall i :: 0 <= i < |t'.contributions| ==> GoodContribution(t', t'.contributions[i])
  {
    hide Platform.Attempt, Enabled, GoodTimetable, Repay, Pot, HasPayout, HasContributed, LatePenalty, SamePayouts;
    forall i | 0 <= i < |t'.contributions| ensures GoodContribution(t', t'.contributions[i]) {
      var row := t'.contributions[i];
      OldSchedule(t, step, t', (row.circle, row.cycle));
      assert i < |t.contributions| ==> GoodContribution(t, row);
    }
  }

  lemma {:induction false} OtherRowsStay(t: Tables, step: Step, t': Tables)
    requires Recorded(t) && Does(t, step, t') && RowsMove(t, step, t')
    requires forall c :: Started(t.circles, c) ==> Started(t'.circles, c)
    ensures forall i :: 0 <= i < |t'.payouts| ==> Started(t'.circles, t'.payouts[i].circle)
    ensures forall i :: 0 <= i < |t'.loans| ==> Started(t'.circles, t'.loans[i].circle)
  {
    hide Platform.Attempt, Enabled, GoodContribution, Pot, HasPayout, FreshRow, Started;
    if step.Borrow? {
      Lends(t, step, t');
    } else if step.Payout? {
      assert GoodSchedule(t, (step.circle, step.cycle)) by {
        hide GoodSchedule;
      }
    }
  }

  lemma {:induction false} Lends(t: Tables, step: Step, t': Tables)
    requires step.Borrow? && Does(t, step, t')
    ensures |t'.loans| == |t.loans| + 1 && t'.loans[|t.loans|].circle == step.circle && Started(t.circles, step.circle)
  {
    hide Pay, HasActive, HasTaken;
  }

  // ----- Timetables ------------------------------------------------------------------------------------------

  lemma {:induction false} NewSchedule(t: Tables, a: Activation, i: nat)
    requires Ready(t, a) && a.circle in t.circles && 1 <= i <= |a.listing|
    ensures var s := Activated(t, a).schedules;
      && (a.circle, i) in s && s[(a.circle, i)].recipient.Some?
      && s[(a.circle, i)].deadline == C.Instant(C.Deadline(a.first, t.circles[a.circle].frequency, i - 1), a.timeOfDay)
      && s[(a.circle, i)].payoutDate == s[(a.circle, i)].deadline + C.DayMs
  {
    hide Order, Rows, Scheduled, Positioned, C.Deadline, C.Instant, C.Valid, Sorter.Distinct;
    ActivationCycle(t, a, i);
  }

  lemma {:induction false} TimetableStays(t: Tables, step: Step, t': Tables)
    requires Recorded(t) && Does(t, step, t') && !step.Activate?
    ensures GoodTimetable(t')
  {
    hide Platform.Attempt, Enabled, GoodRows, MembersMove, CircleMoves, GoodSchedule, Before, GoodContribution;
    StepFrame(t, step, t');
    forall k | k in t'.schedules ensures k in t.schedules && SameSchedule(t.schedules[k], t'.schedules[k]) {
    }
    forall k | k in t'.schedules ensures GoodSchedule(t', k) {
      assert GoodSchedule(t, k);
      ScheduleStays(t, step, t', k);
    }
    hide GoodSchedule, CirclesMove;
    forall c: nat, i: int, j: int | i < j && (c, i) in t'.schedules && (c, j) in t'.schedules
      ensures Before(t', c, i, j)
    {
      assert Before(t, c, i, j);
      OrderStays(t, t', c, i, j);
    }
  }

  lemma {:induction false} ScheduleStays(t: Tables, step: Step, t': Tables, k: (nat, int))
    requires CirclesMove(t, step, t') && k in t.schedules && GoodSchedule(t, k)
    requires k in t'.schedules && SameSchedule(t.schedules[k], t'.schedules[k])
    ensures GoodSchedule(t', k)
  {
    StaysStarted(t, step, t', k.0);
  }

  lemma {:induction false} OrderStays(t: Tables, t': Tables, c: nat, i: int, j: int)
    requires (c, i) in t.schedules && (c, j) in t.schedules && Before(t, c, i, j)
    requires (c, i) in t'.schedules && SameSchedule(t.schedules[(c, i)], t'.schedules[(c, i)])
    requires (c, j) in t'.schedules && SameSchedule(t.schedules[(c, j)], t'.schedules[(c, j)])
    ensures Before(t', c, i, j)
  {
  }

  lemma {:induction false} TimetableMade(t: Tables, a: Activation, step: Step)
    requires Recorded(t) && Ready(t, a) && a.circle in t.circles && t.circles[a.circle].status.Draft?
    requires step == Step.Activate(a) && CirclesMove(t, step, Activated(t, a))
    requires SchedulesMove(t, step, Activated(t, a))
    ensures GoodTimetable(Activated(t, a))
  {
    hide Activated, GoodRows, C.Deadline, C.Instant, C.Valid, CircleMoves, GoodSchedule, Sorter.Distinct, Sorter.Draws;
    var t' := Activated(t, a);
    forall k | k in t'.schedules ensures GoodSchedule(t', k) {
      MadeSchedule(t, a, step, k);
    }
    hide GoodSchedule, CirclesMove;
    forall c: nat, i: int, j: int | i < j && (c, i) in t'.schedules && (c, j) in t'.schedules
      ensures Before(t', c, i, j)
    {
      MadeOrder(t, a, step, c, i, j);
    }
  }

  lemma {:induction false} MadeSchedule(t: Tables, a: Activation, step: Step, k: (nat, int))
    requires Recorded(t) && Ready(t, a) && a.circle in t.circles && t.circles[a.circle].status.Draft?
    requires step == Step.Activate(a) && CirclesMove(t, step, Activated(t, a))
    requires SchedulesMove(t, step, Activated(t, a))
    requires k in Activated(t, a).schedules
    ensures GoodSchedule(Activated(t, a), k)
  {
    hide GoodRows, C.Deadline, C.Instant, C.Valid, Order, Positioned, Scheduled, Sorter.Distinct, Sorter.Draws;
    var t' := Activated(t, a);
    if k in t.schedules {
      NothingScheduled(t, step, k);
      assert GoodSchedule(t, k);
      ScheduleStays(t, step, t', k);
    } else {
      NewSchedule(t, a, k.1);
    }
  }

  lemma {:induction false} MadeOrder(t: Tables, a: Activation, step: Step, c: nat, i: int, j: int)
    requires Recorded(t) && Ready(t, a) && a.circle in t.circles && t.circles[a.circle].status.Draft?
    requires step == Step.Activate(a) && SchedulesMove(t, step, Activated(t, a))
    requires i < j && (c, i) in Activated(t, a).schedules && (c, j) in Activated(t, a).schedules
    ensures Before(Activated(t, a), c, i, j)
  {
    hide Activated, GoodRows, C.Deadline, C.Instant, Sorter.Distinct, Sorter.Draws;
    var t' := Activated(t, a);
    ScheduledStarted(t);
    if c == a.circle {
      NewSchedule(t, a, i);
      NewSchedule(t, a, j);
      C.PayoutBeforeLaterDeadlines(a.first, t.circles[c].frequency, a.timeOfDay, i - 1, j - 1);
    } else {
      assert Before(t, c, i, j);
      OrderStays(t, t', c, i, j);
    }
  }

  lemma {:induction false} ScheduledStarted(t: Tables)
    requires GoodTimetable(t)
    ensures forall k :: k in t.schedules ==> Started(t.circles, k.0)
  {
    hide Started, Before;
  }

  /** Every step keeps the records in order. */
  lemma {:induction false} StepRecords(t: Tables, step: Step, t': Tables)
    requires Recorded(t) && Does(t, step, t')
    ensures Recorded(t')
  {
    hide Platform.Attempt, Enabled, GoodRows, GoodTimetable, Ready, Activated, CirclesMove, SchedulesMove, MembersMove;
    RowsStay(t, step, t');
    if step.Activate? {
      ActivatesDraft(t, step, t');
      StepFrame(t, step, t');
      TimetableMade(t, step.a, step);
    } else {
      TimetableStays(t, step, t');
    }
  }

  lemma {:induction false} RunRecords(w: World, steps: seq<Step>)
    requires Recorded(w.tables)
    ensures Recorded(Platform.Run(w, steps).tables)
    decreases |steps|
  {
    hide Platform.Attempt, Enabled, Track, Recorded;
    if |steps| > 0 {
      if Accepted(w.tables, steps[0]) {
        StepRecords(w.tables, steps[0], Platform.Attempt(w.tables, steps[0]).value);
      }
      RunRecords(Platform.Apply(w, steps[0]), steps[1..]);
    }
  }

  lemma {:induction false} ReachedRecords(steps: seq<Step>)
    ensures Recorded(Reached(steps).tables)
  {
    hide Platform.Run;
    RunRecords(Genesis(), steps);
  }

  // ----- What earlier tables say -----------------------------------------------------------------------------

  lemma {:induction false} StillEarlier(seen: Tables, w: World, step: Step, circle: nat, user: nat)
    requires Earlier(seen, w.tables, circle, user)
    ensures Earlier(seen, Platform.Apply(w, step).tables, circle, user)
  {
    hide Platform.Attempt, Enabled, Track, SchedulesMove;
    if Accepted(w.tables, step) {
      StepFrame(w.tables, step, Platform.Attempt(w.tables, step).value);
    }
  }

  lemma {:induction false} RunEarlier(seen: Tables, w: World, steps: seq<Step>, circle: nat, user: nat)
    requires Earlier(seen, w.tables, circle, user)
    ensures Earlier(seen, Platform.Run(w, steps).tables, circle, user)
    decreases |steps|
  {
    hide Platform.Apply, Earlier;
    if |steps| > 0 {
      StillEarlier(seen, w, steps[0], circle, user);
      RunEarlier(seen, Platform.Apply(w, steps[0]), steps[1..], circle, user);
    }
  }

  /** The credit service reads the circle first and the membership next. Whatever a run has been through between and
      after the two reads, what they saw is a sight the platform allows. */
  lemma {:induction false} EverySightAllowed(w: World, between: seq<Step>, after: seq<Step>, circle: nat, user: nat)
    ensures var w1 := Platform.Run(w, between);
      Earlier(w.tables.(members := w1.tables.members), Platform.Run(w1, after).tables, circle, user)
  {
    hide Platform.Run;
    var w1 := Platform.Run(w, between);
    RunEarlier(w.tables, w, between, circle, user);
    RunEarlier(w.tables.(members := w1.tables.members), w1, after, circle, user);
  }

  // ----- Completed for ever ----------------------------------------------------------------------------------

  predicate IsOver(cs: map<nat, CircleRow>, c: nat) {
    c in cs && cs[c].status.Completed?
  }

  lemma {:induction false} StepKeepsCircle(w: World, step: Step, c: nat)
    ensures IsOver(w.tables.circles, c) ==> IsOver(Platform.Apply(w, step).tables.circles, c)
    ensures c in w.tables.circles ==> c in Platform.Apply(w, step).tables.circles
  {
    hide Platform.Attempt, Enabled, Track, SchedulesMove, MembersMove;
    if Accepted(w.tables, step) {
      StepFrame(w.tables, step, Platform.Attempt(w.tables, step).value);
    }
  }

  lemma {:induction false} StaysCompleted(w: World, steps: seq<Step>, c: nat)
    requires IsOver(w.tables.circles, c)
    ensures IsOver(Platform.Run(w, steps).tables.circles, c)
    decreases |steps|
  {
    hide Platform.Apply, IsOver;
    if |steps| > 0 {
      StepKeepsCircle(w, steps[0], c);
      StaysCompleted(Platform.Apply(w, steps[0]), steps[1..], c);
    }
  }
}
