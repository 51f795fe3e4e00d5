/** The trust index: counters kept per user, and the score computed from them. */
module Trust {
  import Credit

  datatype Event =
    | Contribution(onTime: bool, isPostPayout: bool)
    | MissedPayment(isPostPayout: bool)
    | PostPayoutDefault
    | PeerRating(rating: int)
    | CycleReset

  datatype Stats = Stats(
    onTime: nat, late: nat, missed: nat, defaults: nat, expected: nat, consecutiveLate: nat,
    cycleOnTime: nat, cycleExpected: nat, postPayoutOnTime: nat, postPayoutExpected: nat,
    averageRating: real, ratings: nat, score: int)

  /** A new user's row, before any event. */
  const NEW_USER: Stats := Stats(0, 0, 0, 0, 0, 0, 0, 0, 0, 0, 0.0, 0, 50)

  // ----- The index -----------------------------------------------------------------------------------------

  /** A percentage, or the neutral value while there is nothing to divide by. */
  function Rate(part: int, whole: int, neutral: real): real {
    if whole > 0 then part as real / whole as real * 100.0 else neutral
  }

  /** Late payments weigh a half, missed ones one and a half, defaults three. */
  function Penalties(s: Stats): real {
    s.late as real * 0.5 + s.missed as real * 1.5 + s.defaults as real * 3.0
  }

  function RecentBehavior(s: Stats): real {
    Rate(s.cycleOnTime, s.cycleExpected, 50.0)
  }

  function HistoryBehavior(s: Stats): real {
    if s.expected > 0 then
      var share := (s.onTime as real - Penalties(s)) / s.expected as real * 100.0;
      if share < 0.0 then 0.0 else share
    else 50.0
  }

  function PayoutReliability(s: Stats): real {
    Rate(s.postPayoutOnTime, s.postPayoutExpected, 70.0)
  }

  function PeerScore(s: Stats): real {
    if s.ratings > 0 then s.averageRating / 5.0 * 100.0 else 50.0
  }

  function HistoryLength(months: int): real {
    var length := months as real * 8.3;
    if length > 100.0 then 100.0 else length
  }

  function Weighted(recent: real, history: real, payout: real, peer: real, length: real): real {
    recent * 0.3 + history * 0.25 + payout * 0.2 + peer * 0.15 + length * 0.1
  }

  /** Rounded half up, and never above 95. */
  function Index(s: Stats, months: int): int {
    var ati := Credit.Round(Weighted(RecentBehavior(s), HistoryBehavior(s), PayoutReliability(s), PeerScore(s),
      HistoryLength(months)));
    if ati > 95 then 95 else ati
  }

  function DisplayScore(score: int): int {
    300 + Credit.Round(score as real * 5.5)
  }

  // ----- Events --------------------------------------------------------------------------------------------

  function Counted(s: Stats, e: Event): Stats {
    match e
    case Contribution(onTime, isPostPayout) =>
      var paid := if onTime then
          s.(expected := s.expected + 1, cycleExpected := s.cycleExpected + 1,
             onTime := s.onTime + 1, cycleOnTime := s.cycleOnTime + 1, consecutiveLate := 0)
        else
          s.(expected := s.expected + 1, cycleExpected := s.cycleExpected + 1,
             late := s.late + 1, consecutiveLate := s.consecutiveLate + 1);
      if isPostPayout then
        paid.(postPayoutExpected := paid.postPayoutExpected + 1,
              postPayoutOnTime := paid.postPayoutOnTime + if onTime then 1 else 0)
      else paid
    case MissedPayment(isPostPayout) =>
      s.(expected := s.expected + 1, missed := s.missed + 1, cycleExpected := s.cycleExpected + 1,
         consecutiveLate := s.consecutiveLate + 1,
         postPayoutExpected := s.postPayoutExpected + if isPostPayout then 1 else 0)
    case PostPayoutDefault =>
      s.(expected := s.expected + 1, missed := s.missed + 1, defaults := s.defaults + 1,
         cycleExpected := s.cycleExpected + 1, postPayoutExpected := s.postPayoutExpected + 1,
         consecutiveLate := s.consecutiveLate + 1)
    case PeerRating(rating) =>
      s.(ratings := s.ratings + 1,
         averageRating := (s.averageRating * s.ratings as real + rating as real) / (s.ratings + 1) as real)
    case CycleReset => s.(cycleOnTime := 0, cycleExpected := 0)
  }

  function Updated(s: Stats, e: Event, months: int): Stats {
    var counted := Counted(s, e);
    counted.(score := Index(counted, months))
  }

  /** The trust table after one event: a user's row starts from a new user's. */
  function Recorded(stats: map<nat, Stats>, user: nat, e: Event, months: int): map<nat, Stats> {
    stats[user := Updated(if user in stats then stats[user] else NEW_USER, e, months)]
  }

  method CountEvent(current: Stats, event: Event) returns (data: Stats)
    ensures data == Counted(current, event)
  {
    data := current;
    match event
    case Contribution(onTime, isPostPayout) =>
      data := data.(expected := data.expected + 1, cycleExpected := data.cycleExpected + 1);
      if onTime {
        data := data.(onTime := data.onTime + 1, cycleOnTime := data.cycleOnTime + 1, consecutiveLate := 0);
      } else {
        data := data.(late := data.late + 1, consecutiveLate := data.consecutiveLate + 1);
      }
      if isPostPayout {
        data := data.(postPayoutExpected := data.postPayoutExpected + 1);
        if onTime {
          data := data.(postPayoutOnTime := data.postPayoutOnTime + 1);
        }
      }
    case MissedPayment(isPostPayout) =>
      data := data.(expected := data.expected + 1, missed := data.missed + 1,
                    cycleExpected := data.cycleExpected + 1, consecutiveLate := data.consecutiveLate + 1);
      if isPostPayout {
        data := data.(postPayoutExpected := data.postPayoutExpected + 1);
      }
    case PostPayoutDefault =>
      data := data.(expected := data.expected + 1, missed := data.missed + 1, defaults := data.defaults + 1,
                    cycleExpected := data.cycleExpected + 1, postPayoutExpected := data.postPayoutExpected + 1,
                    consecutiveLate := data.consecutiveLate + 1);
    case PeerRating(rating) =>
      var newTotal := data.ratings + 1;
      var newAvg := (data.averageRating * data.ratings as real + rating as real) / newTotal as real;
      data := data.(ratings := newTotal, averageRating := newAvg);
    case CycleReset =>
      data := data.(cycleOnTime := 0, cycleExpected := 0);
  }

  /** The rows of the trust table, and the two writes an event makes in one transaction. */
  class TrustService {
    var stats: map<nat, Stats>

    constructor ()
      ensures stats == map[]
    {
      stats := map[];
    }

    method UpdateTrustScore(user: nat, event: Event, months: int)
      modifies this
      ensures stats == Recorded(old(stats), user, event, months)
    {
      hide Index;
      if user !in stats {
        stats := stats[user := NEW_USER];
      }
      var data := stats[user];
      data := CountEvent(data, event);
      assert data == Counted(if user in old(stats) then old(stats)[user] else NEW_USER, event);
      stats := stats[user := data];
      stats := stats[user := data.(score := Index(data, months))];
      assert stats == old(stats)[user := data.(score := Index(data, months))];
    }
  }

  // ----- Whole histories -----------------------------------------------------------------------------------

  /** One user's row after a history of events. */
  function After(events: seq<(Event, int)>): Stats {
    if |events| == 0 then NEW_USER
    else Updated(After(events[..|events| - 1]), events[|events| - 1].0, events[|events| - 1].1)
  }

  function Count(events: seq<(Event, int)>, p: Event -> bool): nat {
    if |events| == 0 then 0 else Count(events[..|events| - 1], p) + if p(events[|events| - 1].0) then 1 else 0
  }

  /** The events since the latest cycle reset. */
  function ThisCycle(events: seq<(Event, int)>): (recent: seq<(Event, int)>) {
    if |events| == 0 || events[|events| - 1].0.CycleReset? then []
    else ThisCycle(events[..|events| - 1]) + [events[|events| - 1]]
  }

  function RatingSum(events: seq<(Event, int)>): int {
    if |events| == 0 then 0
    else RatingSum(events[..|events| - 1]) + Rating(events[|events| - 1].0)
  }

  predicate PaidOnTime(e: Event) { e.Contribution? && e.onTime }

  predicate PaidLate(e: Event) { e.Contribution? && !e.onTime }

  predicate NotPaid(e: Event) { e.MissedPayment? || e.PostPayoutDefault? }

  predicate Due(e: Event) { e.Contribution? || NotPaid(e) }

  predicate PostPayout(e: Event) {
    e.PostPayoutDefault? || ((e.Contribution? || e.MissedPayment?) && e.isPostPayout)
  }

  predicate Rated(e: Event) { e.PeerRating? }

  predicate Defaulted(e: Event) { e.PostPayoutDefault? }

  predicate GoodRatings(events: seq<(Event, int)>) {
    forall i :: 0 <= i < |events| && events[i].0.PeerRating? ==> 1 <= events[i].0.rating <= 5
  }

  predicate PaidAfterPayout(e: Event) { PaidOnTime(e) && PostPayout(e) }

  function One(b: bool): nat {
    if b then 1 else 0
  }

  function Rating(e: Event): int {
    if e.PeerRating? then e.rating else 0
  }

  /** Payments in a row, up to now, that were late or missed: one on time ends the streak. */
  function Streak(events: seq<(Event, int)>): nat {
    if |events| == 0 then 0
    else Follows(Streak(events[..|events| - 1]), events[|events| - 1].0)
  }

  function Follows(streak: nat, e: Event): nat {
    if PaidOnTime(e) then 0 else if PaidLate(e) || NotPaid(e) then streak + 1 else streak
  }

  /** What one event adds to each counter. */
  lemma {:induction false} OneEvent(s: Stats, e: Event, months: int)
    ensures var t := Updated(s, e, months);
      && t.onTime == s.onTime + One(PaidOnTime(e)) && t.late == s.late + One(PaidLate(e))
      && t.missed == s.missed + One(NotPaid(e)) && t.defaults == s.defaults + One(Defaulted(e))
      && t.expected == s.expected + One(Due(e)) && t.ratings == s.ratings + One(Rated(e))
      && t.postPayoutExpected == s.postPayoutExpected + One(PostPayout(e))
      && t.postPayoutOnTime == s.postPayoutOnTime + One(PaidAfterPayout(e))
      && t.consecutiveLate == Follows(s.consecutiveLate, e)
      && t.cycleOnTime == (if e.CycleReset? then 0 else s.cycleOnTime + One(PaidOnTime(e)))
      && t.cycleExpected == (if e.CycleReset? then 0 else s.cycleExpected + One(Due(e)))
      && t.averageRating * t.ratings as real == s.averageRating * s.ratings as real + Rating(e) as real
  {
    hide Index;
  }

  lemma {:induction false} CountSnoc(events: seq<(Event, int)>, last: (Event, int), p: Event -> bool)
    ensures Count(events + [last], p) == Count(events, p) + One(p(last.0))
  {
    assert (events + [last])[..|events|] == events;
  }

  /** Every counter is the number of events it stands for, in the whole history or in the current cycle. */
  lemma {:induction false} CountersCount(events: seq<(Event, int)>)
    ensures var s := After(events);
      && s.onTime == Count(events, PaidOnTime) && s.late == Count(events, PaidLate)
      && s.missed == Count(events, NotPaid) && s.defaults == Count(events, Defaulted)
      && s.expected == Count(events, Due) && s.ratings == Count(events, Rated)
      && s.postPayoutExpected == Count(events, PostPayout)
      && s.postPayoutOnTime == Count(events, PaidAfterPayout)
      && s.consecutiveLate == Streak(events)
    decreases |events|
  {
    hide Updated, PaidOnTime, PaidLate, NotPaid, Due, PostPayout, PaidAfterPayout, Rated, Defaulted, Follows;
    if |events| > 0 {
      CountersCount(events[..|events| - 1]);
      OneEvent(After(events[..|events| - 1]), events[|events| - 1].0, events[|events| - 1].1);
    }
  }

  lemma {:induction false} CycleCountersCount(events: seq<(Event, int)>)
    ensures var s := After(events);
      && s.cycleOnTime == Count(ThisCycle(events), PaidOnTime)
      && s.cycleExpected == Count(ThisCycle(events), Due)
    decreases |events|
  {
    hide Updated, PaidOnTime, Due;
    if |events| > 0 {
      var front, last := events[..|events| - 1], events[|events| - 1];
      CycleCountersCount(front);
      OneEvent(After(front), last.0, last.1);
      CountSnoc(ThisCycle(front), last, PaidOnTime);
      CountSnoc(ThisCycle(front), last, Due);
    }
  }

  /** The running average never drifts from the sum of the ratings. */
  lemma {:induction false} AverageIsSumOverCount(events: seq<(Event, int)>)
    ensures After(events).averageRating * After(events).ratings as real == RatingSum(events) as real
    decreases |events|
  {
    hide Updated;
    if |events| > 0 {
      AverageIsSumOverCount(events[..|events| - 1]);
      OneEvent(After(events[..|events| - 1]), events[|events| - 1].0, events[|events| - 1].1);
    }
  }

  lemma {:induction false} CountBounds(events: seq<(Event, int)>, p: Event -> bool, q: Event -> bool)
    requires forall e :: p(e) ==> q(e)
    ensures Count(events, p) <= Count(events, q)
    decreases |events|
  {
    if |events| > 0 {
      CountBounds(events[..|events| - 1], p, q);
    }
  }

  lemma {:induction false} DueSplits(events: seq<(Event, int)>)
    ensures Count(events, PaidOnTime) + Count(events, PaidLate) + Count(events, NotPaid) == Count(events, Due)
    decreases |events|
  {
    if |events| > 0 {
      DueSplits(events[..|events| - 1]);
    }
  }

  lemma {:induction false} RatingSumBounds(events: seq<(Event, int)>)
    requires GoodRatings(events)
    ensures Count(events, Rated) <= RatingSum(events) <= 5 * Count(events, Rated)
    decreases |events|
  {
    if |events| > 0 {
      RatingSumBounds(events[..|events| - 1]);
      assert events[|events| - 1].0.PeerRating? ==> 1 <= events[|events| - 1].0.rating <= 5;
    }
  }

  /** The relations between the counters that the index relies on. */
  predicate Coherent(s: Stats) {
    && s.onTime + s.late + s.missed == s.expected
    && s.defaults <= s.missed
    && s.cycleOnTime <= s.cycleExpected
    && s.postPayoutOnTime <= s.postPayoutExpected
    && (s.ratings > 0 ==> 1.0 <= s.averageRating <= 5.0)
  }

  lemma {:induction false} AverageBounds(average: real, count: int, sum: int)
    requires count > 0 && count <= sum <= 5 * count && average * count as real == sum as real
    ensures 1.0 <= average <= 5.0
  {
    assert average == sum as real / count as real;
  }

  /** Whatever happened to a user whose ratings were 1 to 5, the counters fit together. */
  lemma {:induction false} AlwaysCoherent(events: seq<(Event, int)>)
    requires GoodRatings(events)
    ensures Coherent(After(events))
  {
    hide Count, After, RatingSum;
    CountersCount(events);
    CycleCountersCount(events);
    AverageIsSumOverCount(events);
    DueSplits(events);
    CountBounds(events, Defaulted, NotPaid);
    CountBounds(ThisCycle(events), PaidOnTime, Due);
    CountBounds(events, PaidAfterPayout, PostPayout);
    RatingSumBounds(events);
    var s := After(events);
    if s.ratings > 0 {
      AverageBounds(s.averageRating, s.ratings, RatingSum(events));
    }
  }

  // ----- Bounds and monotonicity -----------------------------------------------------------------------------

  lemma {:induction false} RateBounds(part: int, whole: int, neutral: real)
    requires 0 <= part <= whole && 0.0 <= neutral <= 100.0
    ensures 0.0 <= Rate(part, whole, neutral) <= 100.0
  {
    if whole > 0 {
      AtMostOne(part as real, whole as real);
    }
  }

  lemma {:induction false} AtMostOne(part: real, whole: real)
    requires part <= whole && whole > 0.0
    ensures part / whole <= 1.0
  {
    var quotient := part / whole;
    assert quotient * whole == part;
    assert quotient > 1.0 ==> (quotient - 1.0) * whole > 0.0;
  }

  lemma {:induction false} HistoryBounds(s: Stats)
    requires Coherent(s)
    ensures 0.0 <= HistoryBehavior(s) <= 100.0
  {
    if s.expected > 0 {
      assert s.onTime as real - Penalties(s) <= s.expected as real;
      AtMostOne(s.onTime as real - Penalties(s), s.expected as real);
    }
  }

  /** The stored index of a coherent row lies between 0 and 95, whatever the account's age. */
  lemma {:induction false} IndexBounds(s: Stats, months: int)
    requires Coherent(s) && months >= 0
    ensures 0 <= Index(s, months) <= 95
  {
    RateBounds(s.cycleOnTime, s.cycleExpected, 50.0);
    RateBounds(s.postPayoutOnTime, s.postPayoutExpected, 70.0);
    HistoryBounds(s);
    hide Rate, HistoryBehavior;
  }

  lemma {:induction false} FractionRises(part: int, whole: int, neutral: real)
    requires 0 <= part <= whole && 0.0 <= neutral <= 100.0
    ensures Rate(part, whole, neutral) <= Rate(part + 1, whole + 1, neutral)
    ensures Rate(part, whole + 1, neutral) <= Rate(part, whole, neutral)
  {
    var w := whole as real;
    var p := part as real;
    if whole > 0 {
      assert p / w <= (p + 1.0) / (w + 1.0) by {
        assert p * (w + 1.0) <= (p + 1.0) * w;
        Cross(p, w, p + 1.0, w + 1.0);
      }
      assert p / (w + 1.0) <= p / w by {
        assert p * w <= p * (w + 1.0);
        Cross(p, w + 1.0, p, w);
      }
    }
  }

  lemma {:induction false} Cross(a: real, b: real, c: real, d: real)
    requires b > 0.0 && d > 0.0 && a * d <= c * b
    ensures a / b <= c / d
  {
    var x, y := a / b, c / d;
    assert a == x * b && c == y * d;
    assert x * b * d <= y * d * b;
    assert (y - x) * (b * d) >= 0.0;
    assert y < x ==> (x - y) * (b * d) > 0.0;
  }

  /** The history share with a net credit of x over n payments. */
  function Share(x: real, n: int): real
    requires n > 0
  {
    var share := x / n as real * 100.0;
    if share < 0.0 then 0.0 else share
  }

  lemma {:induction false} ShareRises(x: real, n: int, y: real)
    requires n > 0 && x <= n as real && y <= 0.0
    ensures Share(x, n) <= Share(x + 1.0, n + 1)
    ensures Share(x + y, n + 1) <= Share(x, n)
  {
    var m := n as real;
    Cross(x, m, x + 1.0, m + 1.0);
    if x >= 0.0 {
      assert (x + y) * m <= x * (m + 1.0);
      Cross(x + y, m + 1.0, x, m);
    } else {
      assert (x + y) / (m + 1.0) <= 0.0;
    }
  }

  lemma {:induction false} ShareFalls(x: real, y: real, n: int)
    requires n > 0 && x <= y
    ensures Share(x, n) <= Share(y, n)
  {
    assert x / n as real <= y / n as real;
  }

  lemma {:induction false} IndexMonotone(s: Stats, t: Stats, months: int)
    requires RecentBehavior(s) <= RecentBehavior(t) && HistoryBehavior(s) <= HistoryBehavior(t)
    requires PayoutReliability(s) <= PayoutReliability(t) && PeerScore(s) == PeerScore(t)
    ensures Index(s, months) <= Index(t, months)
  {
    hide RecentBehavior, HistoryBehavior, PayoutReliability, PeerScore, HistoryLength;
  }

  lemma {:induction false} OnTimeNeverHurts(s: Stats, postPayout: bool, months: int)
    requires Coherent(s)
    ensures Index(s, months) <= Index(Counted(s, Contribution(true, postPayout)), months)
  {
    hide Index, Share, Rate;
    var t := Counted(s, Contribution(true, postPayout));
    FractionRises(s.cycleOnTime, s.cycleExpected, 50.0);
    FractionRises(s.postPayoutOnTime, s.postPayoutExpected, 70.0);
    HistoryIsShare(s);
    HistoryIsShare(t);
    var x := s.onTime as real - Penalties(s);
    assert t.onTime as real - Penalties(t) == x + 1.0;
    if s.expected > 0 {
      ShareRises(x, s.expected, 0.0);
    } else {
      FullShare(x + 1.0);
    }
    hide HistoryBehavior, Penalties;
    IndexMonotone(s, t, months);
  }

  lemma {:induction false} FullShare(x: real)
    requires x == 1.0
    ensures Share(x, 1) == 100.0
  {
  }

  lemma {:induction false} HistoryIsShare(s: Stats)
    ensures s.expected > 0 ==> HistoryBehavior(s) == Share(s.onTime as real - Penalties(s), s.expected)
    ensures s.expected <= 0 ==> HistoryBehavior(s) == 50.0
  {
  }

  lemma {:induction false} EmptyShare(x: real)
    requires x <= 0.0
    ensures Share(x, 1) == 0.0
  {
  }

  lemma {:induction false} LateNeverHelps(s: Stats, postPayout: bool, months: int)
    requires Coherent(s)
    ensures Index(Counted(s, Contribution(false, postPayout)), months) <= Index(s, months)
  {
    hide Index, Share, Rate;
    var t := Counted(s, Contribution(false, postPayout));
    FractionRises(s.cycleOnTime, s.cycleExpected, 50.0);
    FractionRises(s.postPayoutOnTime, s.postPayoutExpected, 70.0);
    HistoryIsShare(s);
    HistoryIsShare(t);
    var x := s.onTime as real - Penalties(s);
    assert t.onTime as real - Penalties(t) == x - 0.5;
    if s.expected > 0 {
      ShareRises(x, s.expected, -0.5);
    } else {
      EmptyShare(x - 0.5);
    }
    hide HistoryBehavior, Penalties;
    IndexMonotone(t, s, months);
  }

  lemma {:induction false} MissedIsWorseThanLate(s: Stats, postPayout: bool, months: int)
    requires Coherent(s)
    ensures Index(Counted(s, MissedPayment(postPayout)), months) <=
      Index(Counted(s, Contribution(false, postPayout)), months)
  {
    hide Index, Share, Rate;
    var t, u := Counted(s, MissedPayment(postPayout)), Counted(s, Contribution(false, postPayout));
    HistoryIsShare(t);
    HistoryIsShare(u);
    ShareFalls(t.onTime as real - Penalties(t), u.onTime as real - Penalties(u), t.expected);
    hide HistoryBehavior, Penalties;
    IndexMonotone(t, u, months);
  }

  lemma {:induction false} DefaultIsWorseThanMissed(s: Stats, postPayout: bool, months: int)
    requires Coherent(s)
    ensures Index(Counted(s, PostPayoutDefault), months) <= Index(Counted(s, MissedPayment(postPayout)), months)
  {
    hide Index, Share, Rate;
    var t, u := Counted(s, PostPayoutDefault), Counted(s, MissedPayment(postPayout));
    HistoryIsShare(t);
    HistoryIsShare(u);
    ShareFalls(t.onTime as real - Penalties(t), u.onTime as real - Penalties(u), t.expected);
    FractionRises(s.postPayoutOnTime, s.postPayoutExpected, 70.0);
    hide HistoryBehavior, Penalties;
    IndexMonotone(t, u, months);
  }

  /** At any fixed age of the account and after any history with ratings of 1 to 5: paying on time never
      lowers the index, paying late never raises it, missing a payment is never better than paying it
      late, and a post-payout default is never better than a miss. The stored score stays in 0..95. */
  lemma {:induction false} BetterConductNeverScoresLower(events: seq<(Event, int)>, postPayout: bool, months: int)
    requires GoodRatings(events) && months >= 0
    ensures var s := After(events);
      && Updated(s, PostPayoutDefault, months).score <= Updated(s, MissedPayment(postPayout), months).score
           <= Updated(s, Contribution(false, postPayout), months).score
           <= Index(s, months)
           <= Updated(s, Contribution(true, postPayout), months).score
      && 0 <= Updated(s, PostPayoutDefault, months).score
      && Updated(s, Contribution(true, postPayout), months).score <= 95
  {
    hide Index, After, Coherent;
    AlwaysCoherent(events);
    var s := After(events);
    OnTimeNeverHurts(s, postPayout, months);
    LateNeverHelps(s, postPayout, months);
    MissedIsWorseThanLate(s, postPayout, months);
    DefaultIsWorseThanMissed(s, postPayout, months);
    StaysCoherent(s, PostPayoutDefault);
    StaysCoherent(s, Contribution(true, postPayout));
    IndexBounds(Counted(s, PostPayoutDefault), months);
    IndexBounds(Counted(s, Contribution(true, postPayout)), months);
  }

  lemma {:induction false} StaysCoherent(s: Stats, e: Event)
    requires Coherent(s) && !e.PeerRating?
    ensures Coherent(Counted(s, e))
  {
  }

  /** So what is stored, and shown as 300 to 850, is always in range. */
  lemma {:induction false} StoredScoreInRange(events: seq<(Event, int)>)
    requires GoodRatings(events) && forall i :: 0 <= i < |events| ==> events[i].1 >= 0
    ensures 0 <= After(events).score <= 95
    ensures 300 <= DisplayScore(After(events).score) <= 850
  {
    if |events| > 0 {
      AlwaysCoherent(events);
      var front, last := events[..|events| - 1], events[|events| - 1];
      var counted := Counted(After(front), last.0);
      assert Coherent(counted);
      IndexBounds(counted, last.1);
    }
    hide Index, Coherent, GoodRatings;
  }

  // ----- The index in numbers --------------------------------------------------------------------------------

  /** The rate is the one number that makes so many times it the total, or neutral while there is nothing to count. */
  predicate Per(rate: real, total: int, count: int, neutral: real) {
    if count > 0 then rate * count as real == total as real else rate == neutral
  }

  /** The index from its parts: 30% of this cycle's punctuality, 25% of the whole history's, 20% of the payments made
      after a payout, 15% of the ratings and 10% of the account's age, to the nearest whole point with halves going
      up, and 95 at most. Each part is the one number given for it. */
  lemma {:induction false} IndexExactly(s: Stats, months: int, recent: real, history: real, payout: real, peer: real,
      age: real)
    requires Per(recent, 100 * s.cycleOnTime, s.cycleExpected, 50.0)
    requires Per(history, NotBelowZero(100 * s.onTime - 50 * s.late - 150 * s.missed - 300 * s.defaults), s.expected,
      50.0)
    requires Per(payout, 100 * s.postPayoutOnTime, s.postPayoutExpected, 70.0)
    requires if s.ratings > 0 then peer == 20.0 * s.averageRating else peer == 50.0
    requires age == if 83 * months > 1000 then 100.0 else (83 * months) as real / 10.0
    ensures var twentieths := 6.0 * recent + 5.0 * history + 4.0 * payout + 3.0 * peer + 2.0 * age;
      if twentieths >= 1890.0 then Index(s, months) == 95
      else 20.0 * Index(s, months) as real <= twentieths + 10.0 < 20.0 * (Index(s, months) + 1) as real
  {
    hide Index, HistoryBehavior, Rate, Per;
    RateIs(s.cycleOnTime, s.cycleExpected, 50.0, recent);
    RateIs(s.postPayoutOnTime, s.postPayoutExpected, 70.0, payout);
    HistoryIs(s, history);
    PartsAre(s, months, peer, age);
    hide PeerScore, HistoryLength;
    WeightedIs(s, months);
  }

  lemma {:induction false} PartsAre(s: Stats, months: int, peer: real, age: real)
    requires if s.ratings > 0 then peer == 20.0 * s.averageRating else peer == 50.0
    requires age == if 83 * months > 1000 then 100.0 else (83 * months) as real / 10.0
    ensures PeerScore(s) == peer && HistoryLength(months) == age
  {
  }

  function NotBelowZero(x: int): nat {
    if x < 0 then 0 else x
  }

  lemma {:induction false} RateIs(part: int, whole: int, neutral: real, rate: real)
    requires Per(rate, 100 * part, whole, neutral)
    ensures Rate(part, whole, neutral) == rate
  {
    if whole > 0 {
      Quotient(part as real, whole as real, rate);
    }
  }

  lemma {:induction false} Quotient(part: real, whole: real, rate: real)
    requires whole > 0.0 && rate * whole == 100.0 * part
    ensures part / whole * 100.0 == rate
  {
    assert part / whole * whole == part;
    assert (part / whole * 100.0 - rate) * whole == 0.0;
  }

  lemma {:induction false} HistoryIs(s: Stats, history: real)
    requires Per(history, NotBelowZero(100 * s.onTime - 50 * s.late - 150 * s.missed - 300 * s.defaults), s.expected,
      50.0)
    ensures HistoryBehavior(s) == history
  {
    if s.expected > 0 {
      var points := s.onTime as real - Penalties(s);
      var hundred := 100 * s.onTime - 50 * s.late - 150 * s.missed - 300 * s.defaults;
      assert 100.0 * points == hundred as real;
      hide Penalties;
      ShareIs(points, s.expected as real, hundred as real, history);
    }
  }

  lemma {:induction false} ShareIs(points: real, count: real, hundred: real, history: real)
    requires count > 0.0 && hundred == 100.0 * points
    requires history * count == if hundred < 0.0 then 0.0 else hundred
    ensures history == if points / count * 100.0 < 0.0 then 0.0 else points / count * 100.0
  {
    var share := points / count * 100.0;
    assert share * count == hundred by {
      assert points / count * count == points;
    }
    Signs(share, count, hundred);
    if hundred < 0.0 {
      Signs(history, count, 0.0);
    } else {
      Quotient(points, count, history);
    }
  }

  lemma {:induction false} Signs(x: real, y: real, product: real)
    requires y > 0.0 && x * y == product
    ensures x < 0.0 <==> product < 0.0
    ensures x == 0.0 <==> product == 0.0
  {
    assert x > 0.0 ==> product > 0.0;
    assert x < 0.0 ==> product < 0.0;
  }

  lemma {:induction false} WeightedIs(s: Stats, months: int)
    ensures var twentieths := 6.0 * RecentBehavior(s) + 5.0 * HistoryBehavior(s) + 4.0 * PayoutReliability(s)
      + 3.0 * PeerScore(s) + 2.0 * HistoryLength(months);
      if twentieths >= 1890.0 then Index(s, months) == 95
      else 20.0 * Index(s, months) as real <= twentieths + 10.0 < 20.0 * (Index(s, months) + 1) as real
  {
    hide RecentBehavior, HistoryBehavior, PayoutReliability, PeerScore, HistoryLength;
  }

  /** What is stored after every history, in the events themselves. */
  lemma {:induction false} StoredScoreExactly(events: seq<(Event, int)>, recent: real, history: real, payout: real,
      peer: real, age: real)
    requires |events| > 0
    requires Per(recent, 100 * Count(ThisCycle(events), PaidOnTime), Count(ThisCycle(events), Due), 50.0)
    requires Per(history, NotBelowZero(100 * Count(events, PaidOnTime) - 50 * Count(events, PaidLate)
      - 150 * Count(events, NotPaid) - 300 * Count(events, Defaulted)), Count(events, Due), 50.0)
    requires Per(payout, 100 * Count(events, PaidAfterPayout), Count(events, PostPayout), 70.0)
    requires Per(peer, 20 * RatingSum(events), Count(events, Rated), 50.0)
    requires var months := events[|events| - 1].1;
      age == if 83 * months > 1000 then 100.0 else (83 * months) as real / 10.0
    ensures var twentieths := 6.0 * recent + 5.0 * history + 4.0 * payout + 3.0 * peer + 2.0 * age;
      if twentieths >= 1890.0 then After(events).score == 95
      else 20.0 * After(events).score as real <= twentieths + 10.0 < 20.0 * (After(events).score + 1) as real
  {
    hide Count, ThisCycle, RatingSum, After, Index, PaidOnTime, PaidLate, NotPaid, Due, PostPayout, PaidAfterPayout,
         Rated, Defaulted, Streak, Per;
    var s := After(events);
    CountersCount(events);
    CycleCountersCount(events);
    AverageIsSumOverCount(events);
    PeerIs(peer, s.averageRating, s.ratings, RatingSum(events));
    ScoreOfRow(events);
    IndexExactly(s, events[|events| - 1].1, recent, history, payout, peer, age);
  }

  lemma {:induction false} PeerIs(peer: real, average: real, count: int, sum: int)
    requires Per(peer, 20 * sum, count, 50.0) && average * count as real == sum as real
    ensures if count > 0 then peer == 20.0 * average else peer == 50.0
  {
    if count > 0 {
      assert (peer - 20.0 * average) * count as real == 0.0;
    }
  }

  lemma {:induction false} ScoreOfRow(events: seq<(Event, int)>)
    requires |events| > 0
    ensures After(events).score == Index(After(events), events[|events| - 1].1)
  {
  }

  /** A new user is stored at 50 and shown at 575, and the first event already replaces that by the index; what is
      shown is 300 and five and a half points per point stored, to the nearest whole one. */
  lemma {:induction false} ShownScore(score: int)
    ensures After([]).score == 50 && DisplayScore(50) == 575
    ensures 2 * (DisplayScore(score) - 300) <= 11 * score + 1 < 2 * (DisplayScore(score) - 299)
  {
    assert DisplayScore(score) - 300 == Credit.Round(score as real * 5.5);
    assert (score as real * 5.5 + 0.5) * 2.0 == (11 * score + 1) as real;
  }
}
