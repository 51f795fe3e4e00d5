/** Credit tiers and the composite score a loan is sized by. */
module Credit {
  import opened Wrappers

  datatype Tier = Tier(minScore: int, allowedPercent: int)

  const CREDIT_TIERS: seq<Tier> :=
    [Tier(750, 50), Tier(700, 45), Tier(650, 40), Tier(600, 30), Tier(550, 20)]

  /** The first tier, best first, that the score clears. */
  function FindTier(tiers: seq<Tier>, score: int): Option<Tier> {
    if |tiers| == 0 then None
    else if score >= tiers[0].minScore then Some(tiers[0])
    else FindTier(tiers[1..], score)
  }

  function AllowedPercent(score: int): Option<int> {
    match FindTier(CREDIT_TIERS, score)
    case Some(tier) => Some(tier.allowedPercent)
    case None => None
  }

  /** Below 550 nothing is lent; above it the share never falls as the score rises, from 20% to 50%. */
  lemma {:induction false} TiersMonotone(low: int, high: int)
    requires low <= high
    ensures AllowedPercent(low).Some? <==> low >= 550
    ensures AllowedPercent(low).Some? ==>
      AllowedPercent(high).Some? && 20 <= AllowedPercent(low).value <= AllowedPercent(high).value <= 50
  {
    TierTable(low);
    TierTable(high);
  }

  lemma {:induction false} TierTable(s: int)
    ensures AllowedPercent(s) == (
      if s >= 750 then Some(50) else if s >= 700 then Some(45) else if s >= 650 then Some(40)
      else if s >= 600 then Some(30) else if s >= 550 then Some(20) else None)
  {
    var t := CREDIT_TIERS;
    assert FindTier(t[5..], s) == None;
    assert t[4..][1..] == t[5..] && FindTier(t[4..], s) == if s >= 550 then Some(t[4]) else None;
    assert t[3..][1..] == t[4..] && FindTier(t[3..], s) == if s >= 600 then Some(t[3]) else FindTier(t[4..], s);
    assert t[2..][1..] == t[3..] && FindTier(t[2..], s) == if s >= 650 then Some(t[2]) else FindTier(t[3..], s);
    assert t[1..][1..] == t[2..] && FindTier(t[1..], s) == if s >= 700 then Some(t[1]) else FindTier(t[2..], s);
  }

  // ----- The composite score ----------------------------------------------------------------------

  /** Math.round: halves go up. */
  function Round(x: real): int {
    (x + 0.5).Floor
  }

  function Clamp(score: int): int {
    if score < 300 then 300 else if score > 850 then 850 else score
  }

  /** 70% bureau and 30% trust, or trust alone when the bureau is unavailable. */
  function FinalScore(external: Option<int>, display: int): int {
    var trust := Clamp(display);
    match external
    case Some(score) => Clamp(Round(score as real * 0.7 + trust as real * 0.3))
    case None => trust
  }

  /** The score stays in 300..850 and moves with both of its inputs. */
  lemma {:induction false} FinalScoreMonotone(e: Option<int>, f: Option<int>, d: int, g: int)
    requires d <= g
    requires e.Some? <==> f.Some?
    requires e.Some? ==> e.value <= f.value
    ensures 300 <= FinalScore(e, d) <= FinalScore(f, g) <= 850
  {
    if e.Some? {
      var x := e.value as real * 0.7 + Clamp(d) as real * 0.3;
      var y := f.value as real * 0.7 + Clamp(g) as real * 0.3;
      assert x <= y;
      assert Round(x) <= Round(y);
    }
  }

  /** Seven tenths bureau and three tenths trust, to the nearest whole point with halves going up, kept within
      300..850; the trust part is kept within it first, and is the whole score when the bureau does not answer. */
  lemma {:induction false} FinalScoreExactly(external: Option<int>, display: int)
    ensures var trust := if display < 300 then 300 else if display > 850 then 850 else display;
      var score := FinalScore(external, display);
      match external
      case None => score == trust
      case Some(bureau) =>
        var tenths := 7 * bureau + 3 * trust;
        && (tenths <= 3000 ==> score == 300)
        && (tenths >= 8500 ==> score == 850)
        && (3000 <= tenths <= 8500 ==> 10 * score <= tenths + 5 < 10 * (score + 1))
  {
    var trust := Clamp(display);
    if external.Some? {
      RoundTenths(7 * external.value + 3 * trust);
      assert external.value as real * 0.7 + trust as real * 0.3 == (7 * external.value + 3 * trust) as real / 10.0;
    }
  }

  lemma {:induction false} RoundTenths(tenths: int)
    ensures var r := Round(tenths as real / 10.0); 10 * r <= tenths + 5 < 10 * (r + 1)
  {
    var r := Round(tenths as real / 10.0);
    assert r as real <= tenths as real / 10.0 + 0.5 < (r + 1) as real;
  }
}
