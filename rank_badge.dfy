/** The rank badge: a streak length classified into one of five tiers by a
    descending chain of thresholds, and the colour each tier is drawn in. */
module RankBadge {

  /** The tiers, from lowest to highest. */
  datatype Tier = Default | Stone | Silver | Gold | Platinum

  /** The position of a tier in the order Default < Stone < Silver < Gold < Platinum. */
  function Level(t: Tier): (r: nat)
    ensures r <= 4
  {
    match t
    case Default => 0
    case Stone => 1
    case Silver => 2
    case Gold => 3
    case Platinum => 4
  }

  /** Whether a streak is long enough for a tier, read off the threshold
      table: 5 days for Stone, 10 for Silver, 20 for Gold, 30 for Platinum;
      every streak is long enough for Default. */
  predicate Reaches(streak: int, t: Tier) {
    match t
    case Default => true
    case Stone => streak >= 5
    case Silver => streak >= 10
    case Gold => streak >= 20
    case Platinum => streak >= 30
  }

  /** getBadgeColor's tier: the first threshold, from the top, that the
      streak meets. Zero and negative streaks fall through to Default. */
  function BadgeTier(streak: int): (t: Tier)
    ensures t == Platinum <==> 30 <= streak
    ensures t == Gold <==> 20 <= streak < 30
    ensures t == Silver <==> 10 <= streak < 20
    ensures t == Stone <==> 5 <= streak < 10
    ensures t == Default <==> streak < 5
  {
    if streak >= 30 then Platinum
    else if streak >= 20 then Gold
    else if streak >= 10 then Silver
    else if streak >= 5 then Stone
    else Default
  }

  /** The tier of a streak is the highest tier it reaches: it reaches every
      tier up to its own and none above. */
  lemma BadgeTierIsHighestReached(streak: int, t: Tier)
    ensures Reaches(streak, BadgeTier(streak))
    ensures Level(t) <= Level(BadgeTier(streak)) <==> Reaches(streak, t)
  {
  }

  /** A longer streak never earns a lower tier. */
  lemma BadgeTierMonotone(s1: int, s2: int)
    requires s1 <= s2
    ensures Level(BadgeTier(s1)) <= Level(BadgeTier(s2))
  {
  }

  /** A hexadecimal digit as written in a CSS colour. */
  predicate IsHexDigit(c: char) {
    '0' <= c <= '9' || 'a' <= c <= 'f' || 'A' <= c <= 'F'
  }

  /** The colour a tier is drawn in, as a `#rrggbb` CSS colour. */
  function TierColor(t: Tier): (c: string)
    ensures |c| == 7 && c[0] == '#'
    ensures forall i :: 1 <= i < 7 ==> IsHexDigit(c[i])
  {
    match t
    case Platinum => "#a089cc"
    case Gold => "#FFD700"
    case Silver => "#C0C0C0"
    case Stone => "#ad612a"
    case Default => "#ad2a35"
  }

  /** Distinct tiers are drawn in distinct colours, so the colour names the tier. */
  lemma TierColorInjective(t1: Tier, t2: Tier)
    ensures TierColor(t1) == TierColor(t2) <==> t1 == t2
  {
    if t1 != t2 {
      assert TierColor(t1)[1..3] != TierColor(t2)[1..3] || TierColor(t1)[3..] != TierColor(t2)[3..];
    }
  }

  /** getBadgeColor: exactly one colour per streak, chosen by range. */
  function GetBadgeColor(streak: int): (c: string)
    ensures c == "#a089cc" <==> 30 <= streak
    ensures c == "#FFD700" <==> 20 <= streak < 30
    ensures c == "#C0C0C0" <==> 10 <= streak < 20
    ensures c == "#ad612a" <==> 5 <= streak < 10
    ensures c == "#ad2a35" <==> streak < 5
  {
    var t := BadgeTier(streak);
    TierColorInjective(t, Platinum);
    TierColorInjective(t, Gold);
    TierColorInjective(t, Silver);
    TierColorInjective(t, Stone);
    TierColorInjective(t, Default);
    TierColor(t)
  }
}
