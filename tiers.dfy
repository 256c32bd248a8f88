/** The outcome tiers of `src/commands/roll.rs` (`DiffStatsState` and its
    display), the five-threshold record `DiffStats`, and the bucketing both
    resolver stages perform against it. */
module Tiers {

  import opened Base

  /** From the worst outcome for the attacker to the best, in declaration order. */
  datatype DiffStatsState =
    | SousDomination
    | Souspuissance
    | SousEfficace
    | SousAvantage
    | SousFaveur
    | Neutre
    | Faveur
    | Avantage
    | Efficace
    | Surpuissance
    | Domination

  /** The `DiffStatsState` display, with its French article. */
  function TierText(t: DiffStatsState): string {
    match t
    case SousDomination => "une sous-domination"
    case Souspuissance => "une sous-puissance"
    case SousEfficace => "un sous-efficace"
    case SousAvantage => "un sous-avantage"
    case SousFaveur => "une sous-faveur"
    case Neutre => "un neutre"
    case Faveur => "une faveur"
    case Avantage => "un avantage"
    case Efficace => "un efficace"
    case Surpuissance => "une surpuissance"
    case Domination => "une domination"
  }

  /** Position in declaration order: 0 for SousDomination up to 10 for Domination. */
  function Rank(t: DiffStatsState): (n: nat)
    ensures n <= 10
  {
    match t
    case SousDomination => 0
    case Souspuissance => 1
    case SousEfficace => 2
    case SousAvantage => 3
    case SousFaveur => 4
    case Neutre => 5
    case Faveur => 6
    case Avantage => 7
    case Efficace => 8
    case Surpuissance => 9
    case Domination => 10
  }

  /** No two tiers are displayed alike, so a message names its tier unambiguously. */
  lemma TierTextDistinct(t1: DiffStatsState, t2: DiffStatsState)
    ensures TierText(t1) == TierText(t2) <==> t1 == t2
    ensures Rank(t1) == Rank(t2) <==> t1 == t2
  {
  }

  /** The tier reached from bucket `k` on the favourable side: bucket 0 is
      Neutre, then Faveur, Avantage, Efficace, Surpuissance, Domination. */
  function Above(k: nat): (t: DiffStatsState)
    requires k <= 5
    ensures Rank(t) == 5 + k
  {
    [Neutre, Faveur, Avantage, Efficace, Surpuissance, Domination][k]
  }

  /** The "sous-" tier of bucket `k`: bucket 0 is Neutre, then SousFaveur,
      SousAvantage, SousEfficace, Souspuissance, SousDomination. */
  function Below(k: nat): (t: DiffStatsState)
    requires k <= 5
    ensures Rank(t) == 5 - k
  {
    [Neutre, SousFaveur, SousAvantage, SousEfficace, Souspuissance, SousDomination][k]
  }

  /** The threshold record read from the file named by `DIFF_STATS`. */
  datatype DiffStats = DiffStats(
    faveur: real,
    avantage: real,
    efficace: real,
    surpuissance: real,
    domination: real)

  /** The `k`-th threshold, in the order the guards test them. */
  function Threshold(d: DiffStats, k: nat): real
    requires k < 5
  {
    match k
    case 0 => d.faveur
    case 1 => d.avantage
    case 2 => d.efficace
    case 3 => d.surpuissance
    case _ => d.domination
  }

  /** The thresholds in the order the guards test them never decrease. */
  predicate Ascending(d: DiffStats) {
    d.faveur <= d.avantage <= d.efficace <= d.surpuissance <= d.domination
  }

  /** Every threshold multiplied by a level (`data.x *= level as f32`). */
  function Scaled(d: DiffStats, level: u8): (s: DiffStats)
    ensures forall k :: 0 <= k < 5 ==> Threshold(s, k) == Threshold(d, k) * level as real
  {
    var l := level as real;
    DiffStats(d.faveur * l, d.avantage * l, d.efficace * l, d.surpuissance * l, d.domination * l)
  }

  /** Scaling by a level keeps ascending thresholds ascending. */
  lemma ScaledAscending(d: DiffStats, level: u8)
    requires Ascending(d)
    ensures Ascending(Scaled(d, level))
  {
    var l := level as real;
    assert l >= 0.0;
    assert d.faveur * l <= d.avantage * l by { assert (d.avantage - d.faveur) * l >= 0.0; }
    assert d.avantage * l <= d.efficace * l by { assert (d.efficace - d.avantage) * l >= 0.0; }
    assert d.efficace * l <= d.surpuissance * l by { assert (d.surpuissance - d.efficace) * l >= 0.0; }
    assert d.surpuissance * l <= d.domination * l by { assert (d.domination - d.surpuissance) * l >= 0.0; }
  }

  /** The bucket of `x`: the first threshold it is below, or 5 when it is below
      none of them. */
  function Band(x: real, d: DiffStats): (k: nat)
    ensures k <= 5
    ensures k < 5 ==> x < Threshold(d, k)
    ensures forall j :: 0 <= j < k ==> Threshold(d, j) <= x
  {
    if x < d.faveur then 0
    else if x < d.avantage then 1
    else if x < d.efficace then 2
    else if x < d.surpuissance then 3
    else if x < d.domination then 4
    else 5
  }

  /** A larger value never lands in an earlier bucket, whatever the thresholds. */
  lemma BandMonotone(x: real, y: real, d: DiffStats)
    requires x <= y
    ensures Band(x, d) <= Band(y, d)
  {
    var k := Band(y, d);
    if k < 5 {
      assert x < Threshold(d, k);
    }
  }

  /** The durability loss (`usure`) that goes with each power tier. */
  function UsureOf(t: DiffStatsState): (u: real)
    ensures 0.0 <= u <= 8.0
  {
    match t
    case SousDomination => 8.0
    case Souspuissance => 7.0
    case SousEfficace => 6.0
    case SousAvantage => 5.0
    case SousFaveur => 4.0
    case Neutre => 3.0
    case Faveur => 2.0
    case Avantage => 1.5
    case Efficace => 1.0
    case Surpuissance => 0.5
    case Domination => 0.0
  }

  /** A better tier never costs more durability, and distinct tiers cost
      distinct amounts. */
  lemma UsureOrdered(t1: DiffStatsState, t2: DiffStatsState)
    ensures Rank(t1) <= Rank(t2) ==> UsureOf(t1) >= UsureOf(t2)
    ensures UsureOf(t1) == UsureOf(t2) <==> t1 == t2
  {
  }
}
