/** The speed stage of an attack, `result_roll_vitesse` in
    `src/commands/roll.rs`: the faster entity usually strikes first, but the
    closer the speeds (measured against thresholds scaled by the slower
    entity's level) the likelier an upset. */
module SpeedRoll {

  import opened Tiers
  import opened Entities

  /** `AttackResult`: winner, loser, speed tier, power tier and durability loss. */
  datatype AttackResult = AttackResult(
    gagnant: string,
    perdant: string,
    diffVitesse: DiffStatsState,
    diffForce: DiffStatsState,
    usure: real)

  /** The random source: `die(n)` is the face shown by `gen_range(1..=n)`. */
  type Die = int -> int

  /** `result_roll_vitesse`, with the thresholds passed in as `data` (as read,
      before scaling) and the dice as `die`. */
  function ResultRollVitesse(es: Entities, data: DiffStats, die: Die, result: AttackResult): AttackResult {
    var one, second := es.one, es.second;
    var verdict: (string, DiffStatsState) :=
      if one.vitesse > second.vitesse then
        var t := Scaled(data, second.level);
        var x := one.vitesse - second.vitesse;
        if x < t.faveur then
          (if die(2) == 2 then (second.name, Neutre) else (one.name, Neutre))
        else if x < t.avantage then
          (if die(3) == 3 then (second.name, SousFaveur) else (one.name, Faveur))
        else if x < t.efficace then
          (if die(4) == 4 then (second.name, SousAvantage) else (one.name, Avantage))
        else if x < t.surpuissance then
          (if die(5) == 5 then (second.name, SousEfficace) else (one.name, Efficace))
        else if x < t.domination then
          (if die(6) == 6 then (second.name, Souspuissance) else (one.name, Surpuissance))
        else if x > t.domination then (one.name, Domination)
        else (one.name, result.diffVitesse)
      else
        var t := Scaled(data, one.level);
        var x := second.vitesse - one.vitesse;
        if x < t.faveur then
          (if die(2) == 2 then (one.name, Neutre) else (second.name, Neutre))
        else if x < t.avantage then
          (if die(3) == 3 then (one.name, SousFaveur) else (second.name, Faveur))
        else if x < t.efficace then
          (if die(4) == 4 then (one.name, SousAvantage) else (second.name, Avantage))
        else if x < t.surpuissance then
          (if die(5) == 5 then (one.name, SousEfficace) else (second.name, Efficace))
        else if x < t.domination then
          (if die(6) == 6 then (one.name, Souspuissance) else (second.name, Surpuissance))
        else if x > t.domination then (second.name, Domination)
        else (second.name, result.diffVitesse);
    var gagnant := verdict.0;
    result.(gagnant := gagnant,
            diffVitesse := verdict.1,
            perdant := if gagnant == one.name then second.name else one.name)
  }

  /** Entity one is faster only when strictly faster; a tie goes to entity two. */
  function Faster(es: Entities): Entity {
    if es.one.vitesse > es.second.vitesse then es.one else es.second
  }

  function Slower(es: Entities): Entity {
    if es.one.vitesse > es.second.vitesse then es.second else es.one
  }

  /** The thresholds the speed gap is measured against: scaled by the slower
      entity's level. */
  function SpeedThresholds(es: Entities, data: DiffStats): DiffStats {
    Scaled(data, Slower(es).level)
  }

  function SpeedGap(es: Entities): real {
    Faster(es).vitesse - Slower(es).vitesse
  }

  /** The speed tier the faster entity earns when no upset happens. */
  function HeldSpeedTier(gap: real, t: DiffStats, incoming: DiffStatsState): DiffStatsState {
    var k := Band(gap, t);
    if k < 5 then Above(k) else if gap > t.domination then Domination else incoming
  }

  /** The speed stage, stated by bucket: in bucket `k` (0 to 4) a die of `k + 2`
      faces is rolled and only its top face hands the win, with the "sous-" tier,
      to the slower entity; beyond the domination threshold the faster entity
      wins with Domination and no roll; exactly on it the faster entity wins
      and the incoming tier is kept. The loser is the other entity, and the
      power fields are untouched. */
  lemma SpeedStage(es: Entities, data: DiffStats, die: Die, result: AttackResult)
    ensures var r := ResultRollVitesse(es, data, die, result);
            var t := SpeedThresholds(es, data);
            var gap := SpeedGap(es);
            var k := Band(gap, t);
            var upset := k < 5 && die(k + 2) == k + 2;
            && gap >= 0.0
            && r.gagnant == (if upset then Slower(es).name else Faster(es).name)
            && r.diffVitesse == (if upset then Below(k) else HeldSpeedTier(gap, t, result.diffVitesse))
            && r.perdant == (if r.gagnant == es.one.name then es.second.name else es.one.name)
            && r.diffForce == result.diffForce && r.usure == result.usure
  {
  }

  /** Whoever wins, the winner and the loser are the two entities' names, and
      when the names differ they are two different ones. */
  lemma SpeedParties(es: Entities, data: DiffStats, die: Die, result: AttackResult)
    ensures var r := ResultRollVitesse(es, data, die, result);
            && (r.gagnant == es.one.name || r.gagnant == es.second.name)
            && (es.one.name != es.second.name ==>
                  r.perdant != r.gagnant && (r.perdant == es.one.name || r.perdant == es.second.name))
  {
    SpeedStage(es, data, die, result);
  }

  /** Equal speeds: entity two counts as the faster one, so with a positive
      first threshold the stage is a two-faced coin that entity one wins only
      on a 2. */
  lemma SpeedTie(es: Entities, data: DiffStats, die: Die, result: AttackResult)
    requires es.one.vitesse == es.second.vitesse
    requires data.faveur > 0.0 && es.one.level > 0
    ensures var r := ResultRollVitesse(es, data, die, result);
            && r.gagnant == (if die(2) == 2 then es.one.name else es.second.name)
            && r.diffVitesse == Neutre
  {
    assert SpeedThresholds(es, data).faveur == data.faveur * es.one.level as real;
    SpeedStage(es, data, die, result);
  }

  /** Past the scaled domination threshold the faster entity wins whatever the die shows. */
  lemma SpeedDomination(es: Entities, data: DiffStats, die: Die, result: AttackResult)
    requires SpeedGap(es) > SpeedThresholds(es, data).domination
    requires forall k :: 0 <= k < 5 ==> Threshold(SpeedThresholds(es, data), k) <= SpeedGap(es)
    ensures var r := ResultRollVitesse(es, data, die, result);
            r.gagnant == Faster(es).name && r.diffVitesse == Domination
  {
    SpeedStage(es, data, die, result);
  }

  /** With thresholds in ascending order, passing the domination threshold
      alone is enough. */
  lemma SpeedDominationAscending(es: Entities, data: DiffStats, die: Die, result: AttackResult)
    requires Ascending(data)
    requires SpeedGap(es) > SpeedThresholds(es, data).domination
    ensures var r := ResultRollVitesse(es, data, die, result);
            r.gagnant == Faster(es).name && r.diffVitesse == Domination
  {
    ScaledAscending(data, Slower(es).level);
    SpeedDomination(es, data, die, result);
  }

  /** Without an upset, a wider speed gap never earns a lower tier, except at
      the one gap equal to the domination threshold, where the incoming tier
      is kept. */
  lemma HeldSpeedTierMonotone(x: real, y: real, t: DiffStats, incoming: DiffStatsState)
    requires x <= y && x != t.domination && y != t.domination
    ensures Rank(HeldSpeedTier(x, t, incoming)) <= Rank(HeldSpeedTier(y, t, incoming))
  {
    BandMonotone(x, y, t);
    if Band(x, t) == 5 {
      assert Threshold(t, 4) <= x;
    }
    if Band(y, t) == 5 {
      assert Threshold(t, 4) <= y;
    }
  }

  /** The exception, as written: with thresholds 0.5/1/2/4/8 at level 1, a gap
      of 7.75 earns Surpuissance while the larger gap of exactly 8 falls back
      to the incoming Neutre. */
  lemma HeldSpeedTierAtDomination()
    ensures var t := Scaled(DiffStats(0.5, 1.0, 2.0, 4.0, 8.0), 1);
            && HeldSpeedTier(7.75, t, Neutre) == Surpuissance
            && HeldSpeedTier(8.0, t, Neutre) == Neutre
  {
  }
}
