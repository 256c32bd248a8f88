/** The power stage and the whole attack, `result_roll_attack` and
    `attack_roll` in `src/commands/roll.rs`: after the speed stage, the
    winner's force is set against the loser's resistance and the tier of that
    difference fixes the durability loss (`usure`) of the winner's weapon. */
module AttackRoll {

  import opened Base
  import opened Tiers
  import opened RaceStats
  import opened Adventurers
  import opened Entities
  import opened SpeedRoll

  /** The record `result_roll_attack` starts from. */
  const Initial := AttackResult("Aucun", "Aucun", Neutre, Neutre, 0.0)

  /** One side of `result_roll_attack`'s power match (the source spells it out
      once per side): `x` is the attacker's force minus the defender's
      resistance, and the guards scale the thresholds by the attacker's level
      when `x <= 0` and by the defender's otherwise. */
  function PowerArm(result: AttackResult, x: real, attackerLevel: u8, defenderLevel: u8, data: DiffStats)
    : AttackResult
  {
    if x <= 0.0 then
      var y := x * -1.0;
      if y < data.faveur * attackerLevel as real then result.(diffForce := Neutre, usure := 3.0)
      else if y < data.avantage * attackerLevel as real then result.(diffForce := SousFaveur, usure := 4.0)
      else if y < data.efficace * attackerLevel as real then result.(diffForce := SousAvantage, usure := 5.0)
      else if y < data.surpuissance * attackerLevel as real then result.(diffForce := SousEfficace, usure := 6.0)
      else if y < data.domination * attackerLevel as real then result.(diffForce := Souspuissance, usure := 7.0)
      else result.(diffForce := SousDomination, usure := 8.0)
    else if x < data.faveur * defenderLevel as real then result.(diffForce := Neutre, usure := 3.0)
    else if x < data.avantage * defenderLevel as real then result.(diffForce := Faveur, usure := 2.0)
    else if x < data.efficace * defenderLevel as real then result.(diffForce := Avantage, usure := 1.5)
    else if x < data.surpuissance * defenderLevel as real then result.(diffForce := Efficace, usure := 1.0)
    else if x < data.domination * defenderLevel as real then result.(diffForce := Surpuissance, usure := 0.5)
    else result.(diffForce := Domination, usure := 0.0)
  }

  /** `result_roll_attack`, with the thresholds passed in as `data` and the dice
      as `die`. The side whose force counts is chosen by comparing the speed
      winner's name with entity one's. */
  function ResultRollAttack(es: Entities, data: DiffStats, die: Die): AttackResult {
    var result := ResultRollVitesse(es, data, die, Initial);
    var one, second := es.one, es.second;
    if result.gagnant == one.name then PowerArm(result, one.force - second.resistance, one.level, second.level, data)
    else PowerArm(result, second.force - one.resistance, second.level, one.level, data)
  }

  /** The power tier of a force margin `delta`: a blow that does not exceed the
      resistance is measured (as `-delta`) against thresholds scaled by the
      attacker's level and gets a "sous-" tier; one that does is measured
      against thresholds scaled by the defender's level. */
  function PowerTier(delta: real, winnerLevel: u8, loserLevel: u8, data: DiffStats): DiffStatsState {
    if delta <= 0.0 then Below(Band(-delta, Scaled(data, winnerLevel)))
    else Above(Band(delta, Scaled(data, loserLevel)))
  }

  /** The side whose force counts in the power stage. */
  function Attacker(es: Entities, r: AttackResult): Entity {
    if r.gagnant == es.one.name then es.one else es.second
  }

  function Defender(es: Entities, r: AttackResult): Entity {
    if r.gagnant == es.one.name then es.second else es.one
  }

  /** The power stage, stated by tier: the speed stage's verdict is kept, the
      power tier is that of the attacker's force minus the defender's
      resistance, and the durability loss is the one fixed for that tier. */
  lemma PowerStage(es: Entities, data: DiffStats, die: Die)
    ensures var speed := ResultRollVitesse(es, data, die, Initial);
            var r := ResultRollAttack(es, data, die);
            var w, l := Attacker(es, speed), Defender(es, speed);
            && r.gagnant == speed.gagnant && r.perdant == speed.perdant
            && r.diffVitesse == speed.diffVitesse
            && r.diffForce == PowerTier(w.force - l.resistance, w.level, l.level, data)
            && r.usure == UsureOf(r.diffForce)
  {
    var speed := ResultRollVitesse(es, data, die, Initial);
    var w, l := Attacker(es, speed), Defender(es, speed);
    PowerArmTier(speed, w.force - l.resistance, w.level, l.level, data);
  }

  /** Each arm of the power match agrees with `PowerTier` and the fixed
      durability table, and leaves the speed verdict alone. */
  lemma PowerArmTier(result: AttackResult, x: real, attackerLevel: u8, defenderLevel: u8, data: DiffStats)
    ensures var t := PowerTier(x, attackerLevel, defenderLevel, data);
            PowerArm(result, x, attackerLevel, defenderLevel, data) == result.(diffForce := t, usure := UsureOf(t))
  {
    if x <= 0.0 {
      assert -x == x * -1.0;
    }
  }

  /** The durability loss is one of eleven fixed values; a blow that does not
      beat the resistance costs at least 3, one that does costs at most 3. */
  lemma UsureRange(es: Entities, data: DiffStats, die: Die)
    ensures var r := ResultRollAttack(es, data, die);
            && r.usure in {0.0, 0.5, 1.0, 1.5, 2.0, 3.0, 4.0, 5.0, 6.0, 7.0, 8.0}
            && var speed := ResultRollVitesse(es, data, die, Initial);
               var delta := Attacker(es, speed).force - Defender(es, speed).resistance;
               && (delta <= 0.0 ==> r.usure >= 3.0)
               && (delta > 0.0 ==> r.usure <= 3.0)
  {
    PowerStage(es, data, die);
  }

  /** A bigger force margin never wears the weapon more, whatever the thresholds. */
  lemma UsureAntitone(d1: real, d2: real, winnerLevel: u8, loserLevel: u8, data: DiffStats)
    requires d1 <= d2
    ensures Rank(PowerTier(d1, winnerLevel, loserLevel, data)) <= Rank(PowerTier(d2, winnerLevel, loserLevel, data))
    ensures UsureOf(PowerTier(d1, winnerLevel, loserLevel, data)) >= UsureOf(PowerTier(d2, winnerLevel, loserLevel, data))
  {
    var t1, t2 := PowerTier(d1, winnerLevel, loserLevel, data), PowerTier(d2, winnerLevel, loserLevel, data);
    if d2 <= 0.0 {
      BandMonotone(-d2, -d1, Scaled(data, winnerLevel));
    } else if d1 > 0.0 {
      BandMonotone(d1, d2, Scaled(data, loserLevel));
    }
    UsureOrdered(t1, t2);
  }

  /** Force 80.25 against resistance 60 with a defender of level 10 and
      thresholds 0.5/1/2/4/8: the margin 20.25 lies between 20 and 40, so the
      blow is Efficace and costs 1. */
  lemma WorkedExample(winnerLevel: u8)
    ensures PowerTier(80.25 - 60.0, winnerLevel, 10, DiffStats(0.5, 1.0, 2.0, 4.0, 8.0)) == Efficace
    ensures UsureOf(PowerTier(80.25 - 60.0, winnerLevel, 10, DiffStats(0.5, 1.0, 2.0, 4.0, 8.0))) == 1.0
  {
  }

  /** Speed and power are independent: entity one can dominate the speed stage
      and still land a sous-domination blow that costs 8, while remaining the
      named winner. */
  lemma WinnerCanLandWeakBlow(die: Die)
    ensures var es := Entities(Entity("A", 1, 10.0, 5.0, 100.0, 5.0, 5.0),
                               Entity("B", 1, 10.0, 100.0, 5.0, 5.0, 5.0));
            var r := ResultRollAttack(es, DiffStats(0.5, 1.0, 2.0, 4.0, 8.0), die);
            && r.gagnant == "A" && r.perdant == "B"
            && r.diffVitesse == Domination && r.diffForce == SousDomination && r.usure == 8.0
  {
  }

  /** `attack_roll` without the reply: the command tokens are resolved into two
      entities and the attack is rolled; a command that would panic is reported
      as an error instead. */
  method AttackRollCommand(command: seq<string>, advs: seq<Adventurer>, races: seq<StatsRace>,
                           derive: Derivation, data: DiffStats, die: Die)
    returns (r: Result<AttackResult, ScanError>)
    ensures r.Failure? <==> Search(command, advs, races, derive).Failure?
    ensures r.Failure? ==> r.error == Search(command, advs, races, derive).error
    ensures r.Success? ==> r.value == ResultRollAttack(Search(command, advs, races, derive).value, data, die)
  {
    var entities := SearchEntities(command, advs, races, derive);
    if entities.Failure? {
      return Failure(entities.error);
    }
    r := Success(ResultRollAttack(entities.value, data, die));
  }
}
