/** The two combatants of an attack command, built by `search_entities` in
    `src/commands/roll.rs`: entity one is named by the token after the command,
    the tokens after it are scanned for `-weapon <category>` pairs until a
    token names another known adventurer, that adventurer is entity two and
    the tokens after it are scanned the same way; finally force and speed of
    both are pushed up onto the quarter grid. */
module Entities {

  import opened Base
  import opened RaceStats
  import opened Adventurers
  import opened QuarterRound

  /** A combatant (`Entity`). */
  datatype Entity = Entity(
    name: string,
    level: u8,
    force: real,
    resistance: real,
    vitesse: real,
    resistanceMagique: real,
    forceMagique: real)

  /** `Entities`: the attacker named first and the second combatant. */
  datatype Entities = Entities(one: Entity, second: Entity)

  /** The conditions under which `search_entities` panics. */
  datatype ScanError =
    | MissingEntity                 // fewer than two tokens: `command[1]` is out of range
    | UnknownAdventurer(name: string)  // `get_adventurer(name).unwrap()` on `None`
    | MissingWeaponCategory(at: nat)   // `-weapon` is the last token: `command[i + 1]` is out of range

  const WeaponMarker := "-weapon"

  /** The entity `set_entity_stats` builds for an adventurer: its name and level,
      and the stats derived from the baseline stored under its race's display
      name. */
  function EntityOf(a: Adventurer, races: seq<StatsRace>, derive: Derivation): Entity {
    var s := derive(a.iv, a.level, LastMatch(races, RaceName(a.race)));
    Entity(a.name, a.level, s.force, s.resistance, s.vitesse, s.resistanceMagique, s.forceMagique)
  }

  /** The entity fights with the stats its sheet shows first (for a Jiaodan,
      the human ones), before any weapon is applied. */
  lemma EntityMatchesSheet(a: Adventurer, races: seq<StatsRace>, derive: Derivation)
    ensures var shown := ShownStats(a, races, derive)[0];
            var e := EntityOf(a, races, derive);
            && e.name == a.name && e.level == a.level
            && e.force == shown.force && e.resistance == shown.resistance
            && e.vitesse == shown.vitesse && e.resistanceMagique == shown.resistanceMagique
            && e.forceMagique == shown.forceMagique
  {
    ShownStatsKeys(a, races, derive);
  }

  /** `set_entity_stats`; `None` is the case where its `unwrap` panics. */
  method SetEntityStats(name: string, advs: seq<Adventurer>, races: seq<StatsRace>, derive: Derivation)
    returns (r: Option<Entity>)
    ensures r.None? <==> FindAdventurer(advs, name).None?
    ensures r.Some? ==> r.value == EntityOf(FindAdventurer(advs, name).value, races, derive)
  {
    var adventurer := GetAdventurer(advs, name);
    if adventurer.None? {
      return None;
    }
    var a := adventurer.value;
    var baseline := GetRaceStats(races, RaceName(a.race));
    var stats := derive(a.iv, a.level, baseline);
    r := Some(Entity(a.name, a.level, stats.force, stats.resistance, stats.vitesse,
                     stats.resistanceMagique, stats.forceMagique));
  }

  /** One `-weapon <category>` pair applied to a side. Only entity one (`lead`)
      rounds its force again right after the light-weapon factor. */
  function ApplyWeapon(e: Entity, category: string, lead: bool): Entity {
    if category == "Leger" then
      e.(force := if lead then RoundUp(e.force * 0.9) else e.force * 0.9, vitesse := e.vitesse * 1.05)
    else if category == "Moyen" then e
    else if category == "Lourd" then e.(force := e.force * 1.1, vitesse := e.vitesse * 0.9)
    else e.(force := e.force * 0.85, vitesse := e.vitesse * 1.075)
  }

  /** A weapon changes force and speed only. */
  lemma WeaponKeepsIdentity(e: Entity, category: string, lead: bool)
    ensures var w := ApplyWeapon(e, category, lead);
            w == e.(force := w.force, vitesse := w.vitesse)
  {
  }

  /** A medium weapon changes nothing; a heavy one raises force and lowers
      speed; a light one raises speed and, for the second entity, lowers force.
      Every unrecognised category acts like every other one. */
  lemma WeaponOrdering(e: Entity, lead: bool, other1: string, other2: string)
    requires e.force > 0.0 && e.vitesse > 0.0
    requires other1 != "Leger" && other1 != "Moyen" && other1 != "Lourd"
    requires other2 != "Leger" && other2 != "Moyen" && other2 != "Lourd"
    ensures ApplyWeapon(e, "Moyen", lead) == e
    ensures ApplyWeapon(e, "Lourd", lead).force > e.force && ApplyWeapon(e, "Lourd", lead).vitesse < e.vitesse
    ensures ApplyWeapon(e, "Leger", lead).vitesse > e.vitesse
    ensures ApplyWeapon(e, "Leger", false).force < e.force
    ensures ApplyWeapon(e, other1, lead) == ApplyWeapon(e, other2, lead)
    ensures ApplyWeapon(e, other1, lead).force < e.force && ApplyWeapon(e, other1, lead).vitesse > e.vitesse
  {
  }

  /** Entity one's extra rounding can cancel the light-weapon penalty: above a
      force of 2.5 the penalty survives, at exactly 2.5 the force comes back
      unchanged. */
  lemma LeadLightWeapon(e: Entity)
    ensures e.force > 2.5 ==> ApplyWeapon(e, "Leger", true).force < e.force
    ensures e.force == 2.5 ==> ApplyWeapon(e, "Leger", true).force == e.force
    ensures OnGrid(ApplyWeapon(e, "Leger", true).force)
  {
    if e.force == 2.5 {
      assert e.force * 0.9 == 2.25;
      assert OnGrid(2.25) by { assert (4.0 * 2.25).Floor == 9; }
      RoundUpNoFixedPoint(2.25);
    }
  }

  /** The modifiers of `cats`, applied in order. */
  function ApplyAll(e: Entity, cats: seq<string>, lead: bool): Entity
    decreases |cats|
  {
    if cats == [] then e else ApplyAll(ApplyWeapon(e, cats[0], lead), cats[1..], lead)
  }

  /** `x` raised to `n`. */
  function Pow(x: real, n: nat): real {
    if n == 0 then 1.0 else x * Pow(x, n - 1)
  }

  /** Heavy weapons compound: `n` of them multiply force by 1.1^n and speed by 0.9^n. */
  lemma {:induction false} HeavyCompounds(e: Entity, n: nat, lead: bool)
    ensures ApplyAll(e, seq(n, _ => "Lourd"), lead)
            == e.(force := e.force * Pow(1.1, n), vitesse := e.vitesse * Pow(0.9, n))
    decreases n
  {
    var cats := seq(n, _ => "Lourd");
    if n > 0 {
      var e' := ApplyWeapon(e, "Lourd", lead);
      assert cats[0] == "Lourd";
      assert cats[1..] == seq(n - 1, _ => "Lourd");
      HeavyCompounds(e', n - 1, lead);
      assert e'.force * Pow(1.1, n - 1) == e.force * Pow(1.1, n);
      assert e'.vitesse * Pow(0.9, n - 1) == e.vitesse * Pow(0.9, n);
    }
  }

  /** `name` is a known adventurer (`get_adventurer(name).is_some()`). */
  predicate Known(advs: seq<Adventurer>, name: string) {
    FindAdventurer(advs, name).Some?
  }

  /** The scan of one side's tokens from index `i`: it stops at the first token
      naming a known adventurer and reports that index (or `|command|` when it
      reaches the end), and panics on a `-weapon` that is the last token. */
  function Scan(command: seq<string>, advs: seq<Adventurer>, i: nat, e: Entity, lead: bool)
    : Result<(Entity, nat), ScanError>
    decreases |command| - i
  {
    if i >= |command| then Success((e, |command|))
    else if Known(advs, command[i]) then Success((e, i))
    else if command[i] == WeaponMarker then
      if i + 1 >= |command| then Failure(MissingWeaponCategory(i))
      else Scan(command, advs, i + 1, ApplyWeapon(e, command[i + 1], lead), lead)
    else Scan(command, advs, i + 1, e, lead)
  }

  /** The scan stops exactly at the first known name at or after `i`, and it
      fails exactly when no such name comes before a trailing `-weapon`. */
  lemma {:induction false} ScanStops(command: seq<string>, advs: seq<Adventurer>, i: nat, e: Entity, lead: bool)
    requires i <= |command|
    ensures Scan(command, advs, i, e, lead).Success? ==>
              var stop := Scan(command, advs, i, e, lead).value.1;
              && i <= stop <= |command|
              && (stop < |command| ==> Known(advs, command[stop]))
              && forall k :: i <= k < stop ==> !Known(advs, command[k])
    ensures Scan(command, advs, i, e, lead).Failure? <==>
              && i < |command|
              && command[|command| - 1] == WeaponMarker
              && forall k :: i <= k < |command| ==> !Known(advs, command[k])
    ensures Scan(command, advs, i, e, lead).Failure? ==>
              Scan(command, advs, i, e, lead).error == MissingWeaponCategory(|command| - 1)
    decreases |command| - i
  {
    if i < |command| && !Known(advs, command[i]) {
      if command[i] == WeaponMarker {
        if i + 1 < |command| {
          ScanStops(command, advs, i + 1, ApplyWeapon(e, command[i + 1], lead), lead);
        }
      } else {
        ScanStops(command, advs, i + 1, e, lead);
      }
    }
  }

  /** `-weapon c` pairs for each category of `cats`. */
  function Pairs(cats: seq<string>): seq<string> {
    if cats == [] then [] else [WeaponMarker, cats[0]] + Pairs(cats[1..])
  }

  lemma {:induction false} PairsLength(cats: seq<string>)
    ensures |Pairs(cats)| == 2 * |cats|
  {
    if cats != [] {
      PairsLength(cats[1..]);
    }
  }

  /** Scanning a run of `-weapon <category>` pairs applies the categories in
      order (so repeated markers compound), provided no category is itself a
      marker and nothing in the run names an adventurer. The run may end the
      command or be followed by a known name, where the scan stops. */
  lemma {:induction false} ScanPairs(prefix: seq<string>, cats: seq<string>, rest: seq<string>,
                                      advs: seq<Adventurer>, e: Entity, lead: bool)
    requires !Known(advs, WeaponMarker)
    requires forall c :: c in cats ==> c != WeaponMarker && !Known(advs, c)
    requires rest == [] || Known(advs, rest[0])
    ensures Scan(prefix + Pairs(cats) + rest, advs, |prefix|, e, lead)
            == Success((ApplyAll(e, cats, lead), |prefix| + 2 * |cats|))
    decreases |cats|
  {
    var command := prefix + Pairs(cats) + rest;
    if cats == [] {
      assert command == prefix + rest;
      if rest != [] {
        assert command[|prefix|] == rest[0];
      }
    } else {
      var c := cats[0];
      var prefix' := prefix + [WeaponMarker, c];
      assert command == prefix' + Pairs(cats[1..]) + rest;
      assert command[|prefix|] == WeaponMarker && command[|prefix| + 1] == c;
      assert c in cats;
      ScanPairs(prefix', cats[1..], rest, advs, ApplyWeapon(e, c, lead), lead);
      assert Scan(command, advs, |prefix| + 1, ApplyWeapon(e, c, lead), lead)
          == Scan(command, advs, |prefix'|, ApplyWeapon(e, c, lead), lead);
    }
  }

  /** Force and speed pushed up onto the quarter grid; nothing else changes. */
  function Finish(e: Entity): Entity {
    e.(force := RoundUp(e.force), vitesse := RoundUp(e.vitesse))
  }

  /** What `search_entities` computes for a command line. */
  function Search(command: seq<string>, advs: seq<Adventurer>, races: seq<StatsRace>, derive: Derivation)
    : Result<Entities, ScanError>
  {
    if |command| < 2 then Failure(MissingEntity)
    else match FindAdventurer(advs, command[1])
      case None => Failure(UnknownAdventurer(command[1]))
      case Some(a1) =>
        match Scan(command, advs, 2, EntityOf(a1, races, derive), true)
        case Failure(err) => Failure(err)
        case Success((one, stop)) =>
          var nb := if stop < |command| then stop else 1;
          match FindAdventurer(advs, command[nb])
          case None => Failure(UnknownAdventurer(command[nb]))
          case Some(a2) =>
            match Scan(command, advs, nb + 1, EntityOf(a2, races, derive), false)
            case Failure(err) => Failure(err)
            case Success((second, _)) => Success(Entities(Finish(one), Finish(second)))
  }

  /** The first index from 2 on whose token names a known adventurer, or 1
      when there is none. */
  function SplitIndex(command: seq<string>, advs: seq<Adventurer>): (nb: nat)
    requires |command| >= 2
    ensures nb == 1 || (2 <= nb < |command| && Known(advs, command[nb]))
    ensures forall k :: 2 <= k < |command| && (nb == 1 || k < nb) ==> !Known(advs, command[k])
    decreases |command|
  {
    if |command| == 2 then 1
    else
      var nb := SplitIndex(command[..|command| - 1], advs);
      if nb == 1 && Known(advs, command[|command| - 1]) then |command| - 1 else nb
  }

  /** Where entity one's scan stops decides the split: the first known name
      after `command[1]`, or 1 when the scan reaches the end. */
  lemma SplitAtStop(command: seq<string>, advs: seq<Adventurer>, e: Entity, lead: bool)
    requires |command| >= 2 && Scan(command, advs, 2, e, lead).Success?
    ensures var stop := Scan(command, advs, 2, e, lead).value.1;
            (if stop < |command| then stop else 1) == SplitIndex(command, advs)
  {
    ScanStops(command, advs, 2, e, lead);
    var stop := Scan(command, advs, 2, e, lead).value.1;
    if stop < |command| {
      var s := SplitIndex(command, advs);
      assert s == 1 || s < stop || s == stop || stop < s;
    }
  }

  /** Entity one is always the adventurer named by `command[1]`; entity two is
      the one named at the split index, which is `command[1]` again when no
      later token names an adventurer. */
  lemma SearchNames(command: seq<string>, advs: seq<Adventurer>, races: seq<StatsRace>, derive: Derivation)
    requires Search(command, advs, races, derive).Success?
    ensures |command| >= 2 && Known(advs, command[1])
    ensures Search(command, advs, races, derive).value.one.name == command[1]
    ensures Search(command, advs, races, derive).value.second.name == command[SplitIndex(command, advs)]
  {
    var a1 := FindAdventurer(advs, command[1]).value;
    var one0 := EntityOf(a1, races, derive);
    SplitAtStop(command, advs, one0, true);
    ScanKeepsIdentity(command, advs, 2, one0, true);
    var stop := Scan(command, advs, 2, one0, true).value.1;
    var nb := if stop < |command| then stop else 1;
    var two0 := EntityOf(FindAdventurer(advs, command[nb]).value, races, derive);
    ScanKeepsIdentity(command, advs, nb + 1, two0, false);
  }

  /** Without a trailing `-weapon` and with a known first name the scan never
      panics; a command of fewer than two tokens fails before any lookup, and
      an unknown first name fails right after it. */
  lemma SearchOutcome(command: seq<string>, advs: seq<Adventurer>, races: seq<StatsRace>, derive: Derivation)
    ensures |command| < 2 ==> Search(command, advs, races, derive) == Failure(MissingEntity)
    ensures |command| >= 2 && !Known(advs, command[1]) ==>
              Search(command, advs, races, derive) == Failure(UnknownAdventurer(command[1]))
    ensures |command| >= 2 && Known(advs, command[1]) && command[|command| - 1] != WeaponMarker ==>
              Search(command, advs, races, derive).Success?
    ensures Search(command, advs, races, derive).Failure? &&
            Search(command, advs, races, derive).error.MissingWeaponCategory? ==>
              command[|command| - 1] == WeaponMarker
  {
    if |command| >= 2 && Known(advs, command[1]) {
      var one0 := EntityOf(FindAdventurer(advs, command[1]).value, races, derive);
      ScanStops(command, advs, 2, one0, true);
      if Scan(command, advs, 2, one0, true).Success? {
        var stop := Scan(command, advs, 2, one0, true).value.1;
        var nb := if stop < |command| then stop else 1;
        var two0 := EntityOf(FindAdventurer(advs, command[nb]).value, races, derive);
        ScanStops(command, advs, nb + 1, two0, false);
      }
    }
  }

  /** After the scan, force and speed of both entities lie on the quarter grid,
      while levels, resistances and magic stats are those derived for the two
      adventurers, untouched by weapons and rounding. */
  lemma SearchStats(command: seq<string>, advs: seq<Adventurer>, races: seq<StatsRace>, derive: Derivation)
    requires Search(command, advs, races, derive).Success?
    ensures var es := Search(command, advs, races, derive).value;
            && OnGrid(es.one.force) && OnGrid(es.one.vitesse)
            && OnGrid(es.second.force) && OnGrid(es.second.vitesse)
    ensures var es := Search(command, advs, races, derive).value;
            var e1 := EntityOf(FindAdventurer(advs, command[1]).value, races, derive);
            var e2 := EntityOf(FindAdventurer(advs, command[SplitIndex(command, advs)]).value, races, derive);
            && es.one.level == e1.level && es.one.resistance == e1.resistance
            && es.one.resistanceMagique == e1.resistanceMagique && es.one.forceMagique == e1.forceMagique
            && es.second.level == e2.level && es.second.resistance == e2.resistance
            && es.second.resistanceMagique == e2.resistanceMagique && es.second.forceMagique == e2.forceMagique
  {
    SearchNames(command, advs, races, derive);
    var e1 := EntityOf(FindAdventurer(advs, command[1]).value, races, derive);
    ScanKeepsIdentity(command, advs, 2, e1, true);
    var stop := Scan(command, advs, 2, e1, true).value.1;
    var nb := if stop < |command| then stop else 1;
    SplitAtStop(command, advs, e1, true);
    var e2 := EntityOf(FindAdventurer(advs, command[nb]).value, races, derive);
    ScanKeepsIdentity(command, advs, nb + 1, e2, false);
  }

  /** With two known names, each followed by its own run of `-weapon` pairs,
      each entity gets exactly its own run's modifiers, in order, and is then
      rounded up onto the quarter grid. */
  lemma SearchPairs(cmd: string, n1: string, c1: seq<string>, n2: string, c2: seq<string>,
                    advs: seq<Adventurer>, races: seq<StatsRace>, derive: Derivation)
    requires Known(advs, n1) && Known(advs, n2) && !Known(advs, WeaponMarker)
    requires forall c :: c in c1 + c2 ==> c != WeaponMarker && !Known(advs, c)
    ensures Search([cmd, n1] + Pairs(c1) + [n2] + Pairs(c2), advs, races, derive)
            == Success(Entities(
                 Finish(ApplyAll(EntityOf(FindAdventurer(advs, n1).value, races, derive), c1, true)),
                 Finish(ApplyAll(EntityOf(FindAdventurer(advs, n2).value, races, derive), c2, false))))
  {
    var command := [cmd, n1] + Pairs(c1) + [n2] + Pairs(c2);
    var e1 := EntityOf(FindAdventurer(advs, n1).value, races, derive);
    var e2 := EntityOf(FindAdventurer(advs, n2).value, races, derive);
    assert forall c :: c in c1 ==> c in c1 + c2;
    assert forall c :: c in c2 ==> c in c1 + c2;
    PairsLength(c1);
    PairsLength(c2);
    assert command == [cmd, n1] + Pairs(c1) + ([n2] + Pairs(c2));
    ScanPairs([cmd, n1], c1, [n2] + Pairs(c2), advs, e1, true);
    var nb := 2 + 2 * |c1|;
    assert command[nb] == n2;
    assert command == ([cmd, n1] + Pairs(c1) + [n2]) + Pairs(c2) + [];
    ScanPairs([cmd, n1] + Pairs(c1) + [n2], c2, [], advs, e2, false);
    assert command[1] == n1;
  }

  /** With a single known name, entity two is that adventurer again and its
      scan starts over from index 2: both sides get the same modifiers, only
      entity one with the extra light-weapon rounding. */
  lemma SearchOneName(cmd: string, n1: string, c1: seq<string>,
                      advs: seq<Adventurer>, races: seq<StatsRace>, derive: Derivation)
    requires Known(advs, n1) && !Known(advs, WeaponMarker)
    requires forall c :: c in c1 ==> c != WeaponMarker && !Known(advs, c)
    ensures var e := EntityOf(FindAdventurer(advs, n1).value, races, derive);
            Search([cmd, n1] + Pairs(c1), advs, races, derive)
            == Success(Entities(Finish(ApplyAll(e, c1, true)), Finish(ApplyAll(e, c1, false))))
  {
    var command := [cmd, n1] + Pairs(c1);
    var e := EntityOf(FindAdventurer(advs, n1).value, races, derive);
    PairsLength(c1);
    assert command == [cmd, n1] + Pairs(c1) + [];
    ScanPairs([cmd, n1], c1, [], advs, e, true);
    ScanPairs([cmd, n1], c1, [], advs, e, false);
    assert command[1] == n1;
  }

  /** A `-weapon` ends the command and no known name lies between index `from`
      and it. */
  predicate TrailingWeapon(command: seq<string>, advs: seq<Adventurer>, from: nat) {
    && from < |command|
    && command[|command| - 1] == WeaponMarker
    && forall k :: from <= k < |command| ==> !Known(advs, command[k])
  }

  /** Once the first name is known, the search fails exactly when a `-weapon`
      ends the command and no known name comes between the start of the side
      being scanned and that marker; the side is entity two's when a second
      name was found, and entity one's otherwise. */
  lemma SearchTrailingWeapon(command: seq<string>, advs: seq<Adventurer>, races: seq<StatsRace>, derive: Derivation)
    requires |command| >= 2 && Known(advs, command[1])
    ensures var s := SplitIndex(command, advs);
            Search(command, advs, races, derive).Failure? <==>
              TrailingWeapon(command, advs, if s == 1 then 2 else s + 1)
  {
    var e1 := EntityOf(FindAdventurer(advs, command[1]).value, races, derive);
    ScanStops(command, advs, 2, e1, true);
    if Scan(command, advs, 2, e1, true).Success? {
      TrailingAfterSplit(command, advs, races, derive);
    } else {
      assert Search(command, advs, races, derive).Failure?;
    }
  }

  /** The case of `SearchTrailingWeapon` where entity one's scan succeeds:
      the outcome is that of entity two's scan. */
  lemma TrailingAfterSplit(command: seq<string>, advs: seq<Adventurer>, races: seq<StatsRace>, derive: Derivation)
    requires |command| >= 2 && Known(advs, command[1])
    requires Scan(command, advs, 2, EntityOf(FindAdventurer(advs, command[1]).value, races, derive), true).Success?
    ensures var s := SplitIndex(command, advs);
            Search(command, advs, races, derive).Failure? <==>
              TrailingWeapon(command, advs, if s == 1 then 2 else s + 1)
  {
    var s := SplitIndex(command, advs);
    var e1 := EntityOf(FindAdventurer(advs, command[1]).value, races, derive);
    SplitAtStop(command, advs, e1, true);
    var e2 := EntityOf(FindAdventurer(advs, command[s]).value, races, derive);
    ScanStops(command, advs, s + 1, e2, false);
    assert Search(command, advs, races, derive).Failure? <==> Scan(command, advs, s + 1, e2, false).Failure?;
    if s == 1 {
      ScanStops(command, advs, 2, e1, true);
    }
  }

  /** A scan changes force and speed only. */
  lemma {:induction false} ScanKeepsIdentity(command: seq<string>, advs: seq<Adventurer>, i: nat, e: Entity, lead: bool)
    ensures Scan(command, advs, i, e, lead).Success? ==>
              var w := Scan(command, advs, i, e, lead).value.0;
              w == e.(force := w.force, vitesse := w.vitesse)
    decreases |command| - i
  {
    if i < |command| && !Known(advs, command[i]) {
      if command[i] == WeaponMarker {
        if i + 1 < |command| {
          ScanKeepsIdentity(command, advs, i + 1, ApplyWeapon(e, command[i + 1], lead), lead);
        }
      } else {
        ScanKeepsIdentity(command, advs, i + 1, e, lead);
      }
    }
  }

  /** One of `search_entities`' two `for` loops: tokens at indices above `nb`
      are read in order; a known adventurer's name ends the loop (and is
      reported as `stop`), a `-weapon` applies the category that follows it. */
  method ScanModifiers(command: seq<string>, advs: seq<Adventurer>, nb: nat, e: Entity, lead: bool)
    returns (r: Result<(Entity, nat), ScanError>)
    ensures r == Scan(command, advs, nb + 1, e, lead)
  {
    var side := e;
    var i := 0;
    while i < |command|
      invariant 0 <= i <= |command|
      invariant i <= nb + 1 ==> side == e
      invariant Scan(command, advs, nb + 1, e, lead) == Scan(command, advs, if i <= nb + 1 then nb + 1 else i, side, lead)
    {
      if i > nb {
        var found := GetAdventurer(advs, command[i]);
        if found.Some? {
          return Success((side, i));
        }
        if command[i] == WeaponMarker {
          if i + 1 >= |command| {
            return Failure(MissingWeaponCategory(i));
          }
          var category := command[i + 1];
          if category == "Leger" {
            side := side.(force := side.force * 0.9);
            if lead {
              side := side.(force := side.force + (0.25 - QuarterRem(side.force)));
            }
            side := side.(vitesse := side.vitesse * 1.05);
          } else if category == "Moyen" {
          } else if category == "Lourd" {
            side := side.(force := side.force * 1.1);
            side := side.(vitesse := side.vitesse * 0.9);
          } else {
            side := side.(force := side.force * 0.85);
            side := side.(vitesse := side.vitesse * 1.075);
          }
        }
      }
      i := i + 1;
    }
    return Success((side, |command|));
  }

  /** `search_entities`. */
  method SearchEntities(command: seq<string>, advs: seq<Adventurer>, races: seq<StatsRace>, derive: Derivation)
    returns (r: Result<Entities, ScanError>)
    ensures r == Search(command, advs, races, derive)
  {
    if |command| < 2 {
      return Failure(MissingEntity);
    }
    var nb := 1;
    var first := SetEntityStats(command[nb], advs, races, derive);
    if first.None? {
      return Failure(UnknownAdventurer(command[nb]));
    }
    var scanOne := ScanModifiers(command, advs, nb, first.value, true);
    if scanOne.Failure? {
      return Failure(scanOne.error);
    }
    var one := scanOne.value.0;
    if scanOne.value.1 < |command| {
      nb := scanOne.value.1;
    }
    var secondEntity := SetEntityStats(command[nb], advs, races, derive);
    if secondEntity.None? {
      return Failure(UnknownAdventurer(command[nb]));
    }
    var scanTwo := ScanModifiers(command, advs, nb, secondEntity.value, false);
    if scanTwo.Failure? {
      return Failure(scanTwo.error);
    }
    var second := scanTwo.value.0;
    one := one.(force := one.force + (0.25 - QuarterRem(one.force)));
    one := one.(vitesse := one.vitesse + (0.25 - QuarterRem(one.vitesse)));
    second := second.(force := second.force + (0.25 - QuarterRem(second.force)));
    second := second.(vitesse := second.vitesse + (0.25 - QuarterRem(second.vitesse)));
    r := Success(Entities(one, second));
  }
}
