/** The adventurer records of `src/commands/adventurer.rs`: the lookup by name
    that the attack command relies on, and the deterministic parts of their
    display (jobs, race, energy counters, and the adventurer sheet itself).
    The adventurer list is passed in instead of being read from the file
    named by `ADVENTURER_JSON`. */
module Adventurers {

  import opened Base
  import opened Text
  import opened RaceStats

  datatype Race =
    | Jiaodan
    | JiaodanHumain
    | JiaodanDragon
    | Marwoeth
    | Demon
    | Elfe
    | Ange
    | FerosumPassif
    | FerosumExtreme
    | Horya
    | Humain
    | Gwisin
    | Stens

  /** The `Race` display, which is also the key under which a race's baseline
      is looked up. */
  function RaceName(r: Race): string {
    match r
    case Jiaodan => "JiaodanHumain"
    case Marwoeth => "Marwoeth"
    case Demon => "Demon"
    case Elfe => "Elfe"
    case Ange => "Ange"
    case FerosumPassif => "Ferosum Passif"
    case FerosumExtreme => "Ferosum Extreme"
    case Horya => "Horya"
    case Humain => "Humain"
    case Gwisin => "Gwisin"
    case Stens => "Stens"
    case _ => "None"
  }

  /** The two half-races have no name of their own; every other race has one,
      and no two of those share it. */
  lemma RaceNameDistinguishes(r1: Race, r2: Race)
    ensures RaceName(r1) == "None" <==> r1 == JiaodanHumain || r1 == JiaodanDragon
    ensures RaceName(r1) == RaceName(r2) && r1 != r2 ==>
              RaceName(r1) == "None" && RaceName(r2) == "None"
  {
  }

  datatype Jobs = Jobs(
    alchimistePharmacien: u8,
    alchimisteArtificer: u8,
    chevalier: u8,
    archer: u8,
    combattant: u8,
    escarpe: u8,
    medecin: u8,
    dresseur: u8,
    chasseur: u8,
    agriculteur: u8,
    couturier: u8,
    historien: u8,
    forgeron: u8,
    cartographe: u8,
    cuisinier: u8,
    erudit: u8,
    musicien: u8,
    machiniste: u8,
    ingenieur: u8)

  /** The job labels, in the order the display lists them. */
  const JobLabels: seq<string> := [
    "Alchimiste pharmacien", "Alchimiste artificer", "Chevalier", "Archer",
    "Combattant", "Escarpe", "Medecin", "Dresseur", "Chasseur", "Agriculteur",
    "Couturier", "Historien", "Forgeron", "Cartographe", "Cuisinier", "Erudit",
    "Musicien", "Machiniste mécanicien", "Machiniste ingénieur"]

  /** The counts of `j`, in declaration order. */
  function JobCounts(j: Jobs): (counts: seq<u8>)
    ensures |counts| == |JobLabels|
  {
    [j.alchimistePharmacien, j.alchimisteArtificer, j.chevalier, j.archer,
     j.combattant, j.escarpe, j.medecin, j.dresseur, j.chasseur, j.agriculteur,
     j.couturier, j.historien, j.forgeron, j.cartographe, j.cuisinier, j.erudit,
     j.musicien, j.machiniste, j.ingenieur]
  }

  function JobFields(j: Jobs): (fields: seq<(string, u8)>)
    ensures |fields| == |JobLabels|
    ensures forall i :: 0 <= i < |fields| ==> fields[i] == (JobLabels[i], JobCounts(j)[i])
  {
    var counts := JobCounts(j);
    seq(|JobLabels|, i requires 0 <= i < |JobLabels| => (JobLabels[i], counts[i]))
  }

  /** `format!("{} {}", name, count)`. */
  function EntryText(field: (string, u8)): string {
    field.0 + " " + NatToString(field.1 as nat)
  }

  /** Reads an entry `"<label> <count>"` back: the label is everything before
      the last space, the count is the digits after it. */
  function ParseEntry(e: string): Option<(string, nat)> {
    var k := LastIndexOf(e, ' ');
    if k >= 0 && AllDigits(e[k + 1..]) then Some((e[..k], ParseNat(e[k + 1..]))) else None
  }

  /** An entry reads back as the label and count it was written from, even
      when the label itself holds spaces ("Alchimiste pharmacien"). */
  lemma EntryRoundTrip(field: (string, u8))
    ensures ParseEntry(EntryText(field)) == Some((field.0, field.1 as nat))
  {
    var name, digits := field.0, NatToString(field.1 as nat);
    var e := EntryText(field);
    assert e == name + " " + digits;
    assert e[|name|] == ' ';
    assert forall j :: |name| < j < |e| ==> e[j] == digits[j - |name| - 1];
    var k := LastIndexOf(e, ' ');
    assert k == |name|;
    assert e[..k] == name;
    assert e[k + 1..] == digits;
    ParseNatToString(field.1 as nat);
  }

  /** No two jobs share a label, so with `EntryRoundTrip` every listed entry
      names exactly one job and its count. */
  lemma JobLabelsDistinct()
    ensures forall i, k :: 0 <= i < k < |JobLabels| ==> JobLabels[i] != JobLabels[k]
  {
  }

  /** The filter (count > 0) and map (to `EntryText`) of the jobs display. */
  function Entries(fields: seq<(string, u8)>): seq<string> {
    if fields == [] then []
    else (if fields[0].1 > 0 then [EntryText(fields[0])] else []) + Entries(fields[1..])
  }

  /** The filter keeps the order of the fields: listing two groups of fields
      one after the other lists their entries one after the other. */
  lemma {:induction false} EntriesAppend(a: seq<(string, u8)>, b: seq<(string, u8)>)
    ensures Entries(a + b) == Entries(a) + Entries(b)
  {
    if a == [] {
      assert a + b == b;
    } else {
      assert (a + b)[0] == a[0];
      assert (a + b)[1..] == a[1..] + b;
      EntriesAppend(a[1..], b);
    }
  }

  /** Exactly the fields with a non-zero count are listed, and nothing else. */
  lemma {:induction false} EntriesMembers(fields: seq<(string, u8)>)
    ensures Entries(fields) == [] <==> forall i :: 0 <= i < |fields| ==> fields[i].1 == 0
    ensures forall i :: 0 <= i < |fields| && fields[i].1 > 0 ==> EntryText(fields[i]) in Entries(fields)
    ensures forall e :: e in Entries(fields) ==>
              exists i :: 0 <= i < |fields| && fields[i].1 > 0 && e == EntryText(fields[i])
  {
    if fields != [] {
      var rest := fields[1..];
      EntriesMembers(rest);
      forall e | e in Entries(fields)
        ensures exists i :: 0 <= i < |fields| && fields[i].1 > 0 && e == EntryText(fields[i])
      {
        if e in Entries(rest) {
          var i :| 0 <= i < |rest| && rest[i].1 > 0 && e == EntryText(rest[i]);
          assert fields[i + 1] == rest[i];
        }
      }
      forall i | 0 <= i < |fields| && fields[i].1 > 0
        ensures EntryText(fields[i]) in Entries(fields)
      {
        if i > 0 {
          assert rest[i - 1] == fields[i];
        }
      }
      if Entries(fields) == [] {
        forall i | 0 <= i < |fields|
          ensures fields[i].1 == 0
        {
          if i > 0 {
            assert rest[i - 1] == fields[i];
          }
        }
      }
    }
  }

  /** What the jobs display says when every count is 0. */
  const NoJob := "Aucun métier"

  /** The `Jobs` display. */
  function JobsText(j: Jobs): string {
    var entries := Entries(JobFields(j));
    if entries == [] then NoJob else Join(entries, ", ")
  }

  lemma NoJobHasNoDigit()
    ensures forall i :: 0 <= i < |NoJob| ==> !IsDigit(NoJob[i])
  {
  }

  /** The display says "Aucun métier" exactly when all nineteen counts are 0;
      otherwise it lists the entries of the non-zero counts. */
  lemma JobsTextNone(j: Jobs)
    ensures JobsText(j) == NoJob <==> forall i :: 0 <= i < |JobLabels| ==> JobCounts(j)[i] == 0
    ensures JobsText(j) != NoJob ==> JobsText(j) == Join(Entries(JobFields(j)), ", ")
  {
    var fields := JobFields(j);
    var entries := Entries(fields);
    EntriesMembers(fields);
    if entries != [] {
      var e := entries[0];
      assert e in entries;
      var i :| 0 <= i < |fields| && fields[i].1 > 0 && e == EntryText(fields[i]);
      var digits := NatToString(fields[i].1 as nat);
      assert e == fields[i].0 + " " + digits;
      assert IsDigit(e[|e| - 1]);
      JoinStartsWithFirst(entries, ", ");
      var text := Join(entries, ", ");
      assert text[..|e|] == e;
      if |text| == |NoJob| {
        assert text[|e| - 1] == e[|e| - 1];
        NoJobHasNoDigit();
      }
    }
  }

  datatype HealthState = Aucune | Important | DeathDoor | Mort

  function HealthStateText(h: HealthState): string {
    match h
    case Aucune => "Aucune"
    case Important => "Important"
    case DeathDoor => "Death door"
    case Mort => "Mort"
  }

  /** No two wound states are displayed alike. */
  lemma HealthStateTextDistinct(h1: HealthState, h2: HealthState)
    ensures HealthStateText(h1) == HealthStateText(h2) <==> h1 == h2
  {
  }

  datatype Health = Health(state: HealthState, description: string)

  datatype Physical = Physical(actualEnergy: u8, energy: u8)

  datatype Magic = Magic(name: string, actualEnergy: u8, energy: u8)

  datatype Energy = Energy(physical: Physical, magical: seq<Magic>)

  /** The `Physical` display: `"actual/energy"`. */
  function PhysicalText(p: Physical): string {
    CounterText(p.actualEnergy as nat, p.energy as nat)
  }

  /** The `Magic` display: a leading space, the name, a space, the counter. */
  function MagicText(m: Magic): string {
    " " + m.name + " " + CounterText(m.actualEnergy as nat, m.energy as nat)
  }

  /** The physical counter reads back as the two values it was written from. */
  lemma PhysicalTextRoundTrip(p: Physical)
    ensures ParseCounter(PhysicalText(p)) == Some((p.actualEnergy as nat, p.energy as nat))
  {
    CounterRoundTrip(p.actualEnergy as nat, p.energy as nat);
  }

  /** A magic counter is written in the same format as the physical one, after
      the name, and reads back as its two values. */
  lemma MagicTextCounter(m: Magic)
    ensures MagicText(m) == " " + m.name + " " + PhysicalText(Physical(m.actualEnergy, m.energy))
    ensures ParseCounter(MagicText(m)[|m.name| + 2..]) == Some((m.actualEnergy as nat, m.energy as nat))
  {
    var p := Physical(m.actualEnergy, m.energy);
    assert MagicText(m)[|m.name| + 2..] == PhysicalText(p);
    PhysicalTextRoundTrip(p);
  }

  datatype Adventurer = Adventurer(
    id: u8,
    name: string,
    race: Race,
    rank: char,
    level: u8,
    iv: IvStats,
    jobs: Jobs,
    energy: Energy,
    health: Health)

  /** The magic entries one after the other. */
  function MagicList(ms: seq<Magic>): string {
    if ms == [] then "" else MagicList(ms[..|ms| - 1]) + MagicText(ms[|ms| - 1])
  }

  /** What the adventurer display writes after the physical energy. */
  function MagicalSuffix(ms: seq<Magic>): string {
    if |ms| == 0 then "```" else "Energie magique:" + MagicList(ms) + "\n```"
  }

  /** Without magic the sheet just closes its fence; with magic it lists every
      entry, each with its leading space, between the heading and the fence. */
  lemma {:induction false} MagicalSuffixShape(ms: seq<Magic>)
    ensures MagicalSuffix(ms) == "```" <==> ms == []
    ensures ms != [] ==> |MagicalSuffix(ms)| > 20 && MagicalSuffix(ms)[..16] == "Energie magique:"
    ensures |MagicList(ms)| >= 4 * |ms|
    ensures forall i :: 0 <= i < |ms| ==> MagicList(ms[..i + 1]) == MagicList(ms[..i]) + MagicText(ms[i])
  {
    if ms != [] {
      var n := |ms| - 1;
      MagicalSuffixShape(ms[..n]);
      assert ms[..n + 1] == ms;
      forall i | 0 <= i < |ms|
        ensures MagicList(ms[..i + 1]) == MagicList(ms[..i]) + MagicText(ms[i])
      {
        assert ms[..i + 1][..i] == ms[..i];
      }
      var s := MagicalSuffix(ms);
      assert s == "Energie magique:" + (MagicList(ms) + "\n```");
    }
  }

  /** The stats the sheet shows: a Jiaodan is shown with both its human and its
      dragon baselines, every other race with the baseline found under its own
      display name. */
  function ShownStats(a: Adventurer, races: seq<StatsRace>, derive: Derivation): (shown: seq<Stats>)
    ensures |shown| == if a.race == Jiaodan then 2 else 1
  {
    if a.race == Jiaodan then
      [derive(a.iv, a.level, LastMatch(races, "JiaodanHumain")),
       derive(a.iv, a.level, LastMatch(races, "JiaodanDragon"))]
    else
      [derive(a.iv, a.level, LastMatch(races, RaceName(a.race)))]
  }

  /** The first stats on every sheet are derived from the baseline stored
      under the race's display name; only a Jiaodan gets a second set, from the
      dragon baseline. */
  lemma ShownStatsKeys(a: Adventurer, races: seq<StatsRace>, derive: Derivation)
    ensures ShownStats(a, races, derive)[0] == derive(a.iv, a.level, LastMatch(races, RaceName(a.race)))
    ensures a.race == Jiaodan ==>
              ShownStats(a, races, derive)[1] == derive(a.iv, a.level, LastMatch(races, "JiaodanDragon"))
  {
  }

  /** The sheet's opening fence and identity lines, up to the level. */
  function SheetHead(a: Adventurer): string {
    "```\nAventurier: " + a.name + "\nRace: " + RaceName(a.race) + "\nRank: " + [a.rank]
      + "\nLevel: " + NatToString(a.level as nat) + "\n"
  }

  /** One stats line, or the human and dragon lines of a Jiaodan. */
  function StatsLines(shown: seq<Stats>, showStats: Stats -> string): string
    requires 1 <= |shown| <= 2
  {
    if |shown| == 2
    then "Stats Humain: " + showStats(shown[0]) + "\nStats Dragon: " + showStats(shown[1]) + "\n"
    else "Stats: " + showStats(shown[0]) + "\n"
  }

  /** Wounds, jobs and physical energy. */
  function SheetTail(a: Adventurer): string {
    "Blessures: " + a.health.description + " (" + HealthStateText(a.health.state) + ")"
      + "\nMétiers: " + JobsText(a.jobs) + "\nEnergie physique: " + PhysicalText(a.energy.physical) + "\n"
  }

  /** The sheet up to and including the physical energy line. */
  function SheetHeader(a: Adventurer, races: seq<StatsRace>, derive: Derivation,
                       showStats: Stats -> string): string
  {
    SheetHead(a) + StatsLines(ShownStats(a, races, derive), showStats) + SheetTail(a)
  }

  /** The loop of the `Adventurer` display that writes each magical energy in turn. */
  method WriteMagical(ms: seq<Magic>) returns (text: string)
    ensures text == MagicList(ms)
  {
    text := "";
    var i := 0;
    while i < |ms|
      invariant 0 <= i <= |ms|
      invariant text == MagicList(ms[..i])
    {
      assert ms[..i + 1][..i] == ms[..i];
      text := text + MagicText(ms[i]);
      i := i + 1;
    }
    assert ms[..i] == ms;
  }

  /** The `Adventurer` display: the sheet header, then the magical energies
      written one by one, then the closing fence. The stats display of the
      stats module is passed in as `showStats`. */
  method AdventurerText(a: Adventurer, races: seq<StatsRace>, derive: Derivation,
                       showStats: Stats -> string) returns (out: string)
    ensures out == SheetHeader(a, races, derive, showStats) + MagicalSuffix(a.energy.magical)
  {
    var shown: seq<Stats>;
    if a.race == Jiaodan {
      var human := GetRaceStats(races, "JiaodanHumain");
      var dragon := GetRaceStats(races, "JiaodanDragon");
      shown := [derive(a.iv, a.level, human), derive(a.iv, a.level, dragon)];
    } else {
      var baseline := GetRaceStats(races, RaceName(a.race));
      shown := [derive(a.iv, a.level, baseline)];
    }
    assert shown == ShownStats(a, races, derive);
    out := SheetHead(a) + StatsLines(shown, showStats) + SheetTail(a);
    ghost var header := out;
    assert header == SheetHeader(a, races, derive, showStats);
    var ms := a.energy.magical;
    if |ms| == 0 {
      out := out + "```";
    } else {
      out := out + "Energie magique:";
      var entries := WriteMagical(ms);
      out := out + entries;
      out := out + "\n```";
      assert out == header + ("Energie magique:" + MagicList(ms) + "\n```");
    }
  }

  /** `i` is the position of the first adventurer called `name`. */
  predicate IsFirstNamed(advs: seq<Adventurer>, name: string, i: int) {
    && 0 <= i < |advs|
    && advs[i].name == name
    && forall k :: 0 <= k < i ==> advs[k].name != name
  }

  /** The adventurer `get_adventurer` returns: the first one whose name is
      exactly `name`. */
  function FindAdventurer(advs: seq<Adventurer>, name: string): (r: Option<Adventurer>)
    ensures r.Some? ==> r.value.name == name
  {
    if advs == [] then None
    else if advs[0].name == name then Some(advs[0])
    else FindAdventurer(advs[1..], name)
  }

  /** The lookup fails exactly when no adventurer has that name, and otherwise
      yields the first one that does. */
  lemma {:induction false} FindAdventurerSpec(advs: seq<Adventurer>, name: string)
    ensures FindAdventurer(advs, name).None? <==> forall i :: 0 <= i < |advs| ==> advs[i].name != name
    ensures forall i :: IsFirstNamed(advs, name, i) ==> FindAdventurer(advs, name) == Some(advs[i])
  {
    if advs != [] {
      var rest := advs[1..];
      FindAdventurerSpec(rest, name);
      if advs[0].name != name {
        forall i | IsFirstNamed(advs, name, i)
          ensures IsFirstNamed(rest, name, i - 1)
        {
          assert i != 0;
        }
        if FindAdventurer(advs, name).Some? {
          var i :| 0 <= i < |rest| && rest[i].name == name;
          assert advs[i + 1].name == name;
        }
      }
    }
  }

  /** `get_adventurer`: a loop over the list that returns on the first match. */
  method GetAdventurer(advs: seq<Adventurer>, name: string) returns (r: Option<Adventurer>)
    ensures r == FindAdventurer(advs, name)
  {
    var i := 0;
    while i < |advs|
      invariant 0 <= i <= |advs|
      invariant FindAdventurer(advs[i..], name) == FindAdventurer(advs, name)
    {
      assert advs[i..][1..] == advs[i + 1..];
      if advs[i].name == name {
        return Some(advs[i]);
      }
      i := i + 1;
    }
    return None;
  }
}
