/** The race table of `src/stats.rs`: one baseline per race name, searched
    with a loop that keeps the last entry whose name matches, and a zero
    sentinel named "Erreur" when none does. The table is passed in instead
    of being read from the file named by `STATS_RACE_JSON`. */
module RaceStats {

  import opened Base

  datatype StatsRace = StatsRace(
    race: string,
    force: u8,
    resistance: u8,
    vitesse: u8,
    forceMagique: u8,
    resistanceMagique: u8)

  /** The five individually rolled values of an adventurer. The stats module
      that defines them is not part of this model; the derivation below only
      consumes them. */
  datatype IvStats = IvStats(
    force: int,
    resistance: int,
    vitesse: int,
    forceMagique: int,
    resistanceMagique: int)

  /** The derived battle statistics (the `Stats` record of the stats module). */
  datatype Stats = Stats(
    force: real,
    resistance: real,
    vitesse: real,
    resistanceMagique: real,
    forceMagique: real)

  /** `calc_stats(iv, level, baseline, None)`: the derivation formula lives in a
      file that is not part of this model, so callers receive it as a parameter. */
  type Derivation = (IvStats, u8, StatsRace) -> Stats

  /** The value `get_race_stats` starts from and returns when nothing matches. */
  const Unknown := StatsRace("Erreur", 0, 0, 0, 0, 0)

  /** `j` is the position of the last entry of `data` named `race`. */
  predicate IsLastMatch(data: seq<StatsRace>, race: string, j: int) {
    && 0 <= j < |data|
    && data[j].race == race
    && forall k :: j < k < |data| ==> data[k].race != race
  }

  /** The entry `get_race_stats` settles on: the last one whose race is exactly
      `race`, or the sentinel; its race is always the query or "Erreur". */
  function LastMatch(data: seq<StatsRace>, race: string): (r: StatsRace)
    ensures r.race == race || r == Unknown
  {
    if data == [] then Unknown
    else if data[|data| - 1].race == race then data[|data| - 1]
    else LastMatch(data[..|data| - 1], race)
  }

  /** Nothing matches: the sentinel with all five attributes 0. Several entries
      match: the last of them, unchanged. */
  lemma LastMatchSpec(data: seq<StatsRace>, race: string)
    ensures (forall i :: 0 <= i < |data| ==> data[i].race != race) ==> LastMatch(data, race) == Unknown
    ensures forall j :: IsLastMatch(data, race, j) ==> LastMatch(data, race) == data[j]
  {
    if forall i :: 0 <= i < |data| ==> data[i].race != race {
      LastMatchNone(data, race);
    }
    forall j | IsLastMatch(data, race, j)
      ensures LastMatch(data, race) == data[j]
    {
      LastMatchAt(data, race, j);
    }
  }

  lemma {:induction false} LastMatchNone(data: seq<StatsRace>, race: string)
    requires forall i :: 0 <= i < |data| ==> data[i].race != race
    ensures LastMatch(data, race) == Unknown
  {
    if data != [] {
      var prefix := data[..|data| - 1];
      assert forall i :: 0 <= i < |prefix| ==> prefix[i] == data[i];
      LastMatchNone(prefix, race);
    }
  }

  lemma {:induction false} LastMatchAt(data: seq<StatsRace>, race: string, j: int)
    requires IsLastMatch(data, race, j)
    ensures LastMatch(data, race) == data[j]
  {
    var n := |data| - 1;
    if j < n {
      var prefix := data[..n];
      assert data[n].race != race;
      assert prefix[j] == data[j];
      assert forall k :: j < k < n ==> prefix[k] == data[k];
      LastMatchAt(prefix, race, j);
    }
  }

  /** `get_race_stats`: a scan over the whole table that overwrites its answer on
      every match and never stops early. */
  method GetRaceStats(data: seq<StatsRace>, race: string) returns (res: StatsRace)
    ensures res == LastMatch(data, race)
  {
    res := Unknown;
    var i := 0;
    while i < |data|
      invariant 0 <= i <= |data|
      invariant res == LastMatch(data[..i], race)
    {
      assert data[..i + 1][..i] == data[..i];
      if data[i].race == race {
        res := data[i];
      }
      i := i + 1;
    }
    assert data[..i] == data;
  }
}
