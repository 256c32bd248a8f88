# DanjonBot attack engine, in Dafny

DanjonBot is a Discord bot for a tabletop role-playing campaign. This project
models the part of it that resolves an attack between two adventurers:

- the attack command (`src/commands/roll.rs`):
  - `search_entities` turns the command's tokens into two combatants. It reads
    `-weapon <category>` modifiers, multiplies force and speed, and rounds both
    up to the next quarter unit.
  - `result_roll_vitesse` decides who strikes first. It buckets the speed gap
    against five thresholds scaled by the slower side's level, and in each
    bucket a die may hand the win to the slower side.
  - `result_roll_attack` sets the winner's force against the loser's
    resistance, and picks the power tier and the weapon's durability loss.
  - `attack_roll` chains the two.
- the race baseline lookup `get_race_stats` (`src/stats.rs`).
- the adventurer lookup `get_adventurer` and the character sheet the bot prints
  (`src/commands/adventurer.rs`): the `Display` implementations of
  `Adventurer`, `Jobs`, `Physical`, `Magic`, `Race` and `HealthState`.

Modelling choices:

- `f32` values are `real`.
- Rust's `%` on floats truncates toward zero; `QuarterRound` writes it out.
- The random generator is a parameter `die: int -> int`: `die(n)` is the face
  that `gen_range(1..=n)` shows.
- The JSON files the source reads are parameters: the adventurer list, the
  race table and the `DIFF_STATS` thresholds.
- `calc_stats` is a parameter (`Derivation`), and so is the display of `Stats`.
- Each `unwrap` or index that would panic is an error value (`ScanError`).

Modules:

- `Base`: `u8`, `Option`, `Result`.
- `Text`: decimal rendering and `join`, with the parsers that read them back.
- `RaceStats`: `get_race_stats`.
- `Adventurers`: the adventurer record, its displays and `get_adventurer`.
- `QuarterRound`: `x += 0.25 - x % 0.25`.
- `Tiers`: `DiffStatsState`, `DiffStats` and the bucketing.
- `Entities`: `set_entity_stats` and `search_entities`.
- `SpeedRoll`: `result_roll_vitesse`.
- `AttackRoll`: `result_roll_attack` and `attack_roll`.

The loops of the source are methods proved against specification functions:

- `GetRaceStats` against `LastMatch`;
- `GetAdventurer` against `FindAdventurer`;
- `ScanModifiers` against `Scan`;
- `SearchEntities` against `Search`;
- `WriteMagical` against `MagicList`;
- `AdventurerText` against `SheetHeader` and `MagicalSuffix`.

Properties of the source are proved about those functions. The two
hand-unrolled `match` ladders of the resolver are proved equal to a reference
definition by bucket (`Band`, `Above`, `Below`, `UsureOf`).

## Model

| member | source | states |
|---|---|---|
| RaceStats.LastMatch | src/stats.rs:29-44 | the answer is always an entry for the queried race or the "Erreur" sentinel |
| RaceStats.LastMatchSpec | src/stats.rs:29-44 | no matching entry gives the sentinel with every attribute 0; otherwise the LAST matching entry is returned unchanged, because later matches overwrite earlier ones |
| RaceStats.GetRaceStats | src/stats.rs:24-45 | the full loop over the table, without an early exit, returns exactly `LastMatch` |
| Adventurers.FindAdventurer | src/commands/adventurer.rs:238-247 | a found adventurer carries exactly the requested name |
| Adventurers.FindAdventurerSpec | src/commands/adventurer.rs:238-247 | `None` exactly when no adventurer has the name; otherwise the FIRST adventurer with it |
| Adventurers.GetAdventurer | src/commands/adventurer.rs:238-247 | the loop with its early return yields `FindAdventurer` |
| Adventurers.RaceNameDistinguishes | src/commands/adventurer.rs:185-202 | the display is "None" exactly for JiaodanHumain and JiaodanDragon; every other race has a name no other race shares |
| Adventurers.JobLabelsDistinct | src/commands/adventurer.rs:101-121 | the nineteen job labels are pairwise distinct, so each listed entry names exactly one job |
| Adventurers.EntryRoundTrip | src/commands/adventurer.rs:126 | an entry "<label> <count>" reads back as its label (spaces included) and its count |
| Adventurers.EntriesMembers | src/commands/adventurer.rs:123-127 | the filtered list is empty iff every count is 0; every non-zero field is listed, and only those |
| Adventurers.EntriesAppend | src/commands/adventurer.rs:123-127 | filter and map keep the order of the fields |
| Adventurers.JobsTextNone | src/commands/adventurer.rs:129-133 | the jobs display is "Aucun métier" exactly when all nineteen counts are 0; otherwise it is the ", "-join of the entries |
| Adventurers.PhysicalTextRoundTrip | src/commands/adventurer.rs:149-153 | the "actual/max" text parses back to the two counters |
| Adventurers.MagicTextCounter | src/commands/adventurer.rs:162-166 | a magic entry is a space, the name, a space and the same counter format, which parses back to its two values |
| Adventurers.MagicalSuffixShape | src/commands/adventurer.rs:63-72 | with no magic the sheet only closes its fence; otherwise "Energie magique:" is followed by each entry in order |
| Adventurers.ShownStatsKeys | src/commands/adventurer.rs:31-56 | a Jiaodan is shown with its human then its dragon stats; every other race with the baseline under its display name |
| Adventurers.WriteMagical | src/commands/adventurer.rs:66-69 | the loop writes the magic entries in list order |
| Adventurers.AdventurerText | src/commands/adventurer.rs:29-74 | the sheet is the header lines (with one or two stats lines by race) followed by the magic suffix |
| QuarterRound.RoundUp | src/commands/roll.rs:196-199 | the result is strictly above the input and on the quarter grid, and at most a quarter above it for a non-negative input |
| QuarterRound.RoundUpNoFixedPoint | src/commands/roll.rs:196-199 | a value already on the grid still moves up a full quarter |
| QuarterRound.RoundUpLeast | src/commands/roll.rs:196-199 | for a non-negative input the result is the least grid point strictly above it |
| QuarterRound.RoundUpMonotone | src/commands/roll.rs:196-199 | rounding preserves order |
| Tiers.TierTextDistinct | src/commands/roll.rs:29-45 | the eleven tier texts are pairwise distinct |
| Tiers.Band | src/commands/roll.rs:219-275 | the bucket is the first threshold the value is below, or 5 when it is below none |
| Tiers.BandMonotone | src/commands/roll.rs:219-275 | a larger value never lands in an earlier bucket |
| Tiers.ScaledAscending | src/commands/roll.rs:214-218 | scaling the thresholds by a level keeps them in ascending order |
| Tiers.UsureOrdered | src/commands/roll.rs:367-419 | a better power tier never costs more durability, and distinct tiers cost distinct amounts |
| Entities.SetEntityStats | src/commands/roll.rs:114-134 | fails exactly when the adventurer is unknown; otherwise takes name, level and derived stats of the first adventurer with that name |
| Entities.EntityMatchesSheet | src/commands/roll.rs:114-134 | the entity fights with the first stats its sheet shows |
| Entities.WeaponKeepsIdentity | src/commands/roll.rs:149-164 | a weapon changes force and speed only |
| Entities.WeaponOrdering | src/commands/roll.rs:149-164 | Moyen changes nothing; Lourd raises force and lowers speed; Leger raises speed; every unrecognised category acts like every other and lowers force while raising speed |
| Entities.LeadLightWeapon | src/commands/roll.rs:150-154 | entity one's light weapon leaves its force on the quarter grid; the penalty survives above 2.5 and vanishes at exactly 2.5 |
| Entities.HeavyCompounds | src/commands/roll.rs:156-159 | n heavy modifiers multiply force by 1.1^n and speed by 0.9^n |
| Entities.ScanStops | src/commands/roll.rs:142-168 | a scan stops at the first token naming a known adventurer; it fails exactly when no such name comes before a trailing `-weapon` |
| Entities.ScanPairs | src/commands/roll.rs:142-168 | a run of `-weapon c` pairs, whether it ends the command or is followed by a known name, applies the categories in order and stops right after the run |
| Entities.ScanKeepsIdentity | src/commands/roll.rs:142-195 | a scan changes only force and speed |
| Entities.ScanModifiers | src/commands/roll.rs:142-168 | the imperative loop, with its `i > nb` guard and in-place updates, computes `Scan` from `nb + 1` |
| Entities.SplitIndex | src/commands/roll.rs:142-147 | the second entity's index is the first token from index 2 that names a known adventurer, or 1 when there is none |
| Entities.SearchNames | src/commands/roll.rs:136-204 | entity one is named by `command[1]` and entity two by the token at the split index, which is `command[1]` again when no later name appears |
| Entities.SearchOutcome | src/commands/roll.rs:136-204 | a short command or an unknown first name fails; with a known first name and no trailing `-weapon` the search succeeds |
| Entities.SearchTrailingWeapon | src/commands/roll.rs:142-195 | with a known first name, the search fails exactly when a `-weapon` ends the command and no known name lies between the start of the side being scanned (entity two's, or entity one's when there is no second name) and that marker |
| Entities.SearchPairs | src/commands/roll.rs:136-204 | for `cmd n1 <pairs c1> n2 <pairs c2>`, entity one is n1's entity with c1 applied in order and rounded, and entity two is n2's with c2 applied in order and rounded |
| Entities.SearchOneName | src/commands/roll.rs:136-204 | with a single name, entity two is the same adventurer scanned again from index 2: both sides get the same modifiers, and only entity one rounds after a light weapon |
| Entities.SearchStats | src/commands/roll.rs:136-204 | both entities end with force and speed on the quarter grid; level, resistance and magic stats are those derived for the adventurers |
| Entities.SearchEntities | src/commands/roll.rs:136-204 | the method computes `Search` |
| SpeedRoll.SpeedStage | src/commands/roll.rs:206-350 | the speed stage by bucket: in bucket k a (k+2)-faced die's top face gives the slower side the "sous-" tier; beyond domination the faster side wins outright; the loser is the other side; the power fields are untouched |
| SpeedRoll.SpeedParties | src/commands/roll.rs:343-347 | the winner is one of the two entities, and with distinct names the loser is the other one |
| SpeedRoll.SpeedTie | src/commands/roll.rs:212-213 | on equal speeds entity two counts as faster, so entity one wins only when the two-faced die shows 2 |
| SpeedRoll.SpeedDomination | src/commands/roll.rs:270-273 | when the gap passes the scaled domination threshold and is at least every other threshold, the faster side wins with Domination whatever the die shows |
| SpeedRoll.SpeedDominationAscending | src/commands/roll.rs:212-273 | with thresholds in ascending order, passing the scaled domination threshold alone gives the faster side Domination |
| SpeedRoll.HeldSpeedTierMonotone | src/commands/roll.rs:219-275 | without an upset a wider gap never earns a lower tier, except exactly at the domination threshold |
| SpeedRoll.HeldSpeedTierAtDomination | src/commands/roll.rs:270-274 | a gap exactly at the domination threshold keeps the incoming tier, below Surpuissance |
| AttackRoll.PowerArmTier | src/commands/roll.rs:368-419 | each power ladder equals the tier of the margin by bucket plus the fixed durability table |
| AttackRoll.PowerStage | src/commands/roll.rs:352-476 | the attack keeps the speed verdict; the power tier is that of the winner's force minus the loser's resistance; the durability loss is fixed by that tier |
| AttackRoll.UsureRange | src/commands/roll.rs:367-473 | the loss is one of eleven values: at least 3 for a blow that does not beat the resistance, at most 3 for one that does |
| AttackRoll.UsureAntitone | src/commands/roll.rs:367-419 | a larger force margin never yields a lower tier or a higher durability loss |
| AttackRoll.WorkedExample | src/commands/roll.rs:395-410 | a margin of 20.25 against a level-10 defender with thresholds 0.5/1/2/4/8 is Efficace and costs 1 |
| AttackRoll.WinnerCanLandWeakBlow | src/commands/roll.rs:352-476 | a speed winner with Domination can still land a sous-domination blow that costs 8 |
| AttackRoll.AttackRollCommand | src/commands/roll.rs:478-488 | fails exactly when the entity search fails, with the same error; otherwise rolls the attack on the entities found |
| SpeedRoll.ResultRollVitesse | src/commands/roll.rs:206-350 | the mirrored speed ladders of both sides; its contract is stated by `SpeedStage`, `SpeedParties`, `SpeedTie` and `SpeedDomination` |
| AttackRoll.PowerArm | src/commands/roll.rs:368-419 | one side's power ladder; its contract is stated by `PowerArmTier` |
| AttackRoll.ResultRollAttack | src/commands/roll.rs:352-476 | the speed stage followed by the winner's power ladder; its contract is stated by `PowerStage`, `UsureRange` and `WinnerCanLandWeakBlow` |
| Entities.Scan | src/commands/roll.rs:142-195 | one side's token scan; its contract is stated by `ScanStops`, `ScanPairs` and `ScanKeepsIdentity` |
| Entities.Search | src/commands/roll.rs:136-204 | the whole entity search; its contract is stated by `SearchNames`, `SearchOutcome`, `SearchTrailingWeapon`, `SearchPairs`, `SearchOneName` and `SearchStats` |
| Entities.ApplyWeapon | src/commands/roll.rs:149-164 | one `-weapon` modifier (the second side's arms are at roll.rs:177-191); its contract is stated by `WeaponKeepsIdentity`, `WeaponOrdering`, `LeadLightWeapon` and `HeavyCompounds` |
| Entities.EntityOf | src/commands/roll.rs:114-134 | the entity built for an adventurer; its contract is stated by `EntityMatchesSheet` and `SetEntityStats` |
| Entities.Finish | src/commands/roll.rs:196-199 | the final rounding of force and speed; its contract is stated by `RoundUp` and `SearchStats` |
| Adventurers.RaceName | src/commands/adventurer.rs:185-202 | the race display; its contract is stated by `RaceNameDistinguishes` |
| Adventurers.JobsText | src/commands/adventurer.rs:99-134 | the jobs display; its contract is stated by `JobsTextNone`, `EntriesMembers`, `EntriesAppend`, `EntryRoundTrip` and `JobLabelsDistinct` |
| Adventurers.PhysicalText | src/commands/adventurer.rs:149-153 | the physical energy display; its contract is stated by `PhysicalTextRoundTrip` |
| Adventurers.MagicText | src/commands/adventurer.rs:162-166 | the magic energy display; its contract is stated by `MagicTextCounter` |
| Adventurers.MagicalSuffix | src/commands/adventurer.rs:63-72 | the magic part of the sheet; its contract is stated by `MagicalSuffixShape` |
| Adventurers.HealthStateTextDistinct | src/commands/adventurer.rs:218-227 | the four wound states are displayed as four distinct texts |
| Adventurers.HealthStateText | src/commands/adventurer.rs:218-227 | the wound state display; its contract is stated by `HealthStateTextDistinct` |
| Tiers.TierText | src/commands/roll.rs:29-45 | the tier display; its contract is stated by `TierTextDistinct` |
| Tiers.UsureOf | src/commands/roll.rs:367-473 | the durability loss of each power tier, between 0 and 8; ordered by `UsureOrdered` |

## Left out

- Discord I/O, `println!`, and the text of the `AttackResult` reply (roll.rs:64-72) are not modelled.
- The environment variables, file opening and JSON decoding are not modelled. Their data (the adventurer list, the race table, the thresholds) are parameters, and the thresholds are the same record for both stages, as both read the same file.
- `thread_rng` is replaced by the `die` parameter. The model does not say that faces are uniform or how likely an outcome is.
- `calc_stats`, `IvStats` and `Stats` are defined outside `src/stats.rs`, and that code is not part of this model. The derivation is the `derive` parameter, and the display of `Stats` is the `showStats` parameter.
- `f32` rounding, overflow to infinity and NaN are not modelled: stats are exact reals.
- The `Default` instances of `Entity` and `Entities` (roll.rs:80-112) are not modelled. They are overwritten before use, except the `..Default::default()` fill, which sets no field.
- A panic (`unwrap` on a missing adventurer, an out-of-range `command[...]`) is an error value. The model does not distinguish a panic from a reply.
- Errors from the formatter inside the `Display` implementations (`?`) are not modelled: writing always succeeds.
- `read_adventurer_stat`, `get_adventurers`, `src/commands/meteo.rs`, `src/commands/ping.rs` and `src/main.rs` are outside the modelled core.
- `src/stats.rs` does not compile as written: it has `vec<StatsRace>`, a `&str` assigned to a `String` field, and an assignment to an immutable `res`. The model follows the evident intent: a `Vec`, the string "Erreur", and a mutable binding.
- roll.rs:407-410 makes a margin of 20.25 against a level-10 defender with thresholds 0.5/1/2/4/8 (scaled to 5/10/20/40/80) Efficace with a loss of 1, as `AttackRoll.WorkedExample` states.
- In the speed stage a gap exactly equal to the scaled domination threshold falls to the last arm (roll.rs:274, 338). That arm sets the winner but keeps the incoming tier, Neutre. The model keeps this as written; `SpeedRoll.HeldSpeedTierAtDomination` exhibits it.
- Only entity one rounds its force again right after a light weapon (roll.rs:152); the second entity does not (roll.rs:179-180). The model keeps the asymmetry.
- AttackRoll.AttackRollCommand: the `split_whitespace` tokenisation of the message (roll.rs:479-484) is not modelled. The method takes the token list, so it also admits empty tokens and tokens holding whitespace, which the source never produces.
