# Pokémon Sleep helper tools, modelled in Dafny

This project models the computational core of a small browser toolkit for
Pokémon Sleep and proves properties of the model. The toolkit has three
pages:

- **The level-up calculator** (`js/level.js`). It works out how much EXP, how
  many candies and how many dream shards it takes to raise a Pokémon from
  its current level to a target level. It honours the EXP type, the nature,
  the progress already made, the candies owned and a pool of mini or full
  boosted candies.
- **The Pokédex tab** (`js/pokedex.js`). It covers three bookmark lists, the
  Pokédex-order sort with its override rules, and the parsers of three data
  files: the sleep-type sections of a field, the energy tables and the
  Pokémon master list.
- **The ingredient planner** (`js/app.js`). Up to nine recipe rows share a
  week of 21 meals. The planner sums the ingredients per dish category,
  takes the largest category sum per ingredient, and subtracts seven days
  of supply.

The modules follow the program's structure:

| file | module | models |
|---|---|---|
| `wrappers.dfy` | `Wrappers` | `Option` and `Result` |
| `seqs.dfy` | `Seqs` | `find`, `indexOf`, `splice` (remove one, insert one), `filter` |
| `text.dfy` | `Text` | `trim`, `split` (on a character, on runs of a class, on line breaks), `includes`, `startsWith`, `Number(string)` |
| `level_rules.dfy` | `LevelRules` | `Math.round`/`trunc`/`ceil`, `clampInt`, `ceilDiv`, the type multipliers, `baseCandyExp`, `parseTwoColTable` |
| `level_sim.dfy` | `LevelSim` | `calcTotalNeedExp` and `simulateCandiesAndShards` |
| `level_calc.dfy` | `LevelCalc` | the arithmetic of `onCalc` |
| `bookmarks.dfy` | `Bookmarks` | `BOOKMARKS`, `initBookmarks`' repair, `hasBookmark`, `toggleBookmark`, the list update of `clearAllBookmarks` |
| `dex_order.dfy` | `DexOrder` | `sortByDexOrder` and `DEX_ORDER_OVERRIDES` |
| `field_pokemon.dfy` | `FieldPokemon` | the parser of `loadFieldPokemon` |
| `energy_map.dfy` | `EnergyMap` | the parser of `loadEnergyMap` |
| `pokemon_master.dfy` | `PokemonMaster` | the parser of `loadPokemonMaster` |
| `ingredient_calc.dfy` | `IngredientCalc` | the aggregation of `calc` |
| `meal_planner.dfy` | `MealPlanner` | `state.recipeRows` and its updates |

**Numbers.** The decimal multipliers 1.5, 1.8, 2.2, 0.82 and 1.18 are exact
`real`s.

- `Math.round(x)` is `floor(x + 1/2)`.
- `Math.trunc` and `Math.ceil` are written out with `Floor`.
- `Number(text)` is modelled for decimal literals. `None` stands for a
  result that is not a finite number.

**Loops.** Each loop of the source is a `method` with a `while` loop. It is
proved equal to a specification function, and the properties are lemmas
about that function. The bookmark lists and the recipe rows are fields the
source updates in place, so they are classes (`Bookmarks.BookmarkStore`,
`MealPlanner.Planner`).

**Behaviour of the code worth knowing.** The model keeps each of these:

- Each step's need is rounded on its own (js/level.js:139-140), so the
  steps can add up to more than the rounded total EXP (js/level.js:110).
- EXP beyond a step's need is lost: each step is filled from zero, and what
  is left in `remainExp` is dropped (js/level.js:155-180).
- The progress already made lowers only the first step, floored at 0
  (js/level.js:143-145).
- A step's shard cost is looked up at the level it starts from, `lv`
  (js/level.js:153).
- The 0.82 / 1.18 nature factor multiplies table entries that already
  depend on the nature (js/level.js:28-44), so "up" yields the least EXP
  per candy.
- A missing EXP row makes `calcTotalNeedExp` throw (js/level.js:105-107),
  while the simulation reads it as 0 (js/level.js:139).
- `onCalc`'s "enter a level" messages can never appear, because
  `clampInt` already puts both levels at 1 or more (js/level.js:221-236).
- `addRecipeRow` ends with 0 meals whatever meal count it is given,
  because it reads the still-empty meal select (js/app.js:39-76).
- A new row's meal select stays empty until the meal selects are next
  refreshed, because `addRecipeRow` refreshes them before it adds the row
  to the page, and the refresh skips rows it cannot find
  (js/app.js:96-97, 105-106). `MealPlanner.Planner.SetMeals` models a
  choice among the options a refreshed select offers.

## Model

| member | source | states |
|---|---|---|
| LevelRules.Round | js/level.js:139-140 | `Math.round` gives the integer within one half of x, halves rounding up |
| LevelRules.Trunc | js/level.js:90 | `Math.trunc` drops the fraction toward zero, for either sign |
| LevelRules.Ceil | js/level.js:95 | `Math.ceil` gives the least integer at or above x |
| LevelRules.ClampInt | js/level.js:87-91 | the result lies in [min, max]; a non-finite input gives min; the truncated value is kept when in range, and saturates to min below it and to max above it; min wins when min > max |
| LevelRules.CeilDiv | js/level.js:93-96 | Infinity exactly when b <= 0 |
| LevelRules.CeilDivLeast | js/level.js:93-96 | for b > 0 the quotient k is the least integer with k·b >= a |
| LevelRules.CeilDivPositive | js/level.js:93-96 | a positive need over a positive yield takes at least one candy |
| LevelRules.BelowCeilDivFallsShort | js/level.js:93-96 | any count below the quotient falls short of a |
| LevelRules.CeilDivBounds | js/level.js:95 | for b > 0, k = ceil(a/b) satisfies k·b >= a > (k − 1)·b |
| LevelRules.TypeMult | js/level.js:10-15 | the multiplier is 1.5 exactly for "600", 1.8 exactly for "semi", 2.2 exactly for "legend", and 1.0 for "normal" and any unknown key |
| LevelRules.ScaleByTypeIsProduct | js/level.js:108 | scaling an EXP entry by the type equals multiplying it by the multiplier |
| LevelRules.BandOf | js/level.js:23-26 | band Low iff level < 25, Mid iff 25 <= level < 30, High iff level >= 30 |
| LevelRules.BaseCandyExp | js/level.js:19-45 | the EXP per ordinary candy lies in [24.6, 35] (always positive) |
| LevelRules.BaseCandyExpValues | js/level.js:28-44 | the nine values of table entry times nature factor, per band and nature |
| LevelRules.UnknownNatureIsNeutral | js/level.js:34-42 | a nature key other than "up"/"down" yields what "none" yields |
| LevelRules.NatureOrderOfYield | js/level.js:39-44 | in every band "up" < "down" < "none" in EXP per candy |
| LevelRules.YieldNonIncreasingInLevel | js/level.js:23-31 | a higher level never yields more EXP per candy |
| LevelRules.Lookup0 | js/level.js:139 | `get(k) \|\| 0`: the entry when present, 0 when missing |
| LevelRules.RowOf | js/level.js:68-77 | blank, `#`, short and non-numeric lines give no row; any other line gives its first two fields as numbers |
| LevelRules.ParseTwoColTable | js/level.js:65-82 | the parsed map equals the table of the lines' rows, applied in order |
| LevelRules.FillTable | js/level.js:66-81 | the `forEach` loop builds exactly that table |
| LevelRules.TableOfSnoc | js/level.js:79 | one more row sets its key to its value, and no row changes nothing |
| LevelRules.TableKeys | js/level.js:65-82 | a key is in the table iff some line contributes it |
| LevelRules.LastRowWins | js/level.js:79 | a key's value comes from the last row that holds it |
| LevelSim.MinQ | js/level.js:164 | `Math.min` with a possibly infinite quotient |
| LevelSim.StepNeed | js/level.js:139-145 | every step but the first needs its rounded entry; the first gives up the progress, floored at 0 |
| LevelSim.BuyProperties | js/level.js:155-180 | boosted candies stay within the pool and are 0 with boosting off; the candies cover the need; one boosted or one ordinary candy fewer would not; ordinary candies only once the pool is used up |
| LevelSim.BuyOrdinaryOnly | js/level.js:158-180 | with boosting off or an empty pool only ordinary candies are bought, the least count that covers the need |
| LevelSim.BuyWithinPool | js/level.js:158-171 | when the pool covers the step, only boosted candies are bought |
| LevelSim.BuyBeyondPool | js/level.js:158-180 | when it does not, the whole pool is spent and ordinary candies cover the rest |
| LevelSim.StepAt | js/level.js:136-180 | a step has its level, pool and need; it uses 0..pool boosted candies; a step needing nothing buys nothing |
| LevelSim.FillStep | js/level.js:155-180 | the candy part of the loop body adds what `Buy` describes to the totals and the pool |
| LevelSim.Pass | js/level.js:136-180 | one pass of the loop changes the totals and the pool as `StepAt` says |
| LevelSim.SimulateCandiesAndShards | js/level.js:115-187 | the candies total is the walk's candies; the shards are the walk's shards, rounded once |
| LevelSim.StepProperties | js/level.js:147-177 | a step needing nothing buys nothing; no boosting means no boosted candy; shards are shard(lv) per ordinary candy and 4 (mini) or 5 (full) times that per boosted one |
| LevelSim.StepCoversNeed | js/level.js:155-180 | the purchase covers the need, is minimal for either kind, and uses at most ceil(need / boosted EXP) boosted candies |
| LevelSim.PerBoostPositive | js/level.js:159 | a boosted candy yields at least an ordinary one's EXP, which is positive |
| LevelSim.BoostDoublesExp | js/level.js:133-159 | a mini or full boosted candy yields exactly twice the EXP |
| LevelSim.TraceShape | js/level.js:136-137 | one step per level up to the target, each taking the pool the previous one left |
| LevelSim.TraceLength | js/level.js:136 | the walk has lvTarget − lv steps (none when the target is not above) |
| LevelSim.TracePoolChain | js/level.js:170 | each step's pool is the previous pool less the previous step's boosted candies |
| LevelSim.PoolShrinks | js/level.js:170 | the pool never grows and never goes negative |
| LevelSim.NoBoostOncePoolEmpty | js/level.js:158 | once the pool is empty no later step is boosted (lowest levels first) |
| LevelSim.OrdinaryCandiesEndBoosting | js/level.js:158-180 | a step that buys ordinary candies while boosting is on leaves no boosting for later steps |
| LevelSim.NoBoostNoBoosted | js/level.js:158 | with boostKind "none" the walk uses no boosted candy |
| LevelSim.BoostedWithinPool | js/level.js:164-170 | the walk uses at most the pool it starts with |
| LevelSim.SimulateBoostedWithinPool | js/level.js:131-164 | at most max(0, boostCount) boosted candies in all, and none with boostKind "none" |
| LevelSim.ProgressOnlyFirstStep | js/level.js:143-145 | only the first step is lowered by the progress |
| LevelSim.MissingExpRowBuysNothing | js/level.js:139-147 | a level missing from the EXP table costs no candy and no shard |
| LevelSim.TotalCandiesNonNegative | js/level.js:166-176 | no walk has a negative candy count |
| LevelSim.SurplusIsDiscarded | js/level.js:155-180 | a concrete walk where surplus EXP is not carried over (two candies where one would do) |
| LevelSim.StepRoundingDrift | js/level.js:139-140 | a concrete walk where per-step rounding exceeds the rounded total |
| LevelSim.FirstMissing | js/level.js:103-107 | the least level of the range without an entry, or none |
| LevelSim.TotalNeedExpErrors | js/level.js:99-111 | `calcTotalNeedExp` fails iff a level of the range is missing, names the lowest one, and gives 0 for an empty range |
| LevelSim.CalcTotalNeedExp | js/level.js:99-111 | the loop returns exactly `TotalNeedExp` |
| LevelCalc.NumberOrZero | js/level.js:227-231 | an empty field reads as 0 |
| LevelCalc.RadioOr | js/level.js:224-225 | no checked button or an empty value gives the fallback |
| LevelCalc.ReadInputs | js/level.js:221-231 | every field is clamped to its range; a non-number level gives level 1; empty counts give 0 |
| LevelCalc.Validate | js/level.js:234-239 | each message is present iff its condition holds |
| LevelCalc.BoostChoice | js/level.js:253-256 | a boost count selects "full" and wins over a mini count, which selects "mini" |
| LevelCalc.OnCalc | js/level.js:217-283 | the button gives exactly `CalcOutcome` |
| LevelCalc.Compute | js/level.js:233-270 | validation, totals, boost choice, simulation and subtraction give exactly `OutcomeOf` |
| LevelCalc.LevelMessagesNeverShown | js/level.js:221-236 | the two "enter a level" messages can never appear |
| LevelCalc.InputErrorsExactly | js/level.js:237-244 | the error box appears iff target <= current or both boost counts are positive |
| LevelCalc.MissingLevelStopsCalc | js/level.js:99-111 | valid input fails iff a level of the range has no EXP entry, naming the lowest |
| LevelCalc.ShownFigures | js/level.js:250-270 | remaining EXP = max(0, total − progress); candies after owned = max(0, candies − owned), between 0 and the total |
| LevelCalc.ShownBoostChoice | js/level.js:239-256 | a shown result uses the boost the form asked for, at most one kind |
| Bookmarks.EmptyLists | js/pokedex.js:18 | the starting lists hold all three icon ids |
| Bookmarks.RepairOne | js/pokedex.js:44-46 | an id that is not a list gets an empty one; a list is kept |
| Bookmarks.RepairedProperties | js/pokedex.js:43-46 | after the repair all three ids hold lists; existing lists and other keys are unchanged; no key is invented |
| Bookmarks.ToggledShape | js/pokedex.js:64-71 | a present name's first occurrence is removed; an absent name is appended; the multiset changes by that one name |
| Bookmarks.ToggledMembership | js/pokedex.js:64-71 | on a duplicate-free list the name's membership flips, every other name's membership is unchanged, and the list stays duplicate-free |
| Bookmarks.ToggleTwiceRestores | js/pokedex.js:64-71 | toggling an absent name twice restores the list |
| Bookmarks.HasAfterToggle | js/pokedex.js:59-71 | on a duplicate-free list, one toggle flips the name's membership and a second restores it |
| Bookmarks.BookmarkStore.Has | js/pokedex.js:59-61 | true iff that icon holds a list containing the name |
| Bookmarks.BookmarkStore.constructor | js/pokedex.js:18 | three empty lists |
| Bookmarks.BookmarkStore.Init | js/pokedex.js:38-51 | with nothing stored the lists stay; otherwise they are the repaired stored object |
| Bookmarks.BookmarkStore.Toggle | js/pokedex.js:64-74 | returns true iff the name was absent; only that icon's list changes, to `Toggled`; on a duplicate-free list `hasBookmark` flips for the name, stays for every other name and icon, and the list stays duplicate-free |
| Bookmarks.BookmarkStore.ClearAll | js/pokedex.js:77-80 | a confirmed clear empties that icon's list; otherwise nothing changes |
| DexOrder.DexIndex | js/pokedex.js:591-592 | the index map has exactly the names of the list |
| DexOrder.DexIndexIsLast | js/pokedex.js:592 | each name maps to its last position |
| DexOrder.Insert | js/pokedex.js:593-597 | inserting keeps the multiset plus the name |
| DexOrder.SortByKey | js/pokedex.js:593-597 | the sort is a permutation of its input |
| DexOrder.SortIsSorted | js/pokedex.js:593-597 | the sort orders names by dex index (99999 when unknown) |
| DexOrder.SortIsStable | js/pokedex.js:593-597 | names of equal index keep their input order |
| DexOrder.KnownBeforeUnknown | js/pokedex.js:594-595 | with fewer than 99999 Pokémon, every known name precedes every unknown one |
| DexOrder.RuleKeepsNames | js/pokedex.js:599-610 | a rule whose name is absent changes nothing; a rule with a target keeps the multiset |
| DexOrder.RuleAfterTarget | js/pokedex.js:602-605 | the name lands right after the target's first occurrence, the other names keep their order, and it goes last when the target is missing |
| DexOrder.RuleBeforeTarget | js/pokedex.js:606-609 | the name lands right before the target's first occurrence, the other names keep their order, and it goes last when the target is missing |
| DexOrder.ApplyRulesPermutes | js/pokedex.js:598-611 | rules that each name a target keep the multiset |
| DexOrder.DexSortedPermutes | js/pokedex.js:590-613 | `sortByDexOrder` returns a permutation of the names |
| DexOrder.ApplyOverride | js/pokedex.js:599-610 | the loop body applies one rule exactly as `ApplyRule` |
| DexOrder.BuildIndex | js/pokedex.js:591-592 | the `forEach` builds exactly `DexIndex` |
| DexOrder.ApplyOverrides | js/pokedex.js:598-611 | the override loop applies every rule in order, as `ApplyRules` |
| DexOrder.SortByDexOrder | js/pokedex.js:590-613 | the method returns `DexSorted` and a permutation of the names |
| FieldPokemon.EmptyResult | js/pokedex.js:270 | the three sleep types are the keys |
| FieldPokemon.HeaderKey | js/pokedex.js:276 | the key of a "・" header is trimmed |
| FieldPokemon.Step | js/pokedex.js:273-281 | a header sets the mode to its key when it is a sleep type and clears it otherwise; a body line is appended under the mode; blank lines and lines without a mode change nothing |
| FieldPokemon.LoadFieldPokemon | js/pokedex.js:269-282 | the loop returns `FieldLists`, keyed by the three sleep types |
| FieldPokemon.DroppedWithoutMode | js/pokedex.js:280 | without a mode, lines up to the next header are dropped |
| FieldPokemon.CollectedUnderMode | js/pokedex.js:280-281 | under a mode, the trimmed non-blank lines up to the next header go to that list only |
| FieldPokemon.Section | js/pokedex.js:275-281 | a valid header's section is added to its list; an unknown header's section is dropped |
| FieldPokemon.NoHeaderNoNames | js/pokedex.js:270-282 | text without a header gives three empty lists |
| EnergyMap.RowOf | js/pokedex.js:243-248 | no row iff fewer than two columns or a non-finite count; an empty energy text becomes "-" |
| EnergyMap.Step | js/pokedex.js:232-248 | each line keeps the current field's list present |
| EnergyMap.LoadEnergyMap | js/pokedex.js:227-251 | the loop returns `EnergyTables` |
| EnergyMap.ParseRow | js/pokedex.js:243-247 | the row part of the loop body gives `RowOf` |
| EnergyMap.FieldLineStartsField | js/pokedex.js:234-237 | a field line makes the field current with its table closed, keeping its rows or starting it empty |
| EnergyMap.HeaderOpensTable | js/pokedex.js:240 | the "ポケモン数" line opens the table |
| EnergyMap.TableLineAddsRow | js/pokedex.js:241-248 | in an open table a valid row is appended to the current field, and an invalid one skipped |
| EnergyMap.IgnoredLineChangesNothing | js/pokedex.js:233-245 | a blank line, a "..." line, and a non-field line before any field leave the state as it was |
| EnergyMap.ClosedTableChangesNothing | js/pokedex.js:240-241 | with the table closed, a line that is neither a field line nor the header changes nothing |
| EnergyMap.NoRowsWithoutHeader | js/pokedex.js:234-241 | from a closed table and without a header line, every field keeps its rows, a field named on the way gets none, and the table stays closed |
| EnergyMap.NoHeaderNoRows | js/pokedex.js:224-252 | text without a table header gives only empty tables |
| PokemonMaster.Columns | js/pokedex.js:167 | tab-separated columns, each trimmed |
| PokemonMaster.TextOr | js/pokedex.js:173-183 | a non-empty column is kept; a missing or empty one reads as "-", so the text is never empty |
| PokemonMaster.NumberOr | js/pokedex.js:174-184 | the result is 0 only when the default is, because `\|\|` skips a 0 |
| PokemonMaster.NumberOrValue | js/pokedex.js:174-184 | a column that reads as a non-zero number gives that number; a missing, non-numeric or zero column gives the default |
| PokemonMaster.EntryOf | js/pokedex.js:170-187 | id, name and kind are columns 0, 1 and 4; the evolution count is never 0, and type and skill names are never empty |
| PokemonMaster.StepKeepsValid | js/pokedex.js:166-197 | every line keeps index and list consistent and every group headed by itself |
| PokemonMaster.MasterOf | js/pokedex.js:157-203 | the parse is valid: the map indexes the list by name and each variations list starts with its head |
| PokemonMaster.LoadPokemonMaster | js/pokedex.js:157-203 | the loop returns exactly `MasterOf` |
| PokemonMaster.RepeatedNameJoinsGroup | js/pokedex.js:189-191 | a repeated name is appended to that group's variations and nothing new is listed |
| PokemonMaster.NewNameListed | js/pokedex.js:192-195 | a new name lists a new group whose variations are just itself |
| PokemonMaster.NamesDistinct | js/pokedex.js:189-196 | no two listed groups share a name |
| PokemonMaster.EveryLongLineKept | js/pokedex.js:166-197 | every line of five or more columns becomes exactly one entry |
| PokemonMaster.MasterKeepsEveryLine | js/pokedex.js:161-197 | the variations hold one entry per long data line after the header |
| IngredientCalc.FindRecipe | js/app.js:153 | a recipe of the list with the id (the first, by `Seqs.Find`), or none iff no recipe has it |
| IngredientCalc.PerDayOf | js/app.js:145 | one supply per field |
| IngredientCalc.WithPika | js/app.js:146-150 | the option adds exactly 12 apple, 5 cacao and 3 honey and leaves every other supply unchanged |
| IngredientCalc.Calc | js/app.js:142-175 | `calc` shows exactly `CalcResult` |
| IngredientCalc.Tiles | js/app.js:165-173 | the ingredient loop gives the tiles and their sum |
| IngredientCalc.SumByCategory | js/app.js:151-158 | each category's map holds, per ingredient, the sum over that category's rows |
| IngredientCalc.AddRecipe | js/app.js:155-157 | the entry loop adds qty·meals per entry |
| IngredientCalc.MaxAcrossCategories | js/app.js:159-164 | the resulting map holds the largest category sum (at least 0) |
| IngredientCalc.MergeLarger | js/app.js:161-163 | each ingredient keeps the larger of its running value and the category sum |
| IngredientCalc.GrossIsLargestSum | js/app.js:159-164 | the gross need is at least every category sum and 0, and is one of them or 0 |
| IngredientCalc.FinalBounds | js/app.js:168 | final = max(0, gross − 7·perDay): never negative, and at most gross for a non-negative supply |
| IngredientCalc.CatSumAppend | js/app.js:152-158 | the category sum of two row lists is the sum of their sums |
| IngredientCalc.IdleRowAddsNothing | js/app.js:153-154 | a row with an unknown recipe or meals <= 0 contributes nothing |
| IngredientCalc.RowAddsToItsCategory | js/app.js:155-157 | a row adds qty·meals to its own category and nothing to the others |
| IngredientCalc.ShownExactly | js/app.js:166-172 | every tile is a non-excluded ingredient with its positive final; every such ingredient gets a tile |
| IngredientCalc.SumOfShownNonNegative | js/app.js:170 | the grand total is never negative |
| MealPlanner.FirstOfCat | js/app.js:43 | a recipe of the list in the category (the first, by `Seqs.Find`), or none iff the category has none |
| MealPlanner.NewRow | js/app.js:39-76 | the new row has the id and category, 0 meals, and a recipe of its category: the requested one when present, the first otherwise |
| MealPlanner.MealChoices | js/app.js:107-115 | the options are 0..21 − (total − row.meals) |
| MealPlanner.ChoiceKeepsWeek | js/app.js:101-117 | any offered choice keeps the week within 21 meals |
| MealPlanner.ChoicesAreExactlyThoseThatFit | js/app.js:101-117 | a count is offered iff it is non-negative and keeps the week within 21 |
| MealPlanner.TotalAppend | js/app.js:101 | the week total of two row lists is the sum of their totals |
| MealPlanner.TotalUpdate | js/app.js:101 | changing one row's meals changes the total by the difference |
| MealPlanner.WithoutTotal | js/app.js:91-92 | removing rows never raises the total |
| MealPlanner.RemoveProperties | js/app.js:91-92 | removal keeps exactly the rows of other ids and keeps the rows valid |
| MealPlanner.RemoveKeepsOrder | js/app.js:91-92 | removing a row removes exactly it and keeps the others in order |
| MealPlanner.AddKeepsValid | js/app.js:37-46 | a new row keeps the rows valid while there is room |
| MealPlanner.Quick21FillsWeek | js/app.js:128-140 | afterwards the week has exactly 21 meals, and the rows stay valid |
| MealPlanner.Planner.constructor | js/app.js:5 | no rows |
| MealPlanner.Planner.AddRecipeRow | js/app.js:36-76 | no change at nine rows, whatever it is given; otherwise `NewRow` is appended; validity is kept |
| MealPlanner.Planner.RemoveRow | js/app.js:91-92 | the rows become `Without(rows, rowId)`, valid if they were |
| MealPlanner.Planner.SetMeals | js/app.js:75-90 | choosing an offered count updates only that row and keeps validity |
| MealPlanner.Planner.ApplyQuickSet | js/app.js:122-126 | three rows of the category's first recipe, 0 meals each |
| MealPlanner.Planner.ApplyQuick21 | js/app.js:128-140 | a default row when there are none, then 21 meals on the first row, 0 on the rest, 21 in all |
| MealPlanner.Planner.ClearAll | js/app.js:181-186 | one default row |
| Text.Trim | js/level.js:68 | the result has no white space at either end; trimmed text is unchanged; the result is empty iff all white space |
| Text.SplitOn | js/pokedex.js:167 | no piece holds the separator, and joining gives the text back |
| Text.SplitLines | js/level.js:67 | one line per piece of the split at line feeds, each without a carriage return before the feed |
| Text.SplitRuns | js/level.js:72 | no piece holds a separator; no piece is empty when the text starts and ends with a non-separator; text without separators is one piece |
| Text.JsNumber | js/level.js:75-77 | blank text reads as 0 |
| Text.JsNumberShowNat | js/level.js:75 | reading back the decimal text of a natural number gives the number |
| Seqs.Find | js/app.js:153 | `find` gives an element that passes, one with no passing element before it, or none iff no element passes |
| Seqs.IndexOf | js/pokedex.js:66 | the first index of x, or none iff x is absent |
| Seqs.RemoveAt | js/pokedex.js:68 | `splice(i, 1)` shifts the tail left and removes one occurrence from the multiset |
| Seqs.InsertAt | js/pokedex.js:604 | `splice(i, 0, x)` puts x at i and shifts the tail right |
| Seqs.Filter | js/app.js:92 | the kept elements are exactly those of the input that pass |
| Seqs.FilterConcat | js/app.js:92 | filtering distributes over concatenation |

## Left out

- The DOM, its rendering and its event handlers are not modelled, nor the HTML templates of results, tiles, previews and badges.
- `fetch`, the load-once guards and the caches are not modelled; every parser takes the fetched text as a string.
- Local storage, `JSON.parse`/`stringify`, `confirm` and `alert` are not modelled. `initBookmarks` gets the parsed object as an `Option`, and `clearAllBookmarks` gets the confirmation as a flag.
- `setupLongPress` timers, `history` navigation and the toolbar handlers are browser events and are not modelled.
- `calcAverages` and the averages display are floating-point means and are not modelled.
- `loadTypeIcons` and `loadSkillData` are left out as lookups the core does not depend on.
- js/calendar.js is not part of this model.
- Floating point is not modelled: the model computes with exact rationals, so IEEE-754 artefacts such as 35·0.82 ≠ 28.7 in binary do not appear.
- Text.JsNumber: decimal literals only. Exponent forms, hexadecimal, octal and binary literals, and "Infinity" all give `None`. For "Infinity" this is "not finite", which matches `Number.isFinite`. Where the source uses `Number(x) || d`, such a text reads as the default.
- Text.JsNumber: its own contract states only the blank case. The decimal case is stated by `Text.JsNumberShowNat`, for natural numbers.
- The `key in result` test of `loadFieldPokemon` is read as membership in the three sleep types. Object-prototype keys such as "constructor" are not modelled.
- Map insertion order is not kept, because Dafny maps are unordered. Only `calc` iterates a `Map`, and its result does not depend on the order.
- Row ids come from `Date.now()` and `Math.random()`, so they are method parameters.
- `INGREDIENTS` is given as a sequence of ids, and `RECIPES` as recipes with their ingredient entries in `Object.entries` order.
- Category and recipe select changes of an existing row (`cSel.onchange`, `rSel.onchange`) are not modelled. Nor is `updatePreview`'s re-reading of the meal select, apart from `SetMeals`.
- IngredientCalc.Calc requires every row's category to be one of the three. Otherwise `catSums[row.cat]` is undefined and the source throws.
- MealPlanner.Planner.AddRecipeRow requires, when there are fewer than nine rows, the category to be one of the three and to have a recipe. Otherwise `filtered[0]` does not exist and the source throws. The same holds for `ApplyQuickSet` and `ClearAll`, and for `ApplyQuick21` when there are no rows.
- MealPlanner.Planner.ClearAll: models only the rows. Unticking the exclusions and emptying the supply fields are DOM resets; `calc` reads those as inputs.
- `addRecipeRow` also receives a meal count, which it overwrites with 0. The model keeps only the 0.
