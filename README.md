# CCBalance in Dafny

CCBalance is a browser game about chemical equilibrium. Each level is a reversible
reaction. The player and an AI opponent take turns pushing it: one side pushes toward
the products, the other toward the reactants. Their tools are adding a species, heating,
cooling, changing the pressure and playing ability cards. Each round is scored by how
far the reaction quotient Q has moved from the equilibrium constant K, in the side's
direction.

This project models the game's logic and proves properties of it. One Dafny module
stands for each source file:

- `Chemistry` (chemistry-engine.js): the engine. It computes Q with its 1e-30 floor,
  the van 't Hoff constant K with both clamps, and the bounded shift -tanh(ln(Q/K)). It
  also holds the clamped mutators of the loaded reaction.
- `GameActions` (game-actions.js): the player's and the AI's actions, and the two
  per-actor cooldown tables that gate them.
- `AISystem` (ai-system.js): the opponent.
  - the difficulty table and the candidate actions;
  - a one-step simulation on a copy of the state;
  - scoring, a stable sort, and a top-K pick.
- `Game` (game.js): the match controller.
  - goal assignment, round scoring and settlement;
  - the round advance, the end of the match and the star rating;
  - pausing, and the AI's tick.
- `CardSystem` (card-system.js): the ability deck. Cooldowns are counted in rounds, and
  active effects expire.
- `Levels` (levels.js): the level catalogue, its lookups, and the round-start balancing.
  The balancing picks concentrations at which Q = K.
- `StorageManager` (storage-manager.js): settings and progress, kept in an in-memory
  key-to-record store.
- Smaller pieces:
  - `Utils` (utils.js): clamps, colours, chemical formulas, shuffle;
  - `ChartRenderer` (chart-renderer.js): the 50-point data window;
  - `Terminal` (terminal.js): the command terminal;
  - `KeyboardHandler` (keyboard-handler.js): the key latch;
  - `UiManager` (ui-manager.js): the UI's value mappings;
  - `ParticleSystem` (particle-system.js): the particle list;
  - `AudioManager` (audio-manager.js): audio state;
  - `ServiceWorker` (service-worker.js): byte-range responses, cache clean-up and the
    caching filters.
- Shared helpers:
  - `Reaction`: the level record;
  - `GameState`: the game's state record;
  - `MathFns`: the transcendental functions;
  - `StableSort`: the engine's comparator sort;
  - `Strings`: `trim`, `split`, `parseInt` and `toLowerCase`;
  - `Wrappers`: optional values.

How the model is built:

- **Numbers.** Concentrations, temperatures and pressures are `real`.
- **Transcendental functions.** `exp`, `ln`, `log10`, `pow10`, `tanh`, `sin` and `cos`
  are the fields of a record `Fns`. The lemmas that need their laws take them as a
  precondition (`Lawful`, `Pow10Laws`, `InverseLaws`): positivity, monotonicity,
  `tanh` odd and below 1 in size, `pow10(x + y) = pow10(x) · pow10(y)`, and
  `pow10(log10 k) = k`. The operations themselves ask nothing of them.
- **Time and randomness.** The current time (`Date.now()`, in milliseconds) and every
  `Math.random` draw, in [0, 1), are parameters.
- **Singletons.** Objects whose methods update their fields (`Game`, `GameActions`,
  `CardSystem`, the engine, the storage, the terminal, the keyboard handler, the chart,
  the particles and the audio) are classes. Their methods are tied by their `ensures` to
  the pure functions the lemmas are about.
- **Duplicate keys.** Where an object literal defines a key twice, the later one wins,
  as in the source. This gives the effective `applyCatalyst` (chemistry-engine.js:324),
  `getState` (chemistry-engine.js:386) and `resetProgress` (storage-manager.js:260).
- **Heating.** `heat` is min(T + 20, 500) (game-actions.js:88). It lowers the
  temperature only when T is already above 500 K, as in levels that start at 723 K.
  For T between 480 and 500 K it raises T to 500.

## Model

| member | source | states |
|---|---|---|
| Utils.Clamp | src/js/utils.js:30-32 | the result lies in [lo, hi], equals the value inside the range and the nearer bound outside it |
| Utils.ClampMonotone | src/js/utils.js:30-32 | clamping preserves order |
| Utils.Lerp | src/js/utils.js:37-39 | t = 0 gives start, t = 1 gives end, and t in [0, 1] stays between them |
| Utils.Random | src/js/utils.js:16-18 | a draw in [0, 1) gives a value in [min, max) |
| Utils.Percentage | src/js/utils.js:331-334 | a zero total gives 0; a value between 0 and the total gives a percentage in 0..100 |
| Utils.HexToRgb | src/js/utils.js:195-202 | a colour comes back exactly when the text is six hexadecimal digits with an optional '#', and each component is in 0..255 |
| Utils.NatToHex | src/js/utils.js:207-212 | `toString(16)` of a natural number is non-empty lower-case hexadecimal |
| Utils.RgbToHexShape | src/js/utils.js:207-212 | for components in 0..255 the colour is '#' followed by six lower-case hexadecimal digits |
| Utils.HexRoundTrip | src/js/utils.js:195-212 | reading back what rgbToHex writes gives the same three components |
| Utils.ElementsAreSymbols | src/js/utils.js:284 | every match the formula regex yields names an element symbol: one upper-case letter with an optional lower-case one |
| Utils.ElementsMatch | src/js/utils.js:284-290 | at an upper-case letter the regex takes the symbol and its digit run, and the count is 1 for an empty run and the run's value otherwise |
| Utils.ElementsSkip | src/js/utils.js:284-287 | a character that starts no symbol contributes nothing |
| Utils.ElementsWater | src/js/utils.js:282-293 | "H2O" parses to H×2 and O×1 |
| Utils.ElementsIronHydroxide | src/js/utils.js:282-293 | "Fe(OH)3" parses to Fe×1, O×1 and H×1: the group's multiplier is not applied |
| Utils.ReadDigits | src/js/utils.js:284-289 | reads the longest digit run from i and returns its end and its decimal value |
| Utils.ParseChemicalFormula | src/js/utils.js:282-293 | the collected matches are exactly the regex's matches over the whole formula, in order |
| Utils.WrapDigitsShape | src/js/utils.js:270 | after the digits rewrite no ')' is directly followed by a digit, and the text does not start with a digit |
| Utils.ReplaceCharShape | src/js/utils.js:272-273 | the charge rewrites keep that property |
| Utils.WrapParenDigitsIdentity | src/js/utils.js:275 | the `\)(\d+)` rewrite leaves such a text unchanged |
| Utils.FormatChemicalLastRewriteDead | src/js/utils.js:268-277 | formatChemical equals its first three rewrites alone: the fourth never changes anything |
| Utils.RandomChoice | src/js/utils.js:324-326 | a draw in [0, 1) on a non-empty array picks one of its elements; an empty array gives undefined |
| Utils.Pick | src/js/utils.js:324-326 | on a list known to be non-empty, as every caller passes, the pick is an element of the list and is what `randomChoice` returns |
| Utils.Swap | src/js/utils.js:316 | the destructuring swap exchanges the two cells, leaves every other cell as it was, and so permutes the array |
| Utils.CopyOf | src/js/utils.js:313 | the spread copy is a fresh array with the same elements |
| Utils.ShuffleFromPermutes | src/js/utils.js:314-317 | the swaps from any index down to 1 only rearrange the elements |
| Utils.Shuffled | src/js/utils.js:312-319 | the shuffle of a sequence has its length and is a permutation of it |
| Utils.ShuffleInPlace | src/js/utils.js:314-317 | the loop from the last index down to 1, each index swapping with its drawn index, leaves the array holding Utils.Shuffled of its old contents |
| Utils.Shuffle | src/js/utils.js:312-319 | the result is a fresh array, the input array is not changed, and the result is the Fisher–Yates shuffle Utils.Shuffled of the input for the draws, so a permutation of it |
| StorageManager.Merge | src/js/storage-manager.js:109-111 | the spread merge has the keys of both records, the overriding record's value where it has one and the base value elsewhere |
| StorageManager.WithUnlocked | src/js/storage-manager.js:141-143 | the id is in the list afterwards, nothing else is added, and an id already present leaves the list as it was |
| StorageManager.UnlockIdempotent | src/js/storage-manager.js:139-145 | unlocking twice is unlocking once, and a list without duplicates stays without duplicates |
| StorageManager.Completed | src/js/storage-manager.js:150-172 | the level's record keeps the larger star count, the total rises by exactly max(0, new − old), other records are untouched, and level id + 1 is unlocked |
| StorageManager.StarSumUpdate | src/js/storage-manager.js:158-163 | replacing one record changes the star sum by exactly the difference of that record's stars |
| StorageManager.CompletedKeepsStarTotal | src/js/storage-manager.js:150-172 | when the total was the sum of the per-level best stars, it still is after completeLevel |
| StorageManager.CompletedMonotone | src/js/storage-manager.js:150-172 | completing a level never lowers any level's stars or the total, and never removes a record |
| StorageManager.DefaultConsistent | src/js/storage-manager.js:28-34 | the default progress record has a consistent star total |
| StorageManager.StatusOf | src/js/storage-manager.js:177-183 | unlocked exactly when the id is in the unlocked list; the completion is the stored record, or null when there is none |
| StorageManager.TotalProgress | src/js/storage-manager.js:299-304 | the percentage of 100 levels completed: 0 with none, and within 0..100 for at most 100 |
| StorageManager.StorageManager.constructor | src/js/storage-manager.js:51-65 | each missing record is initialised with its default |
| StorageManager.StorageManager.GetSettings | src/js/storage-manager.js:109-111 | every default key is present, and with nothing stored the defaults come back |
| StorageManager.StorageManager.SaveSettings | src/js/storage-manager.js:116-119 | the stored settings become the patch merged over the current settings; progress and collection are untouched |
| StorageManager.StorageManager.UnlockLevel | src/js/storage-manager.js:139-145 | the progress gains the id in its unlocked list and nothing else changes; an already unlocked id writes nothing |
| StorageManager.StorageManager.CompleteLevel | src/js/storage-manager.js:150-172 | the stored progress becomes Completed of the current progress; settings and collection are untouched |
| StorageManager.StorageManager.UnlockEquation | src/js/storage-manager.js:188-205 | a new id is added to the collection with view count 0 and the unlock time; an existing entry is kept as it is |
| StorageManager.StorageManager.ResetProgress | src/js/storage-manager.js:260-265 | the later definition: progress back to the defaults, an empty collection, and true |
| Levels.CatalogShape | src/js/levels.js:95-767 | the catalogue holds 36 levels whose ids rise strictly from 1 to 90, so the ids are not 1..36 |
| Levels.TargetK | src/js/levels.js:45-50 | the target K is K at the start temperature (the argument, else the level's initialTemp, else 298) and always lies inside the engine's clamps, so the fallback to 1 is never taken |
| Levels.Positive | src/js/levels.js:86-89 | a sanitised concentration is always positive, and a positive one is kept as it is |
| Levels.ExponentsAre | src/js/levels.js:58-69 | the product and reactant exponents are log10 K and -log10 K divided by the summed coefficient powers of both sides |
| Levels.Adjusted | src/js/levels.js:62-83 | a level with an empty side (summed power 0) gets a copy of its initial concentrations; otherwise every reactant, product and initial species gets an entry and no other species does |
| Levels.AdjustInitialConcentrations | src/js/levels.js:44-92 | the loops build exactly the adjusted concentration map |
| Levels.FillAll | src/js/levels.js:75-76 | the loop sets every listed species to the given value and keeps every other entry |
| Levels.AddMissing | src/js/levels.js:79-83 | initial values are added only for species the map does not already have |
| Levels.SanitizeAll | src/js/levels.js:86-89 | the loop replaces every non-positive value by 1 and keeps the others |
| Levels.AdjustedValues | src/js/levels.js:71-89 | a product gets 10^a, a reactant that is not also a product gets 10^b, any other initial species keeps its (sanitised) value, and every value is positive |
| Levels.ReactantTimesProduct | src/js/levels.js:66-72 | the two sides are symmetric: the reactant concentration times the product concentration is 1 |
| Levels.AdjustedSides | src/js/levels.js:55-76 | with positive coefficients and disjoint sides, each side's product of powers is the side's concentration raised to the side's summed power |
| Levels.AdjustedAtEquilibrium | src/js/levels.js:41-92 | with positive coefficients and disjoint sides, the reaction quotient of the adjusted concentrations equals the target K, which is the function's purpose (Q = K) |
| Levels.LevelsByCategory | src/js/levels.js:772-774 | a level is in the result exactly when it is in the catalogue and has that category |
| Levels.LevelsByCategoryAppend | src/js/levels.js:772-774 | filtering a concatenation is concatenating the filtered parts, so catalogue order is kept |
| Levels.FindIndex | src/js/levels.js:794 | the first index with that id, or -1 exactly when no level has it |
| Levels.GetLevel | src/js/levels.js:779-788 | no result exactly when no level has the id; otherwise the first level with that id |
| Levels.GetNextLevel | src/js/levels.js:793-799 | the level after the one with that id, none after the last one, and the first level when the id is unknown (findIndex gives -1) |
| Chemistry.QConc | src/js/chemistry-engine.js:80 | a species' concentration in the quotient is never zero: a missing or zero entry becomes 1e-30 and any other entry is used as it is |
| Chemistry.Term | src/js/chemistry-engine.js:80-82 | each species contributes a non-zero power of its concentration |
| Chemistry.Terms | src/js/chemistry-engine.js:79-83 | one term per listed species, in order |
| Chemistry.Side | src/js/chemistry-engine.js:79-90 | the product of a side's terms is never zero, so the quotient never divides by zero |
| Chemistry.ProductOver | src/js/chemistry-engine.js:79-90 | the accumulating loop computes the side's product of terms |
| Chemistry.CalculateQ | src/js/chemistry-engine.js:45-93 | the loops compute the quotient: the product side over the reactant side |
| Chemistry.QuotientFloorsMissing | src/js/chemistry-engine.js:80-88 | a missing or zero concentration counts as 1e-30 |
| Chemistry.QuotientDefaultCoefficient | src/js/chemistry-engine.js:81-88 | a missing or zero coefficient counts as 1 |
| Chemistry.QuotientNegativeNotFloored | src/js/chemistry-engine.js:80 | the floor only replaces missing and zero entries: a negative concentration passes through and gives a negative quotient |
| Chemistry.QuotientPositive | src/js/chemistry-engine.js:79-92 | with non-negative concentrations the quotient is positive |
| Chemistry.BaseK | src/js/chemistry-engine.js:133-135 | the base constant is positive: the level's constant when it is positive and 1 otherwise |
| Chemistry.RefTemp | src/js/chemistry-engine.js:136 | the reference temperature is never zero (298 replaces a missing or zero one) |
| Chemistry.LnRatio | src/js/chemistry-engine.js:146-149 | a defined ratio lies in [-690, 690], and at a non-zero temperature it is the van 't Hoff exponent clamped to that range |
| Chemistry.KOfLn | src/js/chemistry-engine.js:151-153 | the constant always lies in [1e-300, 1e300] |
| Chemistry.CalculateK | src/js/chemistry-engine.js:129-153 | the temperature-dependent constant always lies in [1e-300, 1e300] |
| Chemistry.ExpOrder | src/js/chemistry-engine.js:151 | under the exponential's laws it is positive and order-preserving |
| Chemistry.KWithoutDeltaH | src/js/chemistry-engine.js:138-153 | without reaction enthalpy the constant is the clamped base constant at every non-zero temperature, and the minimum at temperature 0 |
| Chemistry.ReciprocalAntitone | src/js/chemistry-engine.js:146 | a higher temperature has a smaller reciprocal |
| Chemistry.RawLnRatioMonotone | src/js/chemistry-engine.js:146 | the exponent rises with temperature when ΔH times the sensitivity is positive and falls when it is negative |
| Chemistry.LnRatioMonotone | src/js/chemistry-engine.js:146-149 | the clamped exponent is defined at positive temperatures and keeps that order |
| Chemistry.KOfNumber | src/js/chemistry-engine.js:151-153 | a defined exponent gives the base constant times its exponential, clamped |
| Chemistry.KOfNumberMonotone | src/js/chemistry-engine.js:151-153 | a larger exponential never gives a smaller constant, and a strictly larger one a strictly larger constant when no clamp applies |
| Chemistry.ScaledClampOrder | src/js/chemistry-engine.js:151-153 | clamping the scaled exponential preserves its order |
| Chemistry.KMonotone | src/js/chemistry-engine.js:129-153 | for an endothermic reaction the constant does not fall when the temperature rises (Le Chatelier) |
| Chemistry.KAntitone | src/js/chemistry-engine.js:129-153 | for an exothermic reaction the constant does not rise when the temperature rises |
| Chemistry.LnRatioStrict | src/js/chemistry-engine.js:146-149 | inside the clamp range the exponent is unclamped and strictly rising for an endothermic reaction |
| Chemistry.KStrictlyMonotone | src/js/chemistry-engine.js:129-153 | away from both clamps an endothermic constant strictly rises with temperature |
| Chemistry.LnRatioSign | src/js/chemistry-engine.js:165 | ln(Q/K) is negative, positive or zero exactly as Q is below, above or equal to K |
| Chemistry.TanhSign | src/js/chemistry-engine.js:168 | tanh keeps the sign of its argument |
| Chemistry.ShiftSign | src/js/chemistry-engine.js:159-169 | the shift is 0 when K or Q is 0, lies in (-1, 1), and is positive, negative or zero exactly as Q is below, above or equal to K |
| Chemistry.Balance | src/js/chemistry-engine.js:206-211 | the balance always lies in [-1, 1] |
| Chemistry.BalanceSign | src/js/chemistry-engine.js:203-211 | the balance is positive, negative or zero exactly as Q is below, above or equal to K |
| Chemistry.Achievement | src/js/chemistry-engine.js:406-412 | the achievement is a percentage in 0..100 |
| Chemistry.AchievementComplement | src/js/chemistry-engine.js:406-412 | for a balance in [-1, 1] the forward and reverse achievements add up to 100, the forward one being (b + 1)·50 |
| Chemistry.RescaleGas | src/js/chemistry-engine.js:285-290 | the loop sets each gas species to its initial concentration times the pressure ratio |
| Chemistry.RescaleFromAt | src/js/chemistry-engine.js:286-289 | after the loop a gas species with an initial concentration holds that concentration times the ratio; every other species is present and valued as before |
| Chemistry.TwoLoopsAt | src/js/chemistry-engine.js:336-352 | with distinct, disjoint reactant and product lists, the reactant loop and then the product loop change each reactant by its step, each product by its step and nothing else, keeping the species |
| Chemistry.CatalystEffect | src/js/chemistry-engine.js:324-356 | below K reactants shrink by 3% and products grow by 3%, above K the reverse, at K and for other species nothing changes |
| Chemistry.TimeStepEffect | src/js/chemistry-engine.js:418-452 | beyond the 0.001 dead band the losing side drops by dt/100 (not below 0.001) and the gaining side rises by dt/100; inside it, and for other species, nothing changes |
| Chemistry.ChemistryEngine.constructor | src/js/chemistry-engine.js:11 | no reaction is loaded |
| Chemistry.ChemistryEngine.CalculateEquilibrium | src/js/chemistry-engine.js:191-214 | with a reaction, K is the temperature-dependent constant, Q the quotient of the current concentrations and the balance their balance, within bounds; without one nothing changes |
| Chemistry.ChemistryEngine.InitReaction | src/js/chemistry-engine.js:25-40 | the level is loaded with its initial temperature (298 by default), pressure (101 by default) and a copy of its initial concentrations, and the equilibrium is computed |
| Chemistry.ChemistryEngine.Reset | src/js/chemistry-engine.js:457-471 | the loaded level's initial conditions are restored; without a level nothing changes |
| Chemistry.ChemistryEngine.UpdateSpecies | src/js/chemistry-engine.js:338-343 | the loop over the listed species applies the step to each of them |
| Reaction.UpdateEachDomain | src/js/chemistry-engine.js:338-343 | the species loop keeps the concentration map's set of species |
| Reaction.UpdateEachOutside | src/js/chemistry-engine.js:338-343 | a species the loop does not list keeps its concentration |
| Reaction.UpdateEachInside | src/js/chemistry-engine.js:338-343 | over distinct species, each listed species the map has gets the step applied to its old concentration exactly once |
| Chemistry.ChemistryEngine.AdjustConcentration | src/js/chemistry-engine.js:219-230 | the species' concentration (0.1 when unset) plus delta, clamped to [0.001, 10]; only that species changes |
| Chemistry.ChemistryEngine.SetConcentration | src/js/chemistry-engine.js:235-243 | the species' concentration becomes the value clamped to [0.001, 10]; only that species changes |
| Chemistry.ChemistryEngine.AdjustTemperature | src/js/chemistry-engine.js:248-256 | the temperature moves by delta, clamped to [200, 500] K |
| Chemistry.ChemistryEngine.SetTemperature | src/js/chemistry-engine.js:261-269 | the temperature becomes the value clamped to [200, 500] K |
| Chemistry.ChemistryEngine.AdjustPressure | src/js/chemistry-engine.js:274-294 | a reaction without gas is left alone; otherwise the pressure moves by delta within [10, 500] and each gas species is reset to its initial concentration times pressure/101 |
| Chemistry.ChemistryEngine.RescaleForPressure | src/js/chemistry-engine.js:279-290 | the new pressure is stored and the gas species are rescaled from their initial concentrations by its ratio to 101 |
| Chemistry.ChemistryEngine.SetPressure | src/js/chemistry-engine.js:299-318 | a reaction without gas is left alone; otherwise the pressure becomes the value within [10, 500] and each gas concentration is multiplied by the new-to-old pressure ratio |
| Chemistry.ChemistryEngine.ApplyCatalyst | src/js/chemistry-engine.js:324-356 | the concentrations take the catalyst's 3% nudge toward equilibrium, decided by the stored Q and K |
| Chemistry.ChemistryEngine.ApplyBuffer | src/js/chemistry-engine.js:362-367 | the buffer becomes active when a reaction is loaded, and nothing else changes |
| Chemistry.ChemistryEngine.ApplyHeatExchange | src/js/chemistry-engine.js:373-381 | the temperature becomes the target, without clamping |
| Chemistry.ChemistryEngine.SimulateTimeStep | src/js/chemistry-engine.js:418-452 | the concentrations take one time step toward equilibrium, decided by the stored Q and K |
| Chemistry.ChemistryEngine.GetState | src/js/chemistry-engine.js:386-388 | a state exactly when a reaction is loaded, with its temperature, concentrations and balance |
| Chemistry.ChemistryEngine.GetBalance | src/js/chemistry-engine.js:393-395 | the balance lies in [-1, 1] |
| Chemistry.ChemistryEngine.CalculateAchievement | src/js/chemistry-engine.js:401-413 | a percentage in 0..100, and 0 without a reaction |
| GameActions.Difficulty | src/js/game-actions.js:232-233 | the stored difficulty, or 2 when it is missing or 0 |
| GameActions.CooldownFactor | src/js/game-actions.js:235 | the AI's cooldown factor lies in [0.5, 5] |
| GameActions.CooldownFactorAntitone | src/js/game-actions.js:235 | a harder difficulty never lengthens the AI's cooldowns |
| GameActions.EffectiveDuration | src/js/game-actions.js:230-237 | the player's cooldown is the nominal one; the AI's is the floor of the nominal one times the factor, but at least 250 ms |
| GameActions.StartedBlocksWindow | src/js/game-actions.js:239-242 | right after it is started an action is on cooldown exactly until its start time plus its duration |
| GameActions.StartedLeavesOthers | src/js/game-actions.js:239-242 | starting one action's cooldown does not affect any other action |
| GameActions.ButtonId | src/js/game-actions.js:288-293 | a concentration action maps to its species button, any other action to `btn-` plus its id |
| GameActions.ButtonIdOfSpecies | src/js/game-actions.js:288-293 | adding a species presses that species' button |
| GameActions.SpeciesIncrement | src/js/game-actions.js:46-52 | the increment is positive: 5% of the base amount, or the 0.5 fallback for a non-positive base |
| GameActions.AddedConcentration | src/js/game-actions.js:51-52 | adding a species raises its concentration (0 when unset) by the increment |
| GameActions.Heated | src/js/game-actions.js:88 | heating adds 20 K but never goes past 500 K |
| GameActions.Cooled | src/js/game-actions.js:118 | cooling removes 20 K but never goes below 200 K |
| GameActions.StartPressure | src/js/game-actions.js:148 | the starting pressure is never zero (101.325 replaces a zero one) |
| GameActions.Pressurized | src/js/game-actions.js:149 | pressurising adds 50 kPa but never goes past 500 kPa |
| GameActions.Depressurized | src/js/game-actions.js:191 | depressurising removes 50 kPa but never goes below 10 kPa |
| GameActions.ScaleEach | src/js/game-actions.js:156-160 | the loop scales each listed species present by the ratio |
| GameActions.PressureConcentrationsAt | src/js/game-actions.js:153-161 | for a gas reaction with a positive old pressure each gas species is scaled by new/old pressure; every other species, and every species otherwise, keeps its concentration |
| GameActions.GameActions.constructor | src/js/game-actions.js:17-20 | both cooldown tables start empty |
| GameActions.GameActions.Init | src/js/game-actions.js:32-34 | both cooldown tables are emptied |
| GameActions.GameActions.StartCooldown | src/js/game-actions.js:226-271 | the side's table records the action with the current time and its effective duration; the other side's table is untouched |
| GameActions.GameActions.ResetCooldowns | src/js/game-actions.js:298-317 | the side's table is emptied and the other side's is untouched |
| GameActions.GameActions.AddSpecies | src/js/game-actions.js:41-77 | on cooldown nothing happens; otherwise the species rises by the increment, the state is recomputed and the cooldown starts |
| GameActions.GameActions.Heat | src/js/game-actions.js:83-107 | on cooldown nothing happens; otherwise the temperature is heated, the state recomputed and the cooldown started |
| GameActions.GameActions.Cool | src/js/game-actions.js:113-137 | on cooldown nothing happens; otherwise the temperature is cooled, the state recomputed and the cooldown started |
| GameActions.GameActions.Pressurize | src/js/game-actions.js:143-179 | on cooldown nothing happens; otherwise the pressure rises, gas concentrations scale with it, the state is recomputed and the cooldown starts |
| GameActions.GameActions.Depressurize | src/js/game-actions.js:185-221 | on cooldown nothing happens; otherwise the pressure falls, gas concentrations scale with it, the state is recomputed and the cooldown starts |
| AISystem.RoundScore | src/js/ai-system.js:46-55 | no goal scores 0 and no shift 5; a shift toward the goal scores 10..30 and one away from it 0..5 |
| AISystem.RoundScoreExample | src/js/ai-system.js:46-55 | a forward shift of 0.6 scores 16 for a forward goal and 2 for a reverse one |
| AISystem.RoundScoreMonotone | src/js/ai-system.js:51-54 | a larger shift toward the goal never scores less, and a larger shift away from it never scores more |
| AISystem.Tier | src/js/ai-system.js:61 | the difficulty tier is the difficulty clamped to 1..4, and 2 when it is 0 |
| AISystem.DifficultyProfile | src/js/ai-system.js:60-105 | every profile allows additions, has a pool of at least one and probabilities in [0, 1]; temperature from tier 2 on and pressure from tier 3 on |
| AISystem.ProfileMonotone | src/js/ai-system.js:60-105 | a higher tier is never more random, never acts less often and never draws from a larger pool |
| AISystem.SimulateAction | src/js/ai-system.js:110-161 | the simulated constant lies in [1e-300, 1e300] and the shift is computed from the simulated K and Q |
| AISystem.SimulationMatchesAction | src/js/ai-system.js:110-161 | when the base amount is positive the light simulation predicts the K and Q that the real action followed by the state update produces |
| AISystem.SimulationOmitsFallback | src/js/ai-system.js:125-127 | with a non-positive base the simulation adds nothing, while the real action adds the 0.5 fallback |
| AISystem.AddAll | src/js/ai-system.js:212-214 | one addition candidate per preferred species, in order |
| AISystem.CandidatesAre | src/js/ai-system.js:204-231 | the candidates are exactly the additions of the goal's preferred species when allowed, heat and cool when temperature is allowed, and the pressure pair when pressure is allowed and the reaction has gas species |
| AISystem.ScoreAll | src/js/ai-system.js:242-258 | exactly the candidates off cooldown (and with a species when they add one) are scored, each with its own score |
| AISystem.ScoreAllSnoc | src/js/ai-system.js:243-258 | scoring one more candidate appends its score when it is eligible and nothing otherwise |
| AISystem.CandidateActions | src/js/ai-system.js:204-231 | the loop builds the candidate list |
| AISystem.ScoreCandidates | src/js/ai-system.js:242-258 | the loop builds the scored list |
| AISystem.PoolSize | src/js/ai-system.js:265 | the pool has between one entry and all of them, and a single entry when topK is at most 1 |
| AISystem.Choose | src/js/ai-system.js:175-271 | the method picks what the selection function describes |
| AISystem.SelectionNone | src/js/ai-system.js:175-260 | no action is chosen exactly when there is no level, the activity draw exceeds the profile's chance, or no candidate can be scored |
| AISystem.SelectionIsRanked | src/js/ai-system.js:262-271 | a chosen action is an eligible candidate drawn from the top of the ranking; without the random branch, or with a pool of one, it is the first, which no candidate beats |
| AISystem.TemperatureEffect | src/js/ai-system.js:391-402 | no reaction gives no effect; otherwise heating helps the forward reaction exactly when ΔH is positive, with a non-negative weight |
| AISystem.Sign | src/js/ai-system.js:431 | the direction is 1, -1 or 0 as the difference is positive, negative or zero |
| AISystem.PressureEffectSwap | src/js/ai-system.js:407-434 | swapping reactants and products reverses the pressure direction and keeps its weight |
| AISystem.AnalyzePressureEffect | src/js/ai-system.js:407-434 | the coefficient-summing loop computes the pressure effect |
| AISystem.ConcentrationEffects | src/js/ai-system.js:439-464 | one entry per reactant and per product; reactants push forward (direction 1) and products backward (-1) |
| AISystem.AnalyzeConcentrationEffect | src/js/ai-system.js:439-464 | the loops compute the concentration effects |
| AISystem.AnalyzeState | src/js/ai-system.js:359-386 | an analysis exactly when the engine has a state, carrying its balance |
| AISystem.WinningIsNearGoal | src/js/ai-system.js:364-366 | the AI is winning exactly when its distance to the goal is below 1, and the distance lies in 0..2 for a balance in [-1, 1] |
| AISystem.EvaluateCardBenefit | src/js/ai-system.js:277-301 | the catalyst's value is undefined without an analysis; the buffer is worth 0.6 when winning and 0.1 otherwise; the quantum card is worth 0.9 only when losing and far from the goal |
| AISystem.CardBenefitRange | src/js/ai-system.js:277-301 | every card's value lies in 0..1.6, and an unknown card is worth 0.3 |
| AISystem.ConcentrationChoices | src/js/ai-system.js:583-594 | one option per concentration effect |
| AISystem.ConcentrationOptions | src/js/ai-system.js:583-594 | the loop computes the concentration options |
| AISystem.RankOptions | src/js/ai-system.js:557-600 | the options are the temperature, pressure and concentration options sorted by score, best first |
| AISystem.OptionsFlip | src/js/ai-system.js:561-594 | the reverse goal gets the same options as the forward goal with every direction negated and the same scores |
| AISystem.AISystem.constructor | src/js/ai-system.js:6-30 | no level, difficulty 1, and the reverse goal |
| AISystem.AISystem.Init | src/js/ai-system.js:34-41 | the level and difficulty are stored and the goal kept |
| AISystem.AISystem.SetDifficulty | src/js/ai-system.js:306-308 | the difficulty is clamped into 1..4 |
| AISystem.AISystem.SetGoal | src/js/ai-system.js:313-315 | the goal is replaced and nothing else changes |
| AISystem.AISystem.SelectBestAction | src/js/ai-system.js:169-272 | the chosen action is the selection; a given level and a non-zero difficulty are remembered |
| Game.AssignedGoals | src/js/game.js:212-221 | the two sides always get opposite goals, the player's being forward exactly when the draw is below 0.5 |
| Game.RoundScore | src/js/game.js:434-445 | the game's round scoring agrees with the AI's copy of it for every shift and goal |
| Game.OppositeGoalsScore | src/js/game.js:434-445 | at equilibrium both goals score 5; otherwise exactly one of two opposite goals scores 10 or more, the one the shift points toward |
| Game.Stars | src/js/game.js:668-678 | a loss earns no stars and a win 1 to 3: at least 2 when the player leads by 10, and 3 exactly when by 30 |
| Game.StarsMonotone | src/js/game.js:668-678 | a larger winning margin never earns fewer stars |
| Game.Achievement | src/js/game.js:641-645 | the achievement is at most 100, non-negative for a non-negative total, and exactly 100 for the maximum 30 points a round |
| Game.Interval | src/js/game.js:277-278 | the AI's polling interval lies in 260..1200 ms, 260 exactly from difficulty 4 and 1200 exactly below 2 |
| Game.IntervalAntitone | src/js/game.js:278 | a harder difficulty never polls more slowly |
| Game.AiInterval | src/js/game.js:276-278 | the interval of the stored difficulty, 650 ms when none is stored |
| Game.DifficultySetting | src/js/game.js:276-277 | a difficulty is read only from a stored whole number, and no setting reads as none |
| Game.RoundsSetting | src/js/game.js:97-98 | a missing round count reads as 10 and a stored whole count is used as it is |
| Game.Rebalanced | src/js/game.js:576-581 | the level's temperature and pressure are restored, K is recomputed for that temperature, and both concentration maps become the adjusted initial amounts; nothing else changes |
| Game.RoundStartsBalanced | src/js/game.js:576-584 | with the level's initial conditions restored every round starts at Q = K, so the shift is 0 and each side would score 5 |
| Game.Opening | src/js/game.js:86-154 | the opened level is round 1 of a running, unpaused match with zero totals, opposite goals, the level's round count or the setting's, and a state computed for its conditions |
| Game.NewRound | src/js/game.js:562-607 | the next round counts one more and restores the level's conditions; totals, goals, the level and the run flags are kept |
| Game.Settled | src/js/game.js:403-417 | each total grows by that side's round score, between 0 and 30, and nothing else changes |
| Game.SettleRewardsDirection | src/js/game.js:408-417 | with opposite goals a shift rewards the side it favours with at least 10 and the other with at most 5, and equilibrium gives both 5 |
| Game.Verdict | src/js/game.js:621-623 | a given verdict is kept; otherwise the player wins on a tie or better |
| Game.Outcome | src/js/game.js:626-657 | the result carries the verdict, the stars, the winner's achievement, the round count and both totals |
| Game.TieIsOneStarWin | src/js/game.js:621-678 | a tied match is a one-star win for the player |
| Game.NextUnlockRedundant | src/js/game.js:629-637 | completing a level already unlocks the next id, so the extra unlock after a win changes nothing |
| Game.LevelLookup | src/js/game.js:89-93 | a level id finds that level; a level object is never equal to an id and finds nothing |
| Game.Game.constructor | src/js/game.js:8-45 | the initial match state, no timers and 30 seconds a turn, with the stored progress or the defaults |
| Game.Game.StopTimer | src/js/game.js:263-268 | the turn timer stops and nothing else changes |
| Game.Game.StartTimer | src/js/game.js:247-258 | the turn timer runs and nothing else changes |
| Game.Game.StopAIRealtime | src/js/game.js:291-296 | the AI timer stops and nothing else changes |
| Game.Game.StartAIRealtime | src/js/game.js:273-286 | the AI timer runs at the stored difficulty's interval |
| Game.Game.Reset | src/js/game.js:57-81 | the initial match state with both timers stopped |
| Game.Game.StartTurn | src/js/game.js:226-242 | a running match gets the stored turn time (30 by default) and both timers; otherwise nothing happens |
| Game.Game.Open | src/js/game.js:95-151 | the state becomes the opening of the level, the AI gets the level, difficulty 2 and the opposite goal, and both card hands are fresh |
| Game.Game.StartLevel | src/js/game.js:86-154 | an unknown level leaves the reset state and reports failure; a known one is opened with its first turn running |
| Game.Game.SettleRound | src/js/game.js:403-429 | the totals are settled and the timers kept |
| Game.Game.EndRound | src/js/game.js:389-398 | a running match settles the round with both timers stopped; otherwise nothing happens |
| Game.Game.TimerTick | src/js/game.js:250-257 | a tick takes one second off the turn, and when it runs out the round ends |
| Game.Game.Dispatch | src/js/game.js:328-351 | an action off cooldown (and with a species when it adds one) is performed and the state recomputed; otherwise nothing changes; the player's cooldowns are untouched |
| Game.Game.ExecuteAIAction | src/js/game.js:301-352 | the AI's selection at the stored difficulty is dispatched, and it succeeds exactly when it can be performed |
| Game.Game.AiTick | src/js/game.js:281-285 | a stopped or paused match makes the AI do nothing; a running, unpaused one takes the AI's selection, which acts exactly when it names an action off cooldown, and the state is then the acted and updated one |
| Game.Game.EndGame | src/js/game.js:612-663 | the match stops, the result is the outcome of the verdict, and a win records the completion and the collection entry; a loss stores nothing |
| Game.Game.RecordWin | src/js/game.js:629-637 | the progress records the completed level and the equation is collected |
| Game.Game.Advance | src/js/game.js:573-606 | the state takes the new round, the player's cooldowns are cleared, card cooldowns and effects tick down, and the next turn starts |
| Game.Game.NextRound | src/js/game.js:562-607 | the round counter rises; past the last round the match ends with the outcome of the totals, a won level is recorded as completed with its stars and joins the collection, anything else leaves progress and collection as they were, and the settings, cooldowns, cards and effects are untouched; otherwise the next round begins from the level's start, the player's cooldowns clear and the AI's stay, both sides' cards tick and their effects decay, and a running match restarts the turn timer at the stored turn time |
| Game.Game.TogglePause | src/js/game.js:698-712 | a running match flips its pause flag, stopping both timers on pause and restarting them on resume |
| Game.Game.UseAbility | src/js/game.js:683-693 | a card is used exactly when the match runs unpaused and the card is available; it then goes on its cooldown, and the AI's cards are untouched |
| CardSystem.CardOf | src/js/card-system.js:8-47 | exactly the four catalogue ids have a card, carrying its own id and a cooldown of 3 to 5 rounds |
| CardSystem.FreshCards | src/js/card-system.js:64-83 | the fresh register holds exactly the catalogue cards, each available with no cooldown |
| CardSystem.Tick | src/js/card-system.js:378-383 | a running cooldown drops by one, a finished one is left alone, and a card becomes available exactly when its countdown reaches 0 |
| CardSystem.TickAll | src/js/card-system.js:377-394 | the countdown keeps the register's cards and its well-formedness |
| CardSystem.CountdownLength | src/js/card-system.js:104-105 | a card used with a cooldown of d rounds becomes available again after exactly d countdowns, the countdown showing d − n before that |
| CardSystem.TickCards | src/js/card-system.js:377-384 | the countdown loop computes TickAll of the register |
| CardSystem.Decay | src/js/card-system.js:397-402 | the filtered effects are no more than before and all have rounds left |
| CardSystem.DecayMembers | src/js/card-system.js:397-402 | exactly the effects with more than one round left survive, each with one round less |
| CardSystem.BufferLifetime | src/js/card-system.js:169-176 | a buffer pushed for 2 rounds is still active after one countdown and gone after two |
| CardSystem.EffectReduction | src/js/card-system.js:308-311 | the reduction of the first buffer, and 0 without one |
| CardSystem.BufferHalves | src/js/card-system.js:316-326 | with 50% buffers a decision's magnitude is halved exactly while a buffer is active |
| CardSystem.HeatChange | src/js/card-system.js:197-214 | the heat exchange's change is ±magnitude, positive exactly when heating helps the goal (forward with ΔH > 0, reverse with ΔH ≤ 0) |
| CardSystem.HeatExchangeFollowsGoal | src/js/card-system.js:187-216 | the heat exchange never moves K against the user's goal: K does not fall for a forward goal and does not rise for a reverse one |
| CardSystem.QuantumBounds | src/js/card-system.js:229-263 | the quantum jump keeps T in [200, 500] and within 80 K of where it was, keeps the pressure in range (unchanged without gas), and without gas changes only the picked species, within [0.001, 10] |
| CardSystem.CardSystem.constructor | src/js/card-system.js:50-59 | both registers and both effect lists start empty |
| CardSystem.CardSystem.Init | src/js/card-system.js:64-90 | fresh registers for both sides and no effects |
| CardSystem.CardSystem.GetCardStatus | src/js/card-system.js:331-334 | the side's entry when it holds the card, which is available exactly when its countdown is 0 |
| CardSystem.CardSystem.GetEffectReduction | src/js/card-system.js:308-311 | 0.5 while the side has a buffer and 0 otherwise |
| CardSystem.CardSystem.ApplyBuffer | src/js/card-system.js:169-182 | a buffer with the given rounds and a 50% reduction is pushed for the side; the other side and the registers are untouched |
| CardSystem.CardSystem.ApplyHeatExchange | src/js/card-system.js:187-224 | without a reaction nothing happens; otherwise only the temperature moves, by HeatChange and clamped to [200, 500] |
| CardSystem.CardSystem.QuantumSpeciesStep | src/js/card-system.js:242-247 | the picked species takes its random change |
| CardSystem.CardSystem.QuantumPressureStep | src/js/card-system.js:251-255 | the pressure takes its random change and the gas species are rescaled for it |
| CardSystem.CardSystem.ApplyQuantumTunnel | src/js/card-system.js:229-263 | without a reaction nothing happens; otherwise temperature, one species and (with gas) the pressure take their random changes, in that order |
| CardSystem.CardSystem.ApplyCardEffect | src/js/card-system.js:120-150 | the catalyst nudges the concentrations, the buffer protects the user, the heat exchange moves T the goal's way and the quantum card jumps; the registers and the other side's effects are untouched |
| CardSystem.CardSystem.UseCard | src/js/card-system.js:95-115 | refused, with nothing changed, unless the side holds the card available; otherwise the card goes on its catalogue cooldown and its effect is applied: the catalyst moves only the concentrations, the heat exchange only the temperature, the quantum card temperature, pressure and concentrations, the buffer only the user's effects, and without a reaction the engine is untouched |
| CardSystem.CardSystem.ReduceCooldowns | src/js/card-system.js:375-403 | one countdown for every card of both sides, and one round off every active effect |
| GameState.LevelTemperature | src/js/game.js:102 | the start temperature is the level's initialTemperature when set and nonzero, else its initialTemp when set and nonzero, else 298 |
| GameState.LevelPressure | src/js/game.js:103 | the start pressure is the level's initialPressure when set and nonzero, else 101.325, and never 0 |
| GameState.UpdateState | src/js/game.js:517-530 | without a level the record is unchanged; otherwise K and Q are made current for the record's temperature and concentrations, K lies inside the clamps, nothing else changes, and a current record is left as it is (updating is idempotent) |
| StableSort.Sort | src/js/ai-system.js:262 | the comparator sort returns a permutation of its input ordered by score, then by size of shift, larger first |
| StableSort.SortFirstIsMaximal | src/js/ai-system.js:262 | no candidate beats the first element of the sorted list |
| StableSort.SortElements | src/js/ai-system.js:597 | sorting neither drops nor invents an option |
| StableSort.WithKeyAppend | src/js/ai-system.js:262 | picking the elements of one key distributes over concatenation |
| StableSort.WithKeyNone | src/js/ai-system.js:262 | a list without the key keeps nothing |
| StableSort.InsertStable | src/js/ai-system.js:262 | inserting into a sorted list places the new element after every element of its key and keeps the others' order |
| StableSort.SortStable | src/js/ai-system.js:262 | the sort is stable: for every key, the elements with that key come out in their input order |
| Strings.WordsHead | src/js/terminal.js:390-391 | the command name is the line's first whitespace-free run |
| Strings.ToLower | src/js/keyboard-handler.js:80 | lower-casing keeps the length and maps each character on its own |
| ChartRenderer.Pushed | src/js/chart-renderer.js:102-108 | every sampled species gets its value appended (a missing series starts empty); other series are untouched |
| ChartRenderer.Dropped | src/js/chart-renderer.js:113-117 | every series loses its first value and no series is added or removed |
| ChartRenderer.PushedFits | src/js/chart-renderer.js:102-108 | after a push every series is at most one longer than the window was |
| ChartRenderer.DroppedFits | src/js/chart-renderer.js:112-117 | the shift brings every series back within the trimmed window |
| ChartRenderer.ChartRenderer.Reset | src/js/chart-renderer.js:84-94 | empty timestamps and equilibrium line, and an empty series for exactly the given species |
| ChartRenderer.ChartRenderer.PushSample | src/js/chart-renderer.js:102-108 | the series become Pushed of the old series; the window and the line are untouched |
| ChartRenderer.ChartRenderer.ShiftAll | src/js/chart-renderer.js:114-116 | the series become Dropped of the old series; the window and the line are untouched |
| ChartRenderer.ChartRenderer.AddDataPoint | src/js/chart-renderer.js:99-119 | the new timestamp is the old length (so, once the window is full, always 50), the line gains 1 exactly when equilibrium was reached, and all three are shifted once the window passes 50; the window stays at most 50, the line as long as the window and no series longer |
| ChartRenderer.ChartRenderer.GetMaxConcentration | src/js/chart-renderer.js:334-344 | the result is the largest of 1 and every stored value, times 1.2, rounded up to a tenth: at least 1.2 and at least 1.2 times every stored value |
| ChartRenderer.PeakUnique | src/js/chart-renderer.js:335-341 | the maximum the loop computes is unique |
| ChartRenderer.ChartRenderer.constructor | src/js/chart-renderer.js:29-33 | the store starts with no timestamps, no series and no equilibrium line |
| Terminal.Filter | src/js/terminal.js:459 | keeps exactly the names that start with the prefix, in order |
| Terminal.Matches | src/js/terminal.js:459 | exactly the command names that start with the input |
| Terminal.CompletionIsCommand | src/js/terminal.js:459-461 | a unique match is a command name that starts with the input |
| Terminal.Suggestions | src/js/terminal.js:469-481 | nothing for blank input; otherwise at most 5 commands, each starting with the trimmed input, and all the matches when there are at most 5 |
| Terminal.HelpReply | src/js/terminal.js:25-41 | no argument lists every command; a known command gets its usage, an unknown one an error naming it |
| Terminal.Play | src/js/terminal.js:57-84 | the checks in the source's order: missing argument, non-numeric id, unknown level, locked level; an unlocked known level starts with the corrected argument of Terminal.PlayArgument, not the level object the source passes |
| Terminal.PlayAsWrittenNeverStarts | src/js/terminal.js:78 | handing the level object found to the game's lookup by id finds no level |
| Terminal.PlayArgument | src/js/terminal.js:78 | the corrected call passes the level's id |
| Terminal.PlayStartsTheLevel | src/js/terminal.js:57-84 | with the corrected call, a started level is unlocked and the game's lookup finds it |
| Terminal.PassAllIdsAsWritten | src/js/terminal.js:95-99 | `pass all` as written unlocks the ids 1 to the number of levels |
| Terminal.PassAllAsWrittenMissesLevels | src/js/terminal.js:95-99 | on the catalogue of 36 levels whose ids reach 90, level 90 is never unlocked |
| Terminal.PassAllIds | src/js/terminal.js:95-99 | the corrected `pass all` unlocks the id of every level |
| Terminal.PassAllUnlocksEveryLevel | src/js/terminal.js:95-99 | after the corrected `pass all` every level of the catalogue is unlocked |
| Terminal.Pass | src/js/terminal.js:90-110 | a missing argument and a non-numeric id are errors; `all` unlocks the corrected id list of Terminal.PassAllIds, one id per level, where the source unlocks 1 to the number of levels; `pass N` unlocks N + 1, not N |
| Terminal.UnlockedAfter | src/js/terminal.js:97-99 | the unlocked list afterwards holds exactly the old ids and the new ones |
| Terminal.Respond | src/js/terminal.js:395-408 | an unknown command name gets the unknown-command error |
| Terminal.Terminal.constructor | src/js/terminal.js:13-18 | empty history with index −1, empty input and output, hidden |
| Terminal.Terminal.UnlockEach | src/js/terminal.js:97-99 | the stored progress gains every id of the list in its unlocked list; nothing else changes |
| Terminal.Terminal.Show | src/js/terminal.js:312-321 | the terminal becomes visible; history, input and output are unchanged |
| Terminal.Terminal.Hide | src/js/terminal.js:326-330 | the terminal is hidden and its input cleared; history and output are unchanged |
| Terminal.Terminal.Run | src/js/terminal.js:395-404 | `clear` empties the output; `exit`, and a `play` whose reply starts a level, hide the terminal and clear the input; every other command appends its reply; only `pass` writes progress, and it unlocks the ids of the corrected Terminal.Pass |
| Terminal.Terminal.ExecuteCommand | src/js/terminal.js:378-413 | blank input changes nothing; otherwise the trimmed line is appended to history, the index becomes the history length, the echo and the reply of its first word are printed, an unknown command writes no progress, and the input is cleared |
| Terminal.Terminal.RunLine | src/js/terminal.js:382-411 | the line joins the history with the index just past it, is echoed and split into a command name and arguments, the command's reply follows, an unknown name writes no progress, and the input is cleared |
| Terminal.Terminal.NavigateHistory | src/js/terminal.js:438-449 | nothing on an empty history; otherwise the index moves by the direction clamped to [0, length] and the input shows that entry, or nothing at the end |
| Terminal.Terminal.AutoComplete | src/js/terminal.js:454-464 | a unique match replaces the input by the name and a space; several matches are listed; otherwise nothing changes |
| Strings.Words | src/js/terminal.js:390 | the maximal pieces free of white space, none of them empty |
| Strings.Trim | src/js/terminal.js:379 | neither end of the result is white space |
| Strings.ParseIntNatToString | src/js/terminal.js:60 | `parseInt(String(n))` is n |
| KeyboardHandler.Mapping | src/js/keyboard-handler.js:80-81 | the lower-cased key is tried first and then the key as typed; there is no action exactly when neither is in the key map |
| KeyboardHandler.MappingIgnoresCase | src/js/keyboard-handler.js:80-81 | a key whose lower-case form is mapped acts like that lower-case key, so 'W' acts like 'w' |
| KeyboardHandler.NextParam | src/js/keyboard-handler.js:238-241 | the next parameter in the cycle temperature, pressure, concentration, never the current one |
| KeyboardHandler.ParamCycle | src/js/keyboard-handler.js:238-241 | three switches come back to the start and two switches never do |
| KeyboardHandler.SliderAfter | src/js/keyboard-handler.js:207-209 | the new slider value lies in [0, 100] and is value + delta when that is in range |
| KeyboardHandler.SliderSaturates | src/js/keyboard-handler.js:207-209 | a step past either end stops at 100 or at 0, the result grows with the starting value, and a step up never lowers a slider inside the range |
| KeyboardHandler.AbilityCard | src/js/keyboard-handler.js:262-264 | each ability key names one of the four cards |
| KeyboardHandler.KeyboardHandler.constructor | src/js/keyboard-handler.js:33-43 | temperature selected, enabled, no action held |
| KeyboardHandler.KeyboardHandler.ExecuteAction | src/js/keyboard-handler.js:108-177 | fullscreen and pause act on every screen (pause shows the menu off the game screen); the other actions act only on the unpaused game screen: up/right step the selected parameter by +5, down/left by −5, Tab switches parameter, r resets the turn, 1-4 use their card |
| KeyboardHandler.KeyboardHandler.HandleKeyDown | src/js/keyboard-handler.js:72-91 | nothing happens while disabled, in a text field or for an unmapped key; otherwise the action fires exactly when it was not held, and it is held afterwards |
| KeyboardHandler.KeyboardHandler.HandleKeyUp | src/js/keyboard-handler.js:96-103 | a mapped key releases its action, even while disabled; other state is untouched |
| KeyboardHandler.KeyboardHandler.Enable | src/js/keyboard-handler.js:293-295 | enabled, with the latch and the parameter kept |
| KeyboardHandler.KeyboardHandler.Disable | src/js/keyboard-handler.js:300-303 | disabled and every held action released |
| KeyboardHandler.KeyboardHandler.Reset | src/js/keyboard-handler.js:308-311 | temperature selected and every held action released |
| KeyboardHandler.AdjustConcentration | src/js/keyboard-handler.js:221-233 | every concentration slider moves by delta, clamped to [0, 100] |
| KeyboardHandler.ToLowerIdempotent | src/js/keyboard-handler.js:80 | lower-casing an already lower-cased key changes nothing |
| UiManager.TemperatureOfSlider | src/js/ui-manager.js:1119-1121 | a slider value in 0..100 gives a temperature in 200..500 K, with the ends mapped to the ends |
| UiManager.PressureOfSlider | src/js/ui-manager.js:1133-1135 | a slider value in 0..100 gives a pressure in 10..500 kPa, with the ends mapped to the ends |
| UiManager.SlidersMonotone | src/js/ui-manager.js:1119-1142 | moving a slider up never lowers the temperature or the pressure |
| UiManager.BalanceIndicator | src/js/ui-manager.js:1213-1230 | the indicator mark sits at (b + 1)/2·100, inside 0..100 for a balance in [-1, 1]; a negative balance fills only the left side by -50b and otherwise only the right side by 50b, so at most one side is filled |
| UiManager.RewardsAscending | src/js/ui-manager.js:1632-1637 | the reward thresholds 3, 20, 50, 90 strictly increase |
| UiManager.FirstAbove | src/js/ui-manager.js:1640-1648 | the search finds the first threshold strictly above the total, every earlier one being reached; it finds none exactly when every threshold is reached |
| UiManager.FirstAboveIs | src/js/ui-manager.js:1640-1648 | the first threshold above the total is the one the search returns |
| UiManager.FirstAboveNone | src/js/ui-manager.js:1640-1648 | when every threshold is reached the search returns nothing |
| UiManager.ProgressRatio | src/js/ui-manager.js:1655-1657 | the progress ratio lies in [0, 1] |
| UiManager.StarProgress | src/js/ui-manager.js:1620-1666 | all rewards are achieved exactly when the total is at least 90; otherwise the next reward is the first threshold above the total, a positive number of stars is still needed, and the bar shows the rounded ratio since the previous threshold, within 0..100 |
| UiManager.HasClaimable | src/js/ui-manager.js:1669-1677 | the badge shows exactly when some reached threshold's reward id is not yet claimed |
| UiManager.SkipRun | src/js/ui-manager.js:1572 | skipping a run removes a prefix made only of forbidden characters and stops at the first allowed one |
| UiManager.ReplaceRuns | src/js/ui-manager.js:1572 | the result contains none of `\ / : * ? " < > \|` and is no longer than the input |
| UiManager.ReplaceRunsClean | src/js/ui-manager.js:1572 | a name without forbidden characters is left unchanged |
| UiManager.ReplaceRunsRun | src/js/ui-manager.js:1572 | a whole run of forbidden characters becomes a single `_` |
| UiManager.SkipWholeRun | src/js/ui-manager.js:1572 | skipping consumes exactly the whole run |
| UiManager.Prefix | src/js/ui-manager.js:1573 | the first n characters: a prefix of the string, no longer than n, and the whole string when it is short enough |
| UiManager.SafeName | src/js/ui-manager.js:1570-1573 | the file name comes from the level name, else its id, else "level", has every forbidden run replaced by `_`, is cut to 80 characters and contains no forbidden character |
| UiManager.SafeNameKeepsCleanNames | src/js/ui-manager.js:1570-1573 | a clean name of at most 80 characters is used as it is |
| UiManager.Converted | src/js/ui-manager.js:1517-1535 | the game level takes each field from the workshop level with its default: category "custom", name "自定义关卡", K 1, ΔH 0, temperature from initialTemp then initialTemperature then 298, pressure 101.325, hasGas only when true, container "rigid", empty lists and maps |
| UiManager.ConvertedKeepsZeros | src/js/ui-manager.js:1520-1528 | `??` keeps an explicit K of 0, while `\|\|` replaces an empty name by the default |
| UiManager.DifficultyLabel | src/js/ui-manager.js:1463-1464 | an AI level 1..4 (2 when missing) picks its name, any other value shows "未知" |
| ParticleSystem.SkinsFilled | src/js/particle-system.js:24-50 | every skin palette has non-empty reactant, product and neutral lists, so every colour pick is defined |
| ParticleSystem.Defaults | src/js/particle-system.js:84-96 | draws in [0, 1) give a position inside the canvas, speeds in [-1, 1), size in [2, 6), alpha in [0.5, 1), life in [100, 300), maximum life 300, a reactant colour, kind "default" and glow |
| ParticleSystem.MergeOverrides | src/js/particle-system.js:98 | each field given in the options wins over the default and each field left out keeps the default |
| ParticleSystem.MergeLaws | src/js/particle-system.js:98 | merging no options keeps the defaults, and merging the same options twice is merging them once |
| ParticleSystem.CreateParticle | src/js/particle-system.js:83-99 | the particle is the defaults overridden by the options, so its kind is the given one or "default" |
| ParticleSystem.BalanceCount | src/js/particle-system.js:165-167 | a balance in [-1, 1] asks for between 0 and 20 particles |
| ParticleSystem.FlowSpeed | src/js/particle-system.js:165-174 | the horizontal speed has the balance's sign and lies between one and three times the balance |
| ParticleSystem.BalanceOptions | src/js/particle-system.js:170-181 | every flow particle is of kind "balance" on the centre line; for a forward balance it flows right at one to three times the balance in a product colour, otherwise left in a reactant colour; its height lies in the middle 60% of the canvas |
| ParticleSystem.BalanceBatch | src/js/particle-system.js:167-182 | floor(\|balance\| · 20) option sets, the k-th built from the k-th draws |
| ParticleSystem.MandalaOptions | src/js/particle-system.js:193-209 | ring r has radius 50 + 40r and turns at 0.01(r + 1), clockwise on even rings and counter-clockwise on odd ones |
| ParticleSystem.MandalaPattern | src/js/particle-system.js:188-212 | four rings of twelve give 48 mandala particles, the k-th being slot k mod 12 of ring k div 12 |
| ParticleSystem.Moved | src/js/particle-system.js:280-301 | moving changes only the position, speed and angle: life, kind, colour and size are kept |
| ParticleSystem.Stepped | src/js/particle-system.js:280-305 | a frame costs one unit of life and sets alpha to the remaining fraction of life, at full strength for mandala particles and 0.8 for the others |
| ParticleSystem.Kept | src/js/particle-system.js:308-311 | a stepped particle is kept only when it is still alive and within 50 pixels of the canvas |
| ParticleSystem.Survivors | src/js/particle-system.js:275-313 | the frame's survivors are no more than the particles and all of them alive and near the canvas |
| ParticleSystem.SurvivorsAppend | src/js/particle-system.js:276-312 | each particle is updated independently, so the survivors of a concatenation are the concatenated survivors |
| ParticleSystem.ExpiredRemoved | src/js/particle-system.js:304-311 | particles with at most one unit of life left are all gone after the frame |
| ParticleSystem.MandalaOnly | src/js/particle-system.js:391 | the filter keeps only mandala particles |
| ParticleSystem.MandalaOnlyExact | src/js/particle-system.js:391 | a particle survives the filter exactly when it was present and is a mandala particle |
| ParticleSystem.Admitted | src/js/particle-system.js:104-117 | of n requested particles at most the room left under the cap is admitted, none when the list is full and all when they fit |
| ParticleSystem.ParticleSystem.constructor | src/js/particle-system.js:6-22 | an empty, stopped system on the colourful skin with a cap of 200 particles |
| ParticleSystem.ParticleSystem.SetSkin | src/js/particle-system.js:59-64 | a known skin becomes current together with its palette; an unknown one changes nothing |
| ParticleSystem.ParticleSystem.SetMaxParticles | src/js/particle-system.js:76-78 | the cap becomes the given count and nothing else changes |
| ParticleSystem.ParticleSystem.AddParticle | src/js/particle-system.js:104-108 | below the cap the created particle is appended; at the cap nothing changes |
| ParticleSystem.Batch | src/js/particle-system.js:104-117 | the particles appended under the cap: as many as Admitted allows, the j-th created from the j-th option set and draws |
| ParticleSystem.BatchAppended | src/js/particle-system.js:104-117 | a list that continues its start with the batch's particles one by one is the start followed by the batch |
| ParticleSystem.ParticleSystem.AddEach | src/js/particle-system.js:169-182 | one particle per option set, in order, until the cap; the old particles stay in front, so the list becomes the old list followed by the batch |
| ParticleSystem.ParticleSystem.AddParticles | src/js/particle-system.js:113-117 | exactly as many particles as the cap admits, at most count, are appended after the old ones, the j-th created from the same options with the j-th draws; the cap is never passed by adding |
| ParticleSystem.ParticleSystem.CreateBalanceParticles | src/js/particle-system.js:163-183 | as many of the BalanceCount flow particles as the cap admits, each created from its BalanceOptions, all of kind "balance", after the old ones |
| ParticleSystem.ParticleSystem.CreateMandalaPattern | src/js/particle-system.js:188-212 | as many of the 48 mandala particles as the cap admits, each created from its MandalaPattern entry, after the old ones |
| ParticleSystem.ParticleSystem.Update | src/js/particle-system.js:275-313 | the backwards splice loop leaves exactly the survivors of the old particles, in their order |
| ParticleSystem.ParticleSystem.Stop | src/js/particle-system.js:374-376 | the system stops and keeps its particles |
| ParticleSystem.ParticleSystem.Clear | src/js/particle-system.js:381-384 | no particles are left and the configuration is kept |
| ParticleSystem.ParticleSystem.VisualizeBalance | src/js/particle-system.js:389-408 | only the mandala particles are kept; a balance beyond ±0.1 appends the flow batch, and then fewer than 48 mandala particles append the mandala batch, each batch with its own draws; every particle is a flow or mandala particle, and within 0.1 of balance only mandala particles remain |
| ParticleSystem.DropFirstHash | src/js/particle-system.js:444 | the first `#` is removed: a string without one is kept and a leading one is dropped |
| ParticleSystem.Expanded | src/js/particle-system.js:445-447 | a three-character colour has each character doubled; any other length is kept |
| ParticleSystem.BackgroundHexToRgb | src/js/particle-system.js:443-454 | the components always lie in 0..255, and a value that is not six hex digits gives the fallback colour (0, 212, 255) |
| ParticleSystem.ShorthandDoubles | src/js/particle-system.js:445-453 | a three-digit colour `#abc` reads as `#aabbcc`, each component being its digit times 17 |
| ParticleSystem.AgreesWithHexToRgb | src/js/particle-system.js:443-454 | on six hex digits the background parser agrees with `Utils.hexToRgb` |
| AudioManager.Resolve | src/js/audio-manager.js:81-90 | outside the installed web build, or for a source without the asset prefix, the source is kept; otherwise the prefix is swapped for the low-quality asset directory |
| AudioManager.ResolveIdempotent | src/js/audio-manager.js:81-90 | resolving an already resolved source changes nothing, so the second resolution in the sound cache lookup is harmless |
| AudioManager.SfxPath | src/js/audio-manager.js:372-374 | the key the sound cache uses for a source resolved by `playSfx` is that source's single resolution |
| AudioManager.VolumeOf | src/js/audio-manager.js:98-112 | a setting becomes a volume in [0, 1], and a setting in 0..100 becomes exactly its hundredth |
| AudioManager.Loudness | src/js/audio-manager.js:126 | with the master volume in [0, 1] the sound's volume is in [0, 1]; a per-call volume in [0, 1] is scaled by the master volume and one above 1 gives the master volume |
| AudioManager.FadeSteps | src/js/audio-manager.js:302 | at least one step; fades of 30 ms and more take the number of whole 30 ms ticks, and fades under 60 ms a single step |
| AudioManager.FadeLevel | src/js/audio-manager.js:305-307 | the fade fraction lies in [0, 1] and reaches 1 exactly when the step count is reached |
| AudioManager.FadeMonotone | src/js/audio-manager.js:305-307 | the fade fraction never decreases from tick to tick |
| AudioManager.Without | src/js/audio-manager.js:232 | the filtered tracks are taken from the list and none is the excluded one; the result is non-empty when any track differs from it |
| AudioManager.AudioManager.constructor | src/js/audio-manager.js:8-30 | the defaults: effects at 0.8, music at 0.6, no countdown played, no music playing, wanted or last picked |
| AudioManager.AudioManager.SetSfxVolume | src/js/audio-manager.js:98-102 | a finite setting becomes the effects volume through VolumeOf, a non-number leaves it; nothing else changes |
| AudioManager.AudioManager.SetBgmVolume | src/js/audio-manager.js:104-112 | a finite setting becomes the music volume through VolumeOf, a non-number leaves it; nothing else changes |
| AudioManager.AudioManager.PlaySfx | src/js/audio-manager.js:117-147 | an empty source or a muted effects channel plays nothing; otherwise exactly one sound is added, at the resolved path and with Loudness as its volume, which lies in [0, 1] |
| AudioManager.AudioManager.PlayTurnStart | src/js/audio-manager.js:170-173 | plays the turn-start sound (unless muted) and re-arms the countdown |
| AudioManager.AudioManager.PlayTurnCountdownOnce | src/js/audio-manager.js:175-179 | the countdown sound plays at most once until re-armed: a second call plays nothing, and afterwards the countdown is marked played |
| AudioManager.AudioManager.PlayTurnResult | src/js/audio-manager.js:181-184 | a tie plays nothing; otherwise the win sound when the player scored more, the lose sound when less |
| AudioManager.AudioManager.PlayGameResult | src/js/audio-manager.js:186-188 | plays the win or the lose sound as the player won or lost |
| AudioManager.AudioManager.PlayBgm | src/js/audio-manager.js:247-326 | the same track still playing is left alone; otherwise the resolved track becomes the wanted one, a real track becomes the current one, and a fade of FadeSteps ticks starts unless there is nothing to stop |
| AudioManager.AudioManager.PlayInGameBgm | src/js/audio-manager.js:226-237 | the pick is one of the in-game tracks, differs from the previous pick, is recorded as the last pick, and becomes the current track; it becomes the wanted track too unless it is already playing unpaused |
| AudioManager.AudioManager.StopBgm | src/js/audio-manager.js:239-242 | with no music nothing happens; otherwise a fade-out of FadeSteps ticks starts and nothing is wanted any more |
| ServiceWorker.AppVersion | service-worker.js:10-19 | the version file's non-empty version when the fetch succeeded, and "dev" after a failed fetch, a bad status, a missing or empty version; never empty |
| ServiceWorker.CacheName | service-worker.js:23-26 | the cache name is the shared prefix followed by "v" and the version |
| ServiceWorker.CacheNameInjective | service-worker.js:23-26 | different versions get different cache names |
| ServiceWorker.StaleCaches | service-worker.js:114-122 | activation deletes exactly the caches that carry the prefix and are not the active one |
| ServiceWorker.Remaining | service-worker.js:114-122 | the caches left after activation are exactly those without the prefix or the active one |
| ServiceWorker.ActivationPartitions | service-worker.js:114-122 | every existing cache is either deleted or kept, never both |
| ServiceWorker.ActivationKeepsOnlyActive | service-worker.js:114-122 | after activation the active cache survives, it is the only prefixed cache left, foreign caches are untouched and every other version's cache is deleted |
| ServiceWorker.ParseRangeComplete | service-worker.js:166 | every header of the form `bytes=<digits>-<digits>?` (either case of `bytes`) is accepted with those numbers |
| ServiceWorker.DigitRunPrefix | service-worker.js:166 | a digit run ends at the first non-digit |
| ServiceWorker.ParseRangeSound | service-worker.js:166 | every accepted header has that form |
| ServiceWorker.ParseRangeHeader | service-worker.js:166-169 | the header written for a range reads back as the same range |
| ServiceWorker.SlicePos | service-worker.js:172 | `ArrayBuffer.slice` clamps a position into the buffer and keeps one that is inside |
| ServiceWorker.Slice | service-worker.js:172 | the slice is the given window when it lies inside the buffer, empty when it starts past the end, and never longer than the buffer |
| ServiceWorker.SafeEnd | service-worker.js:171 | the served end is the requested end or the last byte, whichever is smaller |
| ServiceWorker.ServeRangeWhole | service-worker.js:166-170 | the whole cached response is returned exactly when the header does not parse or its start lies after its end |
| ServiceWorker.ServeRangePartial | service-worker.js:171-182 | a 206 answer has `Accept-Ranges: bytes`, a content range from the start to the safe end of the total, a length equal to its body, the requested bytes as body, and the cached content type or `audio/mpeg` |
| ServiceWorker.ServeSatisfiable | service-worker.js:166-182 | a range inside the body is served as exactly those bytes with the matching length and content range, and an open range as the rest of the body |
| ServiceWorker.ServePastEnd | service-worker.js:166-182 | a closed range past the end gives an empty 206 answer, and an open one past the end the whole cached response |
| ServiceWorker.Respond | service-worker.js:132-242 | only same-origin http(s) GET requests with a parseable URL are answered; only cacheable responses are stored, and range answers store nothing directly |
| ServiceWorker.RespondRange | service-worker.js:157-205 | a range request is answered from the copy cached under its path; without one it goes to the network and caches the full file under the path when that fetch is cacheable |
| ServiceWorker.RespondNetworkFirst | service-worker.js:207-239 | other requests go to the network first and store a cacheable answer; offline they get the cached copy, then for a navigation the offline page, then 503 |

## Left out

- Drawing and the DOM: the screens, modals and event binding of ui-manager.js, `ChartRenderer.render` and the `draw*` functions, particle `render`/`animate`/`start`/`resize`, toasts and ripples. They are presentation only.
- src/js/animation-manager.js, main.js, preload.js, pwa-server.js, src/js/pwa-asset-manager.js and the src/js/app.js bootstrap are not part of this model. They are animation, Electron and server plumbing, and download I/O.
- Timers (`setInterval`, `setTimeout`, `requestAnimationFrame`): a tick is a method call, and cooldown expiry compares the `now` parameter. The race in which an old timeout deletes a newer cooldown entry (game-actions.js:260-262) is concurrency.
- `Math.random` and `Date.now()` are parameters. Distributions and claims about expected difficulty are not modelled.
- IEEE-754 behaviour: overflow, underflow of a power of 1e-30 in Q's denominator (the Infinity branch of `calculateQ`), NaN propagation except where `None` stands for it, and number formatting (`toFixed`, `formatNumber`, `Math.round` of displayed values).
- `localStorage`, JSON (de)serialisation, `fetch`, Cache Storage, `Audio` elements and `window.electronAPI` are foreign effects. The store is an in-memory map, and the service worker's responses are values. Statistics, export/import and the collection queries of storage-manager.js are not modelled.
- The legacy AI strategies of ai-system.js: `makeDecision`, the easy/medium/hard/expert strategies, `applyOption`, `decide*`, `planActions`, `analyzeGameState` and `decideAbilityUse`. The real-time loop calls only `selectBestAction` (game.js:323).
- AISystem.AISystem.SelectBestAction: card candidates are not generated. The only caller passes `aiAbilities: this.state.aiAbilities` (game.js:320), which is never set.
- Reaction.UpdateEach, and through it the species loops of the engine, the pressure changes and the simulation: a species listed in the level but missing from the concentration map is skipped. The source would create a NaN entry for it.
- Chemistry.CalculateQ: the `Infinity` result for an underflowed denominator is not modelled. Under real arithmetic the denominator is never 0.
- Chemistry: `getReactionInfo` and `REACTION_TYPES` are descriptive text and are not modelled. The overridden `applyCatalyst` (chemistry-engine.js:182) and `getState` (chemistry-engine.js:174) are dead code, so only the later definitions are modelled.
- CardSystem: `updateCooldowns` repeats `reduceCooldowns` line for line, so it is modelled once as `ReduceCooldowns`. `getPlayerCards`/`getAICards` are read-only views. `applyActiveEffects` does nothing.
- Game: `startCustomLevel`, `restart`, `quit`, `nextLevel`, `applyChanges`, `showRoundResult`, `initParticleSystem` and the deprecated stubs are UI flow and are not modelled. Neither is the AI's `useAbilityCard` branch, which is unreachable because the AI has no cards.
- Game.Game.NextRound: without a level, the source throws a TypeError right after counting the round; the model stops at the same point.
- Levels: `getLevelById` is the same lookup as `getLevel`, so `GetLevel` covers both. `getTotalLevels` is the length of the level sequence and has no member of its own.
- StorageManager: storage-manager.js has no `getClaimedRewards`, although ui-manager.js:1669 and ui-manager.js:1748 call it. As written, `updateStarProgress` therefore throws a TypeError at ui-manager.js:1669 and its badge loop never runs. UiManager.HasClaimable models the loop that would run, taking the claimed list as a parameter.
- Terminal.Play: models the corrected call, which starts level N. As written, `play N` passes the level object and no level starts; that half is Terminal.PlayArgumentAsWritten with Terminal.PlayAsWrittenNeverStarts, under "## Findings".
- Terminal.Pass: models the corrected `pass all`, which unlocks the id of every level. As written it unlocks the ids 1 to the number of levels; that half is Terminal.PassAllIdsAsWritten with Terminal.PassAllAsWrittenMissesLevels, under "## Findings".
- Terminal.Terminal.Run: runs the corrected Terminal.Play and Terminal.Pass, so its `play` reply and the ids `pass all` writes are those of the corrections.
- Game.DifficultySetting: a stored difficulty that is not a whole number, such as 2.5, reads as missing and so as 2, where the source compares it as it is. The AI and the interval take whole difficulties.
- Game.RoundsSetting: a stored finite round count that is not a whole number reads as 10, where the source uses it as it is. The round counter is an integer.
- Strings.ToLower: lower-cases the ASCII letters only. `toLowerCase` also maps non-ASCII letters, which no key name the handler compares against contains.
- Terminal.Respond: `validate`, `fetch`, `ls`, `status`, `unlock-all-skin` and `version` only print text or call code outside this model, so their replies are the placeholder `Unmodelled`.
- KeyboardHandler.NextParam: the current parameter is one of three values, so the source's fallback from an unknown parameter to temperature never arises.
- ParticleSystem: the flow, burst, precipitate and bubble effects and the background system are not modelled, apart from `_hexToRgb`. They are animation driven by random draws.
- AudioManager: event listeners and the button-click sound, `applySettings`, the fade timers, the autoplay retry and the element cache are not modelled. The fade is modelled as its step count and its level at each step.
- ServiceWorker: install and its precache, the message handlers, the `arrayBuffer` fallback, the async ordering of `cache.put` and its failures, the text of the 503 body, and headers other than `Content-Type` and the range headers are not modelled.
- MathFns: the transcendental functions are values of the `Fns` record, constrained only by the law predicates. No particular implementation of them is fixed.

## Findings

| source | as written | input that shows it | evidently intended | confidence | as-written member | corrected member |
|---|---|---|---|---|---|---|
| src/js/terminal.js:78 | `play N` passes the level object to `Game.startLevel`, which looks the level up by id with `===` (game.js:89), so no level is found and the game never starts | `play 1` with level 1 unlocked | pass the level's id, so that level N starts | not executed | Terminal.PlayAsWrittenNeverStarts | Terminal.PlayStartsTheLevel |
| src/js/terminal.js:95-99 | `pass all` unlocks the ids 1 to `levels.length`, which is 36, while the catalogue's ids go up to 90 | `pass all` on the shipped catalogue: level 90 stays locked | unlock the id of every level in the catalogue | not executed | Terminal.PassAllAsWrittenMissesLevels | Terminal.PassAllUnlocksEveryLevel |
