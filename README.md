# Cyber Clicker — a Dafny model of the idle-game engine

Cyber Clicker is a browser idle game. The player earns *bits* by clicking
and from generators that produce bits per second (GPS). Bits buy more
generators, whose price grows by 15% per purchase. A *reboot* trades a run's
progress for a root-access level that multiplies all output. A secondary
currency, *cryptos*, comes from achievements, glitches and reboots, and is
spent on black-market items. The module build also has skills bought with
skill points, story events, a firewall penalty with a code keypad, and
offline earnings.

The repository holds three revisions of the same engine, and the model
covers all three over one set of datatypes, with
`Revision = Modular | Bundle | Backup`:

- `Modular` is the module build under `js/`;
- `Bundle` is the single-file `script.js`;
- `Backup` is the older copy under `backup/js/`. Its `game.js` and
  `game_bundle.js` hold the same logic, so they are one revision.

Where the revisions differ, every definition branches on `rev` explicitly.
Fields a revision does not have (skills, story events, statistics, the
firewall) keep neutral values there, and its skill tree and story list are
empty.

Layout, one module per concern of the source:

- constants.dfy (module `Constants`): the catalogs: generators, market items, achievements, story events, skill tree
- numeric.dfy (module `Numeric`): exact cost growth `ceil(c * 1.15)`, the recomputed cost `ceil(base * 1.15^n)`, integer square root and logarithm
- state.dfy (module `GameState`): the `gameState` record, `initState`, `loadState` with its skill-point migration, `resetStateForPrestige`
- ledger.dfy (module `Ledger`): `addBits`, `checkUnlocks`, `checkStoryEvents`
- rates.dfy (module `Rates`): `calculateGPS`, `calculateClickPower`, boosts
- formulas.dfy (module `Formulas`): `calculateGPSContribution`, `calculateEfficiency`, `getEfficiencyRating`
- prestige.dfy (module `Prestige`): `calculatePotentialRootAccess` (logarithmic and square-root), `rebootSystem`
- shop.dfy (module `Shop`): `buyUpgrade`, `buyBlackMarketItem`, `buySkill`
- firewall.dfy (module `Firewall`): `spawnFirewall`, `checkFirewallInput`, `handleKeypadInput`, `clearFirewall`, the keydown listeners, `handleGlitchClick`
- storage.dfy (module `Storage`): the `saveGame` snapshot, `loadGame`, `importSave`, save-then-load
- session.dfy (module `Session`): start-up with the offline credit, the click handler, the frame loop and the 100 ms tick
- engine.dfy (module `Engine`): class `Game`: the mutable `gameState`, the storage slot, the firewall input box and the loop's timestamp

Each operation has two forms:

- a function on values: `State` in, `State` out;
- a method of `Engine.Game` that updates the fields step by step, with the
  source's loops written as loops. Each such method is proved against that
  function.

The properties are stated on the functions and in lemmas.

Numbers are modelled as follows:

- Costs are natural numbers, and `Math.ceil(c * 1.15)` is `(115c + 99) / 100`.
- Rates, multipliers and bit balances are reals.
- Timestamps are integer milliseconds; frame times are reals.
- `Math.floor(5 * log10(x))` is the integer `n` with `10^n <= x^5 < 10^(n+1)`.
- `Math.floor(Math.sqrt(x))` is the integer square root of `floor(x)`.
- Random values and the player's answer to a `confirm` dialog are parameters.

## Model

| member | source | states |
|---|---|---|
| Constants.Upgrades | js/constants.js:8-22 | every build's generator catalog has distinct keys, nothing owned, a positive price and non-negative output; the backup generators carry no click bonus |
| Constants.ModularUpgrades | js/constants.js:8-22 | the module build sells 13 generators with distinct keys, none owned, each with a positive price and non-negative output |
| Constants.BundleUpgrades | script.js:6-15 | script.js sells 8 such generators |
| Constants.BackupUpgrades | backup/js/constants.js:1-8 | the backup build sells 6 such generators, none with a click bonus |
| Constants.OnlyClickerIsIdle | js/constants.js:9-21 | in every build a generator produces nothing exactly when it is `clicker`, and raises click power exactly when it is `clicker`, by one per unit |
| Constants.BackupCatalogIncreasing | backup/js/constants.js:1-8 | down the backup list both price and output strictly increase |
| Constants.Market | js/constants.js:24-34 | item keys are distinct and prices positive; a timed item has a positive duration and exactly one of a GPS or a click multiplier, an instant item positive hours; the older builds sell no click boost |
| Constants.Achievements | js/constants.js:45-68 | achievement ids are distinct and all start locked; backup achievements carry no reward |
| Constants.ModularAchievements | js/constants.js:45-68 | the module build has 17 achievements with distinct ids, all locked |
| Constants.BundleAchievements | script.js:31-40 | script.js has 8 achievements with distinct ids, all locked |
| Constants.BackupAchievements | backup/js/constants.js:24-33 | the backup build has 8 achievements with distinct ids, all locked, none paying a reward |
| Constants.Story | js/constants.js:71-79 | story ids are distinct and untriggered; only the module build has story events |
| Constants.SkillTree | js/constants.js:81-89 | skill ids are distinct with positive price and maximum; only the module build has a tree |
| Constants.PrestigeMasterDef | js/constants.js:86-88 | prestige_master costs 6 points and stops at level 3; crypto_magnet costs 3 and stops at 3 |
| Numeric.Grow | js/game.js:171 | the grown price is the least integer at or above 1.15 times the old price |
| Numeric.LadderBounds | js/game.js:171 | the price after n purchases made one at a time is never below the price recomputed from the count, ceil(base * 1.15^n) |
| Numeric.GrowKeepsBounds | js/game.js:171 | one more purchase keeps a price between the recomputed price and the ladder for the next count |
| Numeric.FloorSqrt | script.js:975-977 | the result r satisfies r*r <= n < (r+1)*(r+1) |
| Numeric.SqrtUnique | script.js:975-977 | that r is the only such integer |
| Numeric.Log10Floor | js/formulas.js:40-44 | the result r satisfies 10^r <= n < 10^(r+1) |
| Numeric.LogUnique | js/formulas.js:40-44 | that r is the only such integer |
| Numeric.LogMono | js/formulas.js:40-44 | the floored logarithm never decreases as n grows |
| GameState.RealOr | js/state.js:65-74 | `v \|\| d`: a missing or zero value gives the default, any other value is kept |
| GameState.IntOr | js/state.js:65-71 | the same defaulting for integer keys |
| GameState.SkillLookup | js/game.js:255 | `skills[id]` is present exactly when the map has the key, and then holds that key's level |
| GameState.SkillPut | js/game.js:263 | after `skills[id] = v` the key reads v, every other key reads as before, an existing key keeps its place and a new one goes last |
| GameState.SkillMergeLookup | js/state.js:77-79 | `{ ...base, ...saved }` reads the saved level for a key the save holds and the fresh level otherwise |
| GameState.ZeroSkills | js/state.js:41-44 | the fresh skill map has every tree key in tree order at level 0 |
| GameState.SkillMasterMissesMaxed | js/constants.js:60-64 | the skill_master test as written is false for click_efficiency 3 of 5 followed by firewall_bypass 3 of 3, although firewall_bypass is maxed |
| GameState.OwnedCount | js/constants.js:45-68 | `upgrades[id].count` is present exactly for a catalog key and is that generator's count |
| GameState.CatalogAligned | js/state.js:38-39 | the catalog as copied satisfies the generator invariant: the catalog's keys in order, each price within the bounds for its count |
| GameState.InitState | js/state.js:12-56 | a fresh state is valid: zero bits, lifetime bits, rate, cryptos, level and skill points; click power, permanent and offline multiplier 1; the catalog copied with nothing owned; nothing unlocked or triggered; no boosts; every skill at level 0; no firewall, empty code, no auto-glitch, tutorial unseen; outside the backup build, save and session time now |
| GameState.Unexpired | js/state.js:113-127 | a boost survives the filter exactly when it ends strictly after now |
| GameState.LoadCount | js/state.js:83-88 | a saved key not in the catalog changes nothing; otherwise the first generator with the key takes the saved count and the price recomputed for it, every other entry is unchanged, and the keys stay in place |
| GameState.LoadCounts | js/state.js:82-90 | loading saved counts keeps the catalog's keys in order; the per-key result is `GameState.LoadCountsByKey` |
| GameState.LoadCountsByKey | js/state.js:82-90 | with distinct keys, each generator the save names takes the count of the last saved entry for its key and the price recomputed for that count; any other generator is unchanged |
| GameState.LoadCountsAligned | js/state.js:82-90 | loading saved counts keeps every generator's price between the recomputed and the compounded price for its count |
| GameState.ApplyUnlocked | js/state.js:93-100 | restoring achievement flags by id keeps ids and definitions and changes only the flags; the per-id result is `GameState.ApplyUnlockedById` |
| GameState.UnlockOne | js/state.js:95-98 | an id the list lacks changes nothing; otherwise the first achievement with that id takes the saved flag and every other keeps its own |
| GameState.ApplyUnlockedById | js/state.js:93-100 | with distinct ids, an achievement the save names takes the last saved flag for its id and any other keeps its own |
| GameState.ApplyTriggered | js/state.js:103-110 | restoring story flags by id keeps ids and definitions and changes only the flags; the per-id result is `GameState.ApplyTriggeredById` |
| GameState.TriggerOne | js/state.js:105-108 | an id the list lacks changes nothing; otherwise the first event with that id takes the saved flag and every other keeps its own |
| GameState.ApplyTriggeredById | js/state.js:103-110 | with distinct ids, an event the save names takes the last saved flag for its id and any other keeps its own |
| GameState.MergeStats | js/state.js:129-134 | each of the seven statistics takes the saved value when the save holds it and keeps the current value otherwise |
| GameState.SpentPointsAbsent | js/state.js:141-143 | the migration's sum fails exactly when some skill key is missing from the tree (the source throws a TypeError there) |
| GameState.SpentPointsNonNegative | js/state.js:141-143 | with no negative level the points spent are never negative |
| GameState.LoadFields | js/state.js:61-134 | the copied state never has its rates or firewall assigned (rate 0, click power 1, no firewall), keeps the catalog's generator keys, and without saved generators or bits has the catalog and 0 bits |
| GameState.Overlay | js/state.js:65-134 | the saved keys laid over a fresh state leave its rates and firewall flag alone and keep its generator keys |
| GameState.Rebuild | js/state.js:76-127 | every keyed collection keeps the fresh state's id order; a collection the save lacks stays fresh; only boosts ending after now are restored |
| GameState.Fill | js/state.js:65-74 | every build copies bits, permanent multiplier, generators, achievements and boosts and assigns no rate and no firewall; the newer builds add the save time and statistics; only the module build copies skills, story, click boosts, offline multiplier and skill points |
| GameState.Migrate | js/state.js:136-147 | without a root level, or with points already, nothing changes; otherwise the state either throws (unknown key) or gets points equal to the root level minus the points spent, which may be negative |
| GameState.LoadState | js/state.js:61-149 | without a save the result is the fresh state; only the module build's migration can throw |
| GameState.ResetUpgrades | js/state.js:180-184 | every generator keeps its key and goes back to count 0; `GameState.ResetForPrestige` states that the prices return to the catalog prices |
| GameState.ResetForPrestige | js/state.js:152-185 | the whole new state: bits, lifetime bits, rate and GPS boosts zeroed, click power 1, the catalog back, root level set, permanent multiplier times 1.1 (unchanged in the backup build); every other field persists; validity is kept |
| Ledger.UnlockFrom | js/game.js:139-153 | the pass from position i changes only flags and cryptos, only locks to unlocked, and pays exactly the rewards of what it unlocked |
| Ledger.UnlockSound | js/game.js:139-153 | every achievement the pass unlocks has its condition true of the state the pass ends in |
| Ledger.UnlockComplete | js/game.js:139-153 | every achievement the pass leaves locked, except a crypto threshold, has its condition false of the final state |
| Ledger.GainedChain | js/game.js:139-153 | rewards gained over two successive unlock steps add up |
| Ledger.GainedOne | js/game.js:139-153 | unlocking one locked achievement gains exactly its reward |
| Ledger.UnlockStepGain | js/game.js:141-151 | one achievement's turn changes only its own flag and pays its reward if it unlocks |
| Ledger.HoldsIgnoresUnlocks | js/constants.js:45-68 | conditions other than a crypto threshold do not read flags or cryptos, so an unlock pass cannot change them |
| Ledger.CheckUnlocks | js/game.js:139-153 | `checkUnlocks` only unlocks, never relocks, and credits exactly the unlocked rewards |
| Ledger.StoryFrom | js/game.js:155-163 | from position i, an event ends triggered exactly when it was already or its condition holds |
| Ledger.CheckStoryEvents | js/game.js:155-163 | `checkStoryEvents` sets each event to triggered-or-condition and changes nothing else |
| Ledger.StoryIdempotent | js/game.js:155-163 | a second story pass right after the first changes nothing |
| Ledger.AddBits | js/game.js:46-56 | bits and lifetime bits grow by exactly the amount, as does the statistic outside the backup build; cryptos never fall, flags only unlock; rate, generators, level, skills, boosts and firewall stay |
| Ledger.AddBitsKeepsValid | js/game.js:46-56 | crediting a non-negative amount keeps a valid state valid |
| Ledger.AddBitsClickAchievement | js/game.js:46-56 | during `addBits` a locked click achievement unlocks exactly when the click count already reached it |
| Rates.BaseGpsNonNegative | js/game.js:103-117 | non-negative outputs never sum to a negative base rate |
| Rates.ProductPositive | js/game.js:124-129 | positive boost factors multiply to a positive factor |
| Rates.UnexpiredLater | js/game.js:123-125 | pruning is idempotent, and pruning at t1 then at a later t2 is pruning at t2 |
| Rates.ExpiredBoostInert | js/game.js:123-129 | a boost that already ended changes no rate |
| Rates.BoostOrderIrrelevant | js/game.js:123-129 | the order boosts were bought in does not change their factor |
| Rates.TenAutoClickersAndABot | script.js:873-907 | ten autoClickers and one bot give 2.0 bits per second at level 0 |
| Rates.Gps | js/game.js:103-137 | with no level, no permanent bonus, no live boost and no firewall penalty the rate is the base sum of output times count |
| Rates.ComputeGps | js/game.js:103-137 | the rate `calculateGPS` assigns is never negative in a valid state |
| Rates.GpsBoostsOnly | js/game.js:123-129 | boost lists with the same factor give the same rate |
| Rates.ClickPower | js/game.js:84-101 | with no live click boost (always in the older builds) a click earns one plus the sum of click bonus times count |
| Rates.ClickPowerPositive | js/game.js:84-101 | positive click boosts never make click power zero or negative |
| Rates.ComputeClickPower | js/game.js:84-101 | the older builds' power is one plus the click bonuses, and a valid state's power is positive |
| Rates.ComputeGpsReads | js/game.js:103-137 | the rate depends only on generators, level, permanent multiplier, live boosts and the firewall |
| Rates.GpsNonNegative | js/game.js:103-137 | generators with non-negative output and positive boost factors never give a negative rate |
| Rates.RecalcGps | js/game.js:103-137 | `calculateGPS` changes only the boost list and the rate, keeps exactly the boosts ending after now, stores the rate of its input, and keeps validity |
| Rates.RecalcGpsStable | js/game.js:103-137 | the stored rate equals the rate recomputed from the new state |
| Rates.RecalcClickPower | js/game.js:84-101 | `calculateClickPower` changes only click power and click boosts, prunes click boosts in the module build only, stores the power of its input (changes nothing in the backup build), and keeps validity |
| Rates.PrunedClickBoostsSame | js/game.js:95-98 | dropping expired click boosts first does not change the power at that moment |
| Rates.RecalcClickPowerStable | js/game.js:84-101 | the stored click power equals the power recomputed from the new state |
| Rates.RecalcBothStable | js/game.js:84-137 | after `calculateGPS` then `calculateClickPower`, both stored rates equal the rates recomputed from the resulting state |
| Formulas.ContributionOf | js/formulas.js:5-11 | an unknown key fails; a known one contributes output times count, with share 0 at a non-positive rate and contribution/rate*100 otherwise |
| Formulas.ShareSumIsBase | js/formulas.js:5-11 | the shares of all generators add up to the base rate as a percentage of the current rate |
| Formulas.SharesWithoutMultipliers | js/formulas.js:5-11 | with no level, permanent or boost factor the shares add up to 100%, or 200% under an active firewall |
| Formulas.EfficiencyOf | js/formulas.js:14-17 | efficiency is Infinity exactly when output is 0, otherwise price divided by output |
| Formulas.RatingOf | js/formulas.js:20-26 | the ratings N/A, Excellent, Good, Fair and Poor cover disjoint, exhaustive bands: Infinity, below 500, below 2000, below 10000, the rest |
| Formulas.RatingMonotone | js/formulas.js:20-26 | a lower price per unit of rate never gets a worse rating |
| Formulas.CatalogEfficiencies | js/formulas.js:14-17 | in every catalog only `clicker` has infinite efficiency |
| Prestige.FloorFiveLog | js/formulas.js:43 | `floor(5 * log10(x))` is the integer n with 10^n <= x^5 < 10^(n+1) |
| Prestige.FiveLogUnique | js/formulas.js:43 | that n is unique |
| Prestige.FiveLogMono | js/formulas.js:43 | it never decreases as x grows |
| Prestige.PotentialLog | js/formulas.js:28-45 | 0 below 10^7 lifetime bits; above, with prestige_master k below 10, the n with 10^n <= (adjusted/10^7)^5 < 10^(n+1), adjusted = lifetime/(1-0.1k); Infinity at k = 10, NaN above |
| Prestige.PotentialSqrt | script.js:975-977 | NaN exactly for a negative lifetime, otherwise the largest n with n*n*10^6 <= lifetime |
| Prestige.PotentialOf | js/formulas.js:28-45 | the older builds give a level exactly for non-negative lifetime bits; the module build gives 0 below 10^7 and, above, Infinity exactly when prestige_master is 10 |
| Prestige.PotentialDefined | js/formulas.js:40-42 | in a valid state prestige_master is between 0 and 3, so the potential is a finite, non-negative level |
| Prestige.PrestigeMasterBound | js/constants.js:88 | a skill map that follows the tree holds prestige_master between 0 and its maximum 3 |
| Prestige.PotentialLogAtThreshold | js/formulas.js:37-44 | exactly 10^7 lifetime bits with no prestige_master give level 0 |
| Prestige.PotentialLogAtHundredMillion | js/formulas.js:30-44 | 10^8 lifetime bits give level 5 |
| Prestige.PotentialLogMonoLifetime | js/formulas.js:36-44 | more lifetime bits never lower the potential |
| Prestige.PotentialLogMonoSkill | js/formulas.js:40-44 | a higher prestige_master level never lowers the potential |
| Prestige.LogLevel | js/formulas.js:40-44 | above the threshold, with k below 10, the potential is the floored five-fold logarithm of the adjusted lifetime, which is at least 1 |
| Prestige.PotentialSqrtMono | script.js:975-977 | more lifetime bits never lower the square-root potential |
| Prestige.PotentialSqrtAtOneMillion | script.js:975-977 | 1,000,000 lifetime bits give level 1, and 999,999 give 0 |
| Prestige.PotentialSqrtAtEightMillion | script.js:975-977 | 8,000,000 lifetime bits give level 2 |
| Prestige.Payout | js/game.js:304-309 | the module build and script.js add the levels gained to cryptos and count one reboot; the backup build pays nothing; validity is kept |
| Prestige.Reboot | js/game.js:301-320 | an unconfirmed reboot, or one whose potential does not exceed the level, changes nothing; otherwise the gain is paid and the run reset at the potential level |
| Prestige.RebootRaisesLevel | js/game.js:301-320 | a reboot keeps validity and never lowers the level; one that happens raises it and zeroes bits and lifetime bits; cryptos minus level are unchanged (cryptos unchanged in the backup build) |
| Shop.OneMore | js/game.js:170-171 | one more unit owned, at the grown price, nothing else of the generator changed |
| Shop.AfterUpgrade | js/game.js:170-176 | a purchase pays exactly the price, gives the generator one more unit at the grown price, changes only balance, generators and derived rates, keeps an affordable purchase valid, and leaves both shown rates equal to the rates of the new holdings |
| Shop.BuyUpgrade | js/game.js:166-195 | an unknown key or an unaffordable price changes nothing; otherwise the price is paid, the generator gets one more unit at the grown price and both shown rates are those of the new state; only balance, generators and derived rates change; validity is kept |
| Shop.BoughtAligned | js/game.js:170-171 | a purchase keeps every price between the recomputed and the compounded price for its count |
| Shop.PriceLadder | js/game.js:171 | k purchases walk the compounded price ladder, which never falls below the recomputed price |
| Shop.FirstAutoClicker | script.js:924-942 | with 100 bits and a fresh catalog, an autoClicker leaves 85 bits, one unit owned and a price of 18 |
| Shop.AutoClickerReloadPrice | js/state.js:87 | an autoClicker compounded twice costs 21 (15, 18, 21), while a reload recomputes 20 |
| Shop.ApplyItemValid | js/game.js:203-238 | applying a well-formed item of the build's market keeps a valid state valid |
| Shop.Spend | js/game.js:200-201 | paying an item's price lowers the cryptos by exactly the price and nothing else |
| Shop.ApplyItem | js/game.js:203-238 | no item touches generators or level; only an instant item moves the balance, by its hours of the current rate, and it never lowers cryptos |
| Shop.Consume | js/game.js:203-219 | a timed item appends a click boost (module build, click multiplier) or a GPS boost ending `duration` ms from now |
| Shop.Install | js/game.js:220-232 | in the module build autoGlitch turns auto-glitch on and offlineBoost adds to the offline multiplier; every other permanent item (all of them in the older builds) adds to the permanent multiplier; cryptos unchanged; validity kept |
| Shop.BuyMarketItem | js/game.js:198-248 | an unknown key or an unaffordable price changes nothing; a purchase leaves the generators alone, shows the rate of the new state, and lowers the cryptos by exactly the price (by at most the price for an instant item, whose credit may unlock rewards) |
| Shop.BuyMarketItemValid | js/game.js:198-248 | buying from the market keeps a valid state valid |
| Shop.PurchaseValid | js/game.js:198-248 | paying for a catalog item, applying it and recomputing GPS keeps validity |
| Shop.BoughtBoostRuns | js/game.js:198-219 | a bought timed item costs its price and its boost is live afterwards |
| Shop.BoostBought | js/game.js:203-219 | for any timed item with a positive duration, the pushed boost survives the pruning in `calculateGPS` |
| Shop.BoughtPermanentRaises | js/game.js:198-232 | a bought permanent item costs its price; autoGlitch (module build) turns auto-glitch on, offlineBoost adds its offline multiplier, any other item adds its multiplier, and no other multiplier changes |
| Shop.MarketItemFacts | js/constants.js:24-34 | every catalog item is well formed, and the older builds sell no click boost |
| Shop.WindfallNonNegative | js/game.js:233-237 | an instant item never credits a negative amount |
| Shop.Windfall | js/game.js:233-237 | bits and lifetime bits grow by the item's hours of the current rate; rate and generators stay; cryptos never fall |
| Shop.RaiseSkill | js/game.js:251-263 | the raise fails exactly for an unknown, maxed or unaffordable skill; otherwise points drop by the price, the level rises by one, nothing else changes |
| Shop.RaiseSkillAt | js/game.js:255-263 | a known, unmaxed, affordable skill at its current level is raised to level + 1 for its price |
| Shop.BuySkill | js/game.js:251-280 | a failed raise changes nothing; a successful one is the raise, changing besides only the rates and boosts, and both shown rates are those of the new state |
| Shop.BuySkillValid | js/game.js:251-280 | buying a skill keeps validity, so no level exceeds its maximum |
| Shop.RaiseSkillValid | js/game.js:261-263 | raising a skill of the tree keeps validity |
| Shop.RaiseSkillKeepsBudget | js/game.js:261-263 | points in hand plus points spent on skills are unchanged by a raise |
| Shop.BuySkillKeepsBudget | js/game.js:251-280 | a skill purchase keeps points in hand plus points spent |
| Firewall.Upper | js/main.js:39 | `toUpperCase` maps ASCII lower-case letters to upper case and keeps every other character |
| Firewall.HexDigitIncluded | js/main.js:40 | a single upper-case hex digit passes the `includes` test |
| Firewall.Spawn | js/game.js:368-391 | nothing while a firewall is up; otherwise it goes up with the given code, is counted, the box is emptied and GPS recomputed with the penalty; validity kept |
| Firewall.FirewallHalvesGps | js/game.js:132-134 | an active firewall halves the rate |
| Firewall.Clear | js/game.js:426-443 | the firewall drops, is counted as cleared, GPS is recomputed without the penalty and 300 seconds of it are credited |
| Firewall.Lower | js/game.js:427-436 | the flag drops, the cleared counter rises by one, bits unchanged, GPS recomputed without the penalty |
| Firewall.Breach | js/game.js:437-438 | the reward adds 300 seconds of the current rate to bits |
| Firewall.Check | js/game.js:393-407 | with a firewall up, an input whose upper-case form is the code clears it and empties the box; anything else changes nothing |
| Firewall.Keypad | js/game.js:410-424 | CLR empties the box, OK checks it, another button appends while the box has fewer than 4 characters and checks |
| Firewall.KeyDown | js/main.js:37-49 | keys do nothing while no firewall is up |
| Firewall.DropLast | js/main.js:43-44 | `slice(0, -1)` removes the last character, and keeps an empty box empty |
| Firewall.KeypadKeepsLimit | js/game.js:410-424 | the keypad never puts more than 4 characters in the box |
| Firewall.KeyDownKeepsLimit | js/main.js:37-49 | the keyboard never puts more than 4 characters in the box |
| Firewall.TypingCodeClears | js/main.js:37-49 | typing the code's last hex letter in lower case after the first three clears the firewall and empties the box |
| Firewall.Glitch | js/game.js:353-365 | a glitch pays the roll, plus the crypto_magnet level in the module build, and changes nothing else |
| Firewall.GlitchPays | js/game.js:353-365 | in a valid state a glitch pays between 1 and 8 cryptos and keeps validity |
| Firewall.MagnetBound | js/game.js:356 | in a valid state crypto_magnet reads between 0 and 3 |
| Storage.SavedUpgrades | js/storage.js:14 | each saved generator keeps its id, count and price |
| Storage.SavedAchievements | js/storage.js:15 | each saved achievement is its id and flag |
| Storage.SavedStory | js/storage.js:16 | each saved story event is its id and flag |
| Storage.Snapshot | js/storage.js:9-26 | the snapshot holds bits, lifetime bits, generators, flags, level, cryptos, permanent multiplier and boosts; the newer builds add statistics and save time now; the module build adds story, skills, points and tutorial flag; offline multiplier, auto-glitch and click boosts are never saved |
| Storage.LoadGame | js/storage.js:37-52 | a save is reported exactly when one is stored and its load does not throw; a missing save, a throwing load or (module build) a corrupt save gives the fresh state; the older builds keep the current state on a corrupt save |
| Storage.ImportSave | js/storage.js:93-135 | invalid, unparsable or unconfirmed data changes nothing; confirmed data is loaded; if the load throws the partial state stays unsaved, otherwise it is saved and the rates recomputed |
| Storage.SnapshotImportable | js/storage.js:106 | any snapshot passes the import validation |
| Storage.Rescaled | js/state.js:87 | a reload keeps each count and recomputes its price from the catalog price |
| Storage.ApplyUnlockedRestores | js/state.js:93-100 | restoring saved achievement flags by id gives back the saved achievements exactly |
| Storage.ApplyTriggeredRestores | js/state.js:103-110 | restoring saved story flags by id gives back the saved events exactly |
| Storage.LoadCountsRestores | js/state.js:82-90 | loading saved generators in order gives the saved generators with recomputed prices |
| Storage.LoadCountAt | js/state.js:83-88 | loading the next saved generator restores its own slot only |
| Storage.SkillMergeRestores | js/state.js:77-79 | merging a saved skill map over the fresh one gives back the saved map |
| Storage.MergeStatsRestores | js/state.js:130-134 | merging saved statistics gives back the saved statistics |
| Storage.UpgradesRestore | js/state.js:82-90 | loading a snapshot's generators over the catalog gives them back with recomputed prices |
| Storage.AchievementsRestore | js/state.js:93-100 | loading a snapshot's flags over the fresh list gives back the achievements |
| Storage.StoryRestores | js/state.js:103-110 | loading a snapshot's story flags gives back the story events |
| Storage.SkillsRestore | js/state.js:77-79 | loading a snapshot's skill map gives back the skill map |
| Storage.RestoredFields | js/state.js:61-134 | loading a valid state's snapshot copies back every saved field |
| Storage.FillSnapshot | js/state.js:65-74 | the scalar keys of a snapshot land on any fresh state as saved, with unsaved keys fresh |
| Storage.RestoredCollections | js/state.js:76-127 | the collections rebuilt from a snapshot are the saved ones, prices recomputed and boosts pruned |
| Storage.SaveThenLoad | js/state.js:61-149 | loading a valid state's snapshot never throws and gives the reloaded state |
| Storage.MigrateRestored | js/state.js:136-147 | the skill-point grant on a restored state is the reloaded state's |
| Storage.ReloadKeepsProgress | js/storage.js:11-26 | save then load keeps ledger, level, cryptos, multiplier, flags, counts, statistics and skills; drops the firewall; rate reads 0 until recomputed; no price rises |
| Storage.RescaledAligned | js/state.js:87 | recomputed prices keep the generator invariant and never exceed the compounded prices |
| Session.OfflineBitsJs | js/main.js:62-66 | no credit within 10 s of the save; after that the whole bits of rate * multiplier * seconds away |
| Session.OfflineJs | js/main.js:62-78 | the module build's offline bits are added only when positive |
| Session.OfflineBundle | script.js:1175-1194 | script.js credits every second away at the current rate, only with a save time, more than 60 s away and a positive rate; rate, generators and level stay |
| Session.LoadedRateIsZero | js/state.js:15 | a loaded state has rate 0, as `loadState` never assigns it |
| Session.Startup | js/main.js:52-82 | the module build's start-up is the load followed by both recalculations; the older builds keep the state without a save, and after a load show the loaded state's rate with its generators and never fewer bits; the backup build credits no offline time |
| Session.StartupJs | js/main.js:52-82 | both rates the module build shows after start-up are the rates of the resulting state, and at rate 0 the offline block changes nothing |
| Session.StartupBundle | script.js:1168-1194 | without a save script.js changes nothing; after a load it shows the loaded state's rate, keeps its generators and never lowers bits |
| Session.JsOfflineNeverCredits | js/main.js:52-82 | the module build's start-up never credits offline time: it is the load followed by the recalculation |
| Session.ZeroRateNoOffline | js/main.js:62-78 | at rate 0 the offline block credits nothing |
| Session.JsReopenKeepsBits | js/main.js:52-82 | a valid run saved and reopened in the module build has exactly its saved bits, however long it was away |
| Session.BundleReopenCredits | script.js:1168-1194 | script.js reopens a save as the reloaded state with rates recomputed, then runs its offline block |
| Session.RebootThenReload | js/game.js:301-320 | the save and reload after a module-build reboot keeps the new level and the skills, and a run with no points comes back holding the new level less the cost of its skills |
| Session.OfflineCredit | script.js:1175-1181 | more than a minute after a save, script.js pays the rate for every second away |
| Session.BundleOfflineUncapped | script.js:1175-1181 | script.js's offline credit grows linearly in time away, with no cap |
| Session.Click | js/main.js:95-99 | a click credits click power and counts one click (not counted in the backup build) |
| Session.ClickKeepsValid | js/main.js:95-99 | a click keeps a valid state valid |
| Session.ClickOrdering | js/main.js:95-99 | a click achievement reached by this very click stays locked in the module build, which credits first, and unlocks in script.js, which counts first |
| Session.Frame | js/main.js:135-144 | a frame credits rate * seconds since the last frame; the module build starts from the first frame itself; script.js credits only a positive rate |
| Session.FramePays | js/main.js:135-144 | one frame pays the rate for the time since its origin |
| Session.FramesTelescope | js/main.js:135-144 | over a run of frames the credits add up to the rate times the time from the origin to the last frame |
| Session.TickPay | backup/js/game.js:235-239 | a backup tick pays a tenth of a positive rate, else nothing |
| Session.Tick | backup/js/game.js:235-239 | a tick adds its pay to bits and keeps the rate |
| Session.TicksPay | backup/js/game.js:235-239 | n ticks pay n times one tick's pay |
| Session.TenTicksPayOneSecond | backup/js/game.js:235-239 | ten ticks pay one second of a positive rate |
| Engine.UnlockSaves | js/game.js:141-150 | each unlock saves, so after an achievement's turn the slot holds the state if the pass changed a flag, else the slot as it was |
| Engine.StorySaves | js/game.js:157-161 | the same for each story event's turn |
| Engine.PassesCompose | js/game.js:54-55 | the saves of the achievement pass followed by the story pass leave the slot as one combined pass would |
| Engine.Game.constructor | js/state.js:12-56 | the page starts with the fresh state (standing in for the empty pre-load object, see "## Left out"), an empty slot, an empty box and no timestamp |
| Engine.Game.Save | js/storage.js:9-27 | the slot holds the snapshot of the current state at now; nothing else changes |
| Engine.Game.InitState | js/state.js:12-56 | the state becomes the fresh state |
| Engine.Game.LoadState | js/state.js:61-149 | the state and the thrown flag are those of `loadState` |
| Engine.Game.LoadFields | js/state.js:62-134 | the copy of every key before the migration |
| Engine.Game.MigrateSkillPoints | js/state.js:136-147 | the migration block, throwing exactly where the source does |
| Engine.Game.ResetForPrestige | js/state.js:152-185 | the state becomes the prestige reset, including the loop over generators |
| Engine.Game.UnlockAt | js/game.js:141-150 | one achievement's turn: unlock, pay and save, or nothing |
| Engine.Game.CheckUnlocks | js/game.js:139-153 | the pass over the achievements, with the slot as the saves leave it |
| Engine.Game.StoryAt | js/game.js:156-162 | one story event's turn: fire and save, or nothing |
| Engine.Game.CheckStoryEvents | js/game.js:155-163 | the pass over the story events, with the slot as the saves leave it |
| Engine.Game.AddBits | js/game.js:46-56 | the credit and both passes; a valid game stays valid under a credit that is not negative |
| Engine.Game.Earn | js/game.js:46-56 | the steps of `addBits`: the credit, then both passes with their saves |
| Engine.Game.BuyUpgrade | js/game.js:166-195 | the purchase on a valid game, which stays valid; an affordable one is saved, an unaffordable one changes nothing |
| Engine.Game.Purchase | js/game.js:166-195 | the steps of `buyUpgrade`: pay, count, grow the price, recompute the rates and save |
| Engine.Game.BuyMarketItem | js/game.js:198-248 | the market purchase on a valid game, which stays valid; an affordable one is saved, an unaffordable one changes nothing |
| Engine.Game.ApplyItem | js/game.js:203-238 | the branch on the item's kind |
| Engine.Game.Windfall | js/game.js:233-237 | `addBits(gps * 3600 * hours)` |
| Engine.Game.Consume | js/game.js:203-219 | the boost push |
| Engine.Game.Install | js/game.js:220-232 | the permanent effect |
| Engine.Game.BuySkill | js/game.js:251-280 | the skill purchase on a valid game, which stays valid; a successful one is saved, a failed one changes nothing |
| Engine.Game.Learn | js/game.js:251-280 | the steps of `buySkill`: the raise, the rates and the save |
| Engine.Game.PaySkill | js/game.js:262-263 | the points paid and the level raised |
| Engine.Game.Glitch | js/game.js:353-365 | the glitch reward on a valid game, which stays valid, then a save |
| Engine.Game.Reboot | js/game.js:301-320 | the reboot on a valid game, which stays valid; one that happens is saved |
| Engine.Game.Restart | js/game.js:301-320 | the steps of `rebootSystem`: pay, count, reset and save |
| Engine.Game.SpawnFirewall | js/game.js:368-391 | the firewall spawn with the given code |
| Engine.Game.ClearFirewall | js/game.js:426-443 | the clear, with the saves of the credit's passes |
| Engine.Game.LowerFirewall | js/game.js:427-436 | the first half of the clear |
| Engine.Game.CheckFirewallInput | js/game.js:393-407 | the code check on the box |
| Engine.Game.Keypad | js/game.js:410-424 | an on-screen keypad button; a valid game stays valid and the box keeps at most 4 characters |
| Engine.Game.KeyDown | js/main.js:37-49 | the keydown listener; a valid game stays valid and the box keeps at most 4 characters |
| Engine.Game.Click | js/main.js:95-99 | the click handler on a valid game, which stays valid |
| Engine.Game.Tap | js/main.js:95-99 | the steps of the click handler, in each build's order |
| Engine.Game.Frame | js/main.js:135-144 | one animation frame |
| Engine.Game.FrameJs | js/main.js:135-144 | the module build's frame: the first frame counts from itself, any rate is credited |
| Engine.Game.FrameBundle | script.js:1286-1296 | script.js's frame: only a positive rate is credited |
| Engine.Game.Tick | backup/js/game.js:235-239 | the backup build's 100 ms step |
| Engine.Game.LoadGame | js/storage.js:37-52 | `loadGame` on the slot |
| Engine.Game.Init | js/main.js:52-82 | start-up: load, the revision's offline block and the rate recalculations |
| Engine.Game.StartJs | js/main.js:52-82 | the module build after the load: a fresh state without a save, the offline block, both rates |
| Engine.Game.StartBundle | script.js:1168-1194 | script.js after the load: both rates, then the offline block, only after a load |
| Engine.Game.OfflineJs | js/main.js:62-78 | the module build's offline block |
| Engine.Game.OfflineBundle | script.js:1175-1194 | script.js's offline block |
| Engine.Game.ImportSave | js/storage.js:93-135 | `importSave` with the decoded data and the answer |
| Engine.Game.CalculateGps | js/game.js:103-137 | `calculateGPS` on the state |
| Engine.Game.CalculateClickPower | js/game.js:84-101 | `calculateClickPower` on the state |
| Engine.RateOf | js/game.js:103-137 | the loop and factors of `calculateGPS` compute the specified rate and the pruned boosts |
| Engine.LevelAndPermanent | js/game.js:113-120 | the level factor above level 0 and the permanent factor above 1 |
| Engine.ClickPowerOf | js/game.js:84-101 | the loop and boosts of `calculateClickPower` compute the specified power and kept boosts |
| Engine.GeneratorSum | js/game.js:105-110 | the loop sums output times count |
| Engine.ClickBonus | js/game.js:86-91 | the loop, starting from 0, sums click bonus times count over the generators |
| Engine.LoadCollections | js/state.js:76-134 | every collection rebuilt from the save |
| Engine.MergeSkills | js/state.js:77-79 | the spread of the saved skills |
| Engine.LoadUpgradeCounts | js/state.js:82-90 | the loop over saved generators |
| Engine.LoadUnlocked | js/state.js:93-100 | the loop restoring achievement flags |
| Engine.Unlock | js/state.js:95-98 | one achievement flag restored by id |
| Engine.LoadTriggered | js/state.js:103-110 | the loop restoring story flags |
| Engine.Trigger | js/state.js:105-108 | one story flag restored by id |
| Engine.SkillSpend | js/state.js:140-143 | the sum of level times price, failing where the source throws |
| Engine.ResetCounts | js/state.js:180-184 | the reset loop over generators |
| Engine.KeepUnexpired | js/state.js:116 | the boost filter |
| Engine.BoostProduct | js/game.js:124-129 | the multiplier loop computes the product of the factors |

## Code over comments and tests

The model follows the code where its comments or tests say otherwise:

- The prestige reset zeroes `lifetimeBits` (js/state.js:154).
- The module build's reset never grants skill points. Line 157 assigns the
  new level before lines 159 and 172 take the difference, so both
  differences are 0. The reboot then saves and reloads the page
  (js/game.js:312-313, and script.js:991-992 in the bundle). When the run
  had no points, the load's migration (js/state.js:136-147) grants the new
  level less what the skills cost (`Session.RebootThenReload`).
- There is no cap on offline time.
- In the module build the offline block reads the rate before
  `calculateGPS` runs, so it never credits anything (`Session.JsOfflineNeverCredits`).
- At 10^8 lifetime bits the logarithmic potential is 5, not the 3 the
  comment at js/formulas.js:34 suggests.
- tests.js:154 expects a price near 15 * 1.15, but the code rounds up to 18.
- tests/state.test.js:103-105 expect cryptos and multipliers to reset on
  load, but js/state.js:68-70 loads them.
- The skill_master condition looks up the first skill holding a level and
  can miss a maxed skill (`GameState.SkillMasterMissesMaxed`). The model
  keeps the condition as written.

## Left out

- DOM rendering, notifications, the tutorial, sound and logging (js/ui.js, backup/js/ui.js, js/sound.js, js/logger.js, the UI part of script.js): they do not change the game state.
- Timers: the animation-frame and interval scheduling, the auto-save, reboot-button and firewall-chance intervals, and their cancellation. Only one frame, one tick and `saveGame` itself are modelled.
- The backup build's `init` re-run on reboot (backup/js/game.js:119). It duplicates the accrual intervals. It also attaches a new anonymous hack-button click listener (and a new Ctrl+S keydown listener) without removing the old ones; the reboot button's `rebootSystem` is the same function each time, so the browser keeps it once. After k reboots one click therefore pays the click power k+1 times. The model pays once per click, as on a fresh page: listener registration is not modelled.
- Randomness: the glitch roll, the firewall code and the 10% firewall chance are parameters or the caller's choice. Glitch spawn timing and the auto-glitch coin flip (js/game.js:323-351) are left out.
- The data-breach minigame (js/game.js:446-576): its grid and timer are UI-driven. Its reward is `addBits(gps * 300)`, the same credit as `Firewall.Breach`.
- Browser storage and dialogs: localStorage, JSON, base64, `confirm` and `location.reload`. The slot holds parsed data or a corrupt marker; decoding is done by the caller; the answer to `confirm` is a parameter. `exportSave`, `hardReset` and `clearSave` only move text or wipe the slot and are not modelled.
- JSON values of the wrong type (a save whose `bits` is a string, say): each saved key is either present with the right type or missing.
- Floating point: rates and multipliers are exact reals; 1.15, `Math.pow`, `log10` and `sqrt` are exact (integer ceiling, integer square root, the 10^n <= x^5 characterisation). Float rounding can differ at exact boundaries.
- `toUpperCase` is modelled on ASCII only.
- Module loading: js/main.js, js/storage.js and js/formulas.js import `getGameState`, which js/state.js does not export. The model treats it as the one shared state.
- js/main.js:31 assigns to `firewallInput`, a binding imported from js/ui.js:36. Module code cannot assign an import, so this throws whenever the page has `#firewall-input`. The catch at js/main.js:127-130 only logs the error, so start-up would stop before the keydown listener, `loadGame`, the offline block, the rate recalculations, the click handler and the frame loop. The model runs `init` as if line 31 succeeded.
- Skills without an effect in the code (gps_overclock, click_efficiency, firewall_bypass, lucky_hacker, offline_optimizer) are bought and counted but affect nothing, as in the code.
- The duplicates of `calculateGPSContribution`, `calculateEfficiency`, `getEfficiencyRating` and `calculatePotentialRootAccess` in js/game.js:60-80 and 283-299 share the js/formulas.js model.
- Prestige.Reboot: an edited save with prestige_master at 10 or more makes the potential +Infinity or NaN. The source would then reset to an infinite level, or do nothing. The model leaves the state unchanged in both cases. `Prestige.PotentialDefined` shows a valid state never reaches them.
- GameState.LoadState: its contract speaks only of a missing save and of which build can throw. The field-by-field result is stated for snapshots by `Storage.SaveThenLoad` and `Storage.ReloadKeepsProgress`; for any save, `GameState.Fill`, `GameState.Rebuild` and the per-key rules (`GameState.LoadCountsByKey`, `GameState.ApplyUnlockedById`, `GameState.ApplyTriggeredById`, `GameState.MergeStats`) state what each key becomes.
- Shop.BuyMarketItem: for an instant item the contract bounds the cryptos from below only, because the credit runs the achievement pass, which may pay rewards. The exact credit is stated by `Shop.ApplyItem` and `Shop.Windfall`; timed and permanent purchases by `Shop.BoughtBoostRuns` and `Shop.BoughtPermanentRaises`.
- Firewall.KeyDown: its contract covers only keys pressed with no firewall up. Typing is stated by `Firewall.TypingCodeClears` and `Firewall.KeyDownKeepsLimit`.
- Engine.Game.Keypad: takes only the keypad's own buttons (one character, CLR or OK). Engine.Game.KeyDown takes any key except a name of several characters that is itself a run of hex digits, such as "AB". No browser key has such a name. The source would append such a key whole, and the box could pass 4 characters.
- GameState.LoadCounts: its own contract states only the key order. The per-key result needs distinct catalog keys, which every catalog has, so it is the separate lemma `GameState.LoadCountsByKey`; one saved entry is stated exactly by `GameState.LoadCount`.
- GameState.ApplyUnlocked: likewise, the per-id result is `GameState.ApplyUnlockedById`, and one saved flag is stated exactly by `GameState.UnlockOne`.
- GameState.ApplyTriggered: likewise `GameState.ApplyTriggeredById` and `GameState.TriggerOne`.
- Engine.Game.constructor: every build's page state starts as the empty object (js/state.js:10, script.js:171, backup/js/state.js:3), which has no `State` value; the model starts from the fresh state instead. The module build never shows that object, because its `loadGame` always ends in `loadState` (js/storage.js:37-52). Script.js and the backup build keep the empty object after a save that `JSON.parse` rejects (script.js:794-807, backup/js/storage.js:19-33), and their start-up then runs on missing fields; there the model goes on with the fresh state.
