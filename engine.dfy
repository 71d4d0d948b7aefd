// The running game as the pages hold it: one mutable `gameState`, the
// storage slot, the firewall input box and the loop's remembered
// timestamp. Each handler updates them step by step as the source does and
// is proved against the value-level definitions in the other modules.
module Engine {
  import opened Wrappers
  import opened Constants
  import opened GameState
  import Numeric
  import Rates
  import Ledger
  import Shop
  import Prestige
  import Firewall
  import Storage
  import Session

  /**
   * What the saves made during a pass of `addBits` leave in the slot: every
   * unlock and every story event calls `saveGame()`, so after a pass that
   * changed a flag the slot holds the final state; otherwise it is as it was.
   */
  function AfterPass(rev: Revision, before: State, after: State, stored: Storage.StoredSave, now: int): Storage.StoredSave
  {
    if after.achievements == before.achievements && after.storyEvents == before.storyEvents then stored
    else Storage.Saved(Storage.Snapshot(rev, after, now))
  }

  /**
   * One achievement's turn keeps the slot as the pass so far left it: an
   * unlock at a position the pass has not reached yet saves a state that
   * differs from the one the pass started from.
   */
  lemma UnlockSaves(rev: Revision, s0: State, s1: State, s2: State, i: nat,
                    stored0: Storage.StoredSave, stored1: Storage.StoredSave, stored2: Storage.StoredSave, now: int)
    requires i < |s1.achievements| == |s0.achievements| && s1.storyEvents == s0.storyEvents && s1.achievements[i] == s0.achievements[i]
    requires stored1 == AfterPass(rev, s0, s1, stored0, now)
    requires s2.storyEvents == s1.storyEvents && |s2.achievements| == |s1.achievements|
    requires s2.achievements[i] == s1.achievements[i] ==> s2 == s1 && stored2 == stored1
    requires s2.achievements[i] != s1.achievements[i] ==> stored2 == Storage.Saved(Storage.Snapshot(rev, s2, now))
    ensures stored2 == AfterPass(rev, s0, s2, stored0, now)
  {
    if s2.achievements[i] != s1.achievements[i] {
      assert s2.achievements != s0.achievements;
    }
  }

  /** One story event's turn keeps the slot as the pass so far left it. */
  lemma StorySaves(rev: Revision, s0: State, s1: State, s2: State, i: nat,
                   stored0: Storage.StoredSave, stored1: Storage.StoredSave, stored2: Storage.StoredSave, now: int)
    requires i < |s1.storyEvents| == |s0.storyEvents| && s1.achievements == s0.achievements && s1.storyEvents[i] == s0.storyEvents[i]
    requires stored1 == AfterPass(rev, s0, s1, stored0, now)
    requires s2.achievements == s1.achievements && |s2.storyEvents| == |s1.storyEvents|
    requires s2.storyEvents[i] == s1.storyEvents[i] ==> s2 == s1 && stored2 == stored1
    requires s2.storyEvents[i] != s1.storyEvents[i] ==> stored2 == Storage.Saved(Storage.Snapshot(rev, s2, now))
    ensures stored2 == AfterPass(rev, s0, s2, stored0, now)
  {
    if s2.storyEvents[i] != s1.storyEvents[i] {
      assert s2.storyEvents != s0.storyEvents;
    }
  }

  /** The saves of the achievement pass followed by those of the story pass. */
  lemma PassesCompose(rev: Revision, s: State, credited: State, unlocked: State, r: State,
                      stored: Storage.StoredSave, now: int)
    requires credited.achievements == s.achievements && credited.storyEvents == s.storyEvents
    requires unlocked.storyEvents == credited.storyEvents
    requires r == unlocked.(storyEvents := r.storyEvents)
    ensures AfterPass(rev, unlocked, r, AfterPass(rev, credited, unlocked, stored, now), now)
         == AfterPass(rev, s, r, stored, now)
  {}

  class Game {
    const rev: Revision
    var state: State
    var stored: Storage.StoredSave
    /** The firewall input box; the backup build has none. */
    var input: string
    /** `lastTimestamp` in js/main.js, `lastTickTime` in script.js. */
    var lastTimestamp: real

    ghost predicate Valid()
      reads this
    {
      GameState.Valid(rev, state) && |input| <= Firewall.InputLimit
    }

    /** The page before `init()`: a fresh state and an empty slot. */
    constructor (rev: Revision, now: int)
      ensures this.rev == rev && state == GameState.InitState(rev, now) && stored == Storage.Missing
      ensures input == "" && lastTimestamp == 0.0
      ensures Valid()
    {
      this.rev := rev;
      state := GameState.InitState(rev, now);
      stored := Storage.Missing;
      input := "";
      lastTimestamp := 0.0;
    }

    /** `saveGame()`. */
    method Save(now: int)
      modifies this`stored
      ensures stored == Storage.Saved(Storage.Snapshot(rev, state, now))
      ensures state == old(state) && input == old(input) && lastTimestamp == old(lastTimestamp)
    {
      stored := Storage.Saved(Storage.Snapshot(rev, state, now));
    }

    // ---------------------------------------------------------------
    // initState, loadState and resetStateForPrestige

    /** `initState()`: a fresh run; the `for...in` loop sets every skill of the tree to 0. */
    method InitState(now: int)
      modifies this`state
      ensures state == GameState.InitState(rev, now)
    {
      var tree := SkillTree(rev);
      var skills: seq<SkillLevel> := [];
      var i := 0;
      while i < |tree|
        invariant 0 <= i <= |tree|
        invariant skills == ZeroSkills(tree)[..i]
      {
        skills := skills + [SkillLevel(tree[i].id, 0)];
        i := i + 1;
      }
      state := State(
        bits := 0.0, lifetimeBits := 0.0, gps := 0.0, clickPower := 1.0,
        rootAccessLevel := 0, cryptos := 0,
        permanentMultiplier := 1.0, offlineMultiplier := 1.0,
        skillPoints := 0, skills := skills,
        firewallActive := false, firewallCode := "", autoGlitchEnabled := false,
        statistics := if rev == Backup then ZeroStats else ZeroStats.(sessionStartTime := now),
        upgrades := Upgrades(rev), achievements := Relock(Achievements(rev)), storyEvents := Untrigger(Story(rev)),
        tutorialSeen := false, activeBoosts := [], activeClickBoosts := [],
        lastSaveTime := if rev == Backup then 0 else now);
    }

    /**
     * `loadState(savedData)`: a fresh state, then each key of the save in
     * the order the revision copies them, then (module build) the
     * skill-point grant; `threw` says that the grant raised a TypeError.
     */
    method LoadState(data: Option<SaveData>, now: int) returns (threw: bool)
      modifies this`state
      ensures Loaded(state, threw) == GameState.LoadState(rev, data, now)
    {
      threw := false;
      if data.None? {
        InitState(now);
      } else {
        LoadFields(data.value, now);
        threw := MigrateSkillPoints();
      }
    }

    /** The body of `loadState` on a present save, up to the migration block. */
    method LoadFields(d: SaveData, now: int)
      modifies this`state
      ensures state == GameState.LoadFields(rev, d, now)
    {
      InitState(now);
      var c := LoadCollections(rev, state, d, now);
      state := GameState.Fill(rev, state, d, now, c);
    }

    /**
     * The migration block of `loadState`: with a root level and no points,
     * sum level times price over the skill map and grant the rest of the
     * level; a key missing from the tree throws before anything is assigned.
     */
    method MigrateSkillPoints() returns (threw: bool)
      modifies this`state
      ensures Loaded(state, threw) == Migrate(rev, old(state))
    {
      threw := false;
      if rev == Modular && state.rootAccessLevel > 0 && state.skillPoints == 0 {
        var spent := SkillSpend(state.skills, SkillTree(rev));
        if spent.None? {
          threw := true;
        } else {
          state := state.(skillPoints := state.rootAccessLevel - spent.value);
        }
      }
    }

    /**
     * `resetStateForPrestige(newRootLevel)`: the run's fields, then the
     * `for...in` loop putting every generator back at its catalog price.
     * The module build's skill-point lines compare the level with itself.
     */
    method ResetForPrestige(newLevel: int)
      requires UpgradesAligned(rev, state.upgrades)
      modifies this`state
      ensures state == GameState.ResetForPrestige(rev, old(state), newLevel)
    {
      var root := newLevel;
      var points := state.skillPoints;
      if rev == Modular {
        points := points + (newLevel - root);
        var levelsGained := newLevel - root;
        if levelsGained > 0 {
          points := points + levelsGained;
        }
      }
      var ups := ResetCounts(rev, state.upgrades);
      state := state.(bits := 0.0, lifetimeBits := 0.0, gps := 0.0, clickPower := 1.0,
                      rootAccessLevel := root, skillPoints := points,
                      permanentMultiplier := if rev == Backup then state.permanentMultiplier else state.permanentMultiplier * 1.1,
                      activeBoosts := [], upgrades := ups);
    }

    // ---------------------------------------------------------------
    // addBits and its passes

    /** One achievement's turn in `checkUnlocks()`: unlock it, pay its reward and save. */
    method UnlockAt(i: nat, now: int)
      requires i < |state.achievements|
      modifies this
      ensures state == Ledger.UnlockStep(rev, old(state), i)
      ensures state.storyEvents == old(state).storyEvents && |state.achievements| == |old(state).achievements|
      ensures forall k | 0 <= k < |state.achievements| && k != i :: state.achievements[k] == old(state).achievements[k]
      ensures state.achievements[i] == old(state).achievements[i] ==> state == old(state) && stored == old(stored)
      ensures state.achievements[i] != old(state).achievements[i] ==> stored == Storage.Saved(Storage.Snapshot(rev, state, now))
      ensures input == old(input) && lastTimestamp == old(lastTimestamp)
    {
      var a := state.achievements[i];
      if !a.unlocked && Holds(rev, a.condition, state) {
        state := state.(achievements := state.achievements[i := a.(unlocked := true)], cryptos := state.cryptos + a.reward);
        Save(now);
      }
    }

    /** `checkUnlocks()`: one pass in list order, saving after each unlock. */
    method CheckUnlocks(now: int)
      modifies this
      ensures state == Ledger.CheckUnlocks(rev, old(state))
      ensures stored == AfterPass(rev, old(state), state, old(stored), now)
      ensures input == old(input) && lastTimestamp == old(lastTimestamp)
    {
      var i := 0;
      while i < |state.achievements|
        invariant 0 <= i <= |state.achievements| == |old(state).achievements|
        invariant Ledger.UnlockFrom(rev, state, i) == Ledger.CheckUnlocks(rev, old(state))
        invariant state.storyEvents == old(state).storyEvents
        invariant forall k | i <= k < |state.achievements| :: state.achievements[k] == old(state).achievements[k]
        invariant stored == AfterPass(rev, old(state), state, old(stored), now)
        invariant input == old(input) && lastTimestamp == old(lastTimestamp)
      {
        assert Ledger.UnlockFrom(rev, state, i) == Ledger.UnlockFrom(rev, Ledger.UnlockStep(rev, state, i), i + 1);
        ghost var before, savedBefore := state, stored;
        UnlockAt(i, now);
        UnlockSaves(rev, old(state), before, state, i, old(stored), savedBefore, stored, now);
        i := i + 1;
      }
    }

    /** One story event's turn in `checkStoryEvents()`: fire it and save. */
    method StoryAt(i: nat, now: int)
      requires i < |state.storyEvents|
      modifies this
      ensures state == Ledger.StoryStep(rev, old(state), i)
      ensures state.achievements == old(state).achievements && |state.storyEvents| == |old(state).storyEvents|
      ensures forall k | 0 <= k < |state.storyEvents| && k != i :: state.storyEvents[k] == old(state).storyEvents[k]
      ensures state.storyEvents[i] == old(state).storyEvents[i] ==> state == old(state) && stored == old(stored)
      ensures state.storyEvents[i] != old(state).storyEvents[i] ==> stored == Storage.Saved(Storage.Snapshot(rev, state, now))
      ensures input == old(input) && lastTimestamp == old(lastTimestamp)
    {
      var e := state.storyEvents[i];
      if !e.triggered && Holds(rev, e.condition, state) {
        state := state.(storyEvents := state.storyEvents[i := e.(triggered := true)]);
        Save(now);
      }
    }

    /** `checkStoryEvents()` (module build): one pass in list order, saving after each event. */
    method CheckStoryEvents(now: int)
      modifies this
      ensures state == Ledger.CheckStoryEvents(rev, old(state))
      ensures stored == AfterPass(rev, old(state), state, old(stored), now)
      ensures input == old(input) && lastTimestamp == old(lastTimestamp)
    {
      var i := 0;
      while i < |state.storyEvents|
        invariant 0 <= i <= |state.storyEvents| == |old(state).storyEvents|
        invariant Ledger.StoryFrom(rev, state, i) == Ledger.CheckStoryEvents(rev, old(state))
        invariant state.achievements == old(state).achievements
        invariant forall k | i <= k < |state.storyEvents| :: state.storyEvents[k] == old(state).storyEvents[k]
        invariant stored == AfterPass(rev, old(state), state, old(stored), now)
        invariant input == old(input) && lastTimestamp == old(lastTimestamp)
      {
        assert Ledger.StoryFrom(rev, state, i) == Ledger.StoryFrom(rev, Ledger.StoryStep(rev, state, i), i + 1);
        ghost var before, savedBefore := state, stored;
        StoryAt(i, now);
        StorySaves(rev, old(state), before, state, i, old(stored), savedBefore, stored, now);
        i := i + 1;
      }
    }

    /** `addBits(amount)`: a valid game stays valid under a credit that is not negative. */
    method AddBits(amount: real, now: int)
      modifies this
      ensures state == Ledger.AddBits(rev, old(state), amount)
      ensures stored == AfterPass(rev, old(state), state, old(stored), now)
      ensures input == old(input) && lastTimestamp == old(lastTimestamp)
      ensures old(Valid()) && amount >= 0.0 ==> Valid()
    {
      Ledger.AddBitsKeepsValid(rev, state, amount);
      Earn(amount, now);
    }

    /** The steps of `addBits(amount)`: the credit, then the passes. */
    method Earn(amount: real, now: int)
      modifies this
      ensures state == Ledger.AddBits(rev, old(state), amount)
      ensures stored == AfterPass(rev, old(state), state, old(stored), now)
      ensures input == old(input) && lastTimestamp == old(lastTimestamp)
    {
      state := state.(bits := state.bits + amount, lifetimeBits := state.lifetimeBits + amount);
      if rev != Backup {
        state := state.(statistics := state.statistics.(totalBitsEarned := state.statistics.totalBitsEarned + amount));
      }
      assert state == Ledger.Credit(rev, old(state), amount);
      ghost var credited := state;
      CheckUnlocks(now);
      if rev == Modular {
        ghost var unlocked := state;
        CheckStoryEvents(now);
        PassesCompose(rev, old(state), credited, unlocked, state, old(stored), now);
      }
    }

    // ---------------------------------------------------------------
    // The shops

    /** `buyUpgrade(key)` on a valid game leaves it valid. */
    method BuyUpgrade(key: string, now: int)
      requires Valid()
      modifies this
      ensures Valid()
      ensures state == Shop.BuyUpgrade(rev, old(state), key, now)
      ensures Shop.UpgradeAffordable(old(state), key) ==> stored == Storage.Saved(Storage.Snapshot(rev, state, now))
      ensures !Shop.UpgradeAffordable(old(state), key) ==> state == old(state) && stored == old(stored)
      ensures input == old(input) && lastTimestamp == old(lastTimestamp)
    {
      Purchase(key, now);
    }

    /**
     * The steps of `buyUpgrade(key)`: pay the price, count the unit, grow
     * the price, recompute the rates (the backup build has no click power)
     * and save.
     */
    method Purchase(key: string, now: int)
      modifies this
      ensures state == Shop.BuyUpgrade(rev, old(state), key, now)
      ensures Shop.UpgradeAffordable(old(state), key) ==> stored == Storage.Saved(Storage.Snapshot(rev, state, now))
      ensures !Shop.UpgradeAffordable(old(state), key) ==> state == old(state) && stored == old(stored)
      ensures input == old(input) && lastTimestamp == old(lastTimestamp)
    {
      match Find(UpgradeIds(state.upgrades), key)
      case None =>
      case Some(i) =>
        var u := state.upgrades[i];
        if state.bits >= u.cost as real {
          state := state.(bits := state.bits - u.cost as real);
          state := state.(upgrades := state.upgrades[i := u.(count := u.count + 1, cost := Numeric.Grow(u.cost))]);
          assert state == Shop.Paid(rev, old(state), i);
          CalculateGps(now);
          if rev != Backup {
            CalculateClickPower(now);
          }
          Save(now);
        }
    }

    /**
     * `buyBlackMarketItem(key)`: pay in cryptos, apply the item by its kind,
     * recompute GPS and save.
     */
    method BuyMarketItem(key: string, now: int)
      requires Valid()
      modifies this
      ensures Valid()
      ensures state == Shop.BuyMarketItem(rev, old(state), key, now)
      ensures Shop.ItemAffordable(rev, old(state), key) ==> stored == Storage.Saved(Storage.Snapshot(rev, state, now))
      ensures !Shop.ItemAffordable(rev, old(state), key) ==> state == old(state) && stored == old(stored)
      ensures input == old(input) && lastTimestamp == old(lastTimestamp)
    {
      Shop.BuyMarketItemValid(rev, state, key, now);
      match FindItem(Market(rev), key)
      case None =>
      case Some(item) =>
        if state.cryptos >= item.cost {
          state := state.(cryptos := state.cryptos - item.cost);
          assert state == Shop.Spend(rev, old(state), item.cost);
          ApplyItem(item, now);
          CalculateGps(now);
          Save(now);
        }
    }

    /** The branch on the item's kind in `buyBlackMarketItem`. */
    method ApplyItem(item: MarketItem, now: int)
      modifies this
      ensures state == Shop.ApplyItem(rev, old(state), item, now)
      ensures input == old(input) && lastTimestamp == old(lastTimestamp)
    {
      match item.kind
      case Consumable => Consume(item, now);
      case Permanent => Install(item);
      case Instant => Windfall(item.hours, now);
    }

    /** An instant item: `addBits(gps * 3600 * hours)`. */
    method Windfall(hours: nat, now: int)
      modifies this
      ensures state == Shop.Windfall(rev, old(state), hours)
      ensures input == old(input) && lastTimestamp == old(lastTimestamp)
    {
      AddBits(Shop.HoursOf(state.gps, hours), now);
    }

    /** A timed item: push a click boost or a GPS boost ending `duration` ms from now. */
    method Consume(item: MarketItem, now: int)
      modifies this`state
      ensures state == Shop.Consume(rev, old(state), item, now)
    {
      if rev == Modular && item.clickMultiplier != 0.0 {
        state := state.(activeClickBoosts := state.activeClickBoosts + [Boost(item.clickMultiplier, now + item.duration)]);
      } else {
        state := state.(activeBoosts := state.activeBoosts + [Boost(item.multiplier, now + item.duration)]);
      }
    }

    /** A permanent item: auto-glitch, the offline booster, or a raise of the permanent multiplier. */
    method Install(item: MarketItem)
      modifies this`state
      ensures state == Shop.Install(rev, old(state), item)
    {
      if rev == Modular && item.id == "autoGlitch" {
        state := state.(autoGlitchEnabled := true);
      } else if rev == Modular && item.id == "offlineBoost" {
        state := state.(offlineMultiplier := state.offlineMultiplier + item.offlineMultiplier);
      } else {
        state := state.(permanentMultiplier := state.permanentMultiplier + item.multiplier);
      }
    }

    /** `buySkill(id)` on a valid game leaves it valid. */
    method BuySkill(id: string, now: int)
      requires Valid()
      modifies this
      ensures Valid()
      ensures state == Shop.BuySkill(rev, old(state), id, now)
      ensures Shop.RaiseSkill(SkillTree(rev), old(state), id).Some? ==> stored == Storage.Saved(Storage.Snapshot(rev, state, now))
      ensures Shop.RaiseSkill(SkillTree(rev), old(state), id).None? ==> state == old(state) && stored == old(stored)
      ensures input == old(input) && lastTimestamp == old(lastTimestamp)
    {
      Shop.BuySkillValid(rev, state, id, now);
      Learn(id, now);
    }

    /**
     * The steps of `buySkill(id)`: an unknown, maxed or unaffordable skill
     * changes nothing; otherwise pay the points, raise the level, recompute
     * the rates and save.
     */
    method Learn(id: string, now: int)
      modifies this
      ensures state == Shop.BuySkill(rev, old(state), id, now)
      ensures Shop.RaiseSkill(SkillTree(rev), old(state), id).Some? ==> stored == Storage.Saved(Storage.Snapshot(rev, state, now))
      ensures Shop.RaiseSkill(SkillTree(rev), old(state), id).None? ==> state == old(state) && stored == old(stored)
      ensures input == old(input) && lastTimestamp == old(lastTimestamp)
    {
      var def := FindSkill(SkillTree(rev), id);
      if def.Some? {
        var current := SkillLookup(state.skills, id).GetOr(0);
        if current < def.value.maxLevel && state.skillPoints >= def.value.cost {
          PaySkill(SkillTree(rev), id, def.value.cost, current);
          CalculateGps(now);
          if rev != Backup {
            CalculateClickPower(now);
          }
          Save(now);
        }
      }
    }

    /** The bookkeeping of `buySkill`: pay the price and raise the level by one. */
    method PaySkill(tree: seq<SkillDef>, id: string, cost: int, current: int)
      requires FindSkill(tree, id).Some? && FindSkill(tree, id).value.cost == cost
      requires current == SkillLookup(state.skills, id).GetOr(0)
      requires current < FindSkill(tree, id).value.maxLevel && state.skillPoints >= cost
      modifies this`state
      ensures Shop.RaiseSkill(tree, old(state), id) == Some(state)
    {
      Shop.RaiseSkillAt(tree, state, id, cost, current);
      state := state.(skillPoints := state.skillPoints - cost, skills := SkillPut(state.skills, id, current + 1));
    }

    // ---------------------------------------------------------------
    // handleGlitchClick

    /** `handleGlitchClick()` with the roll passed in: pay the cryptos and save. */
    method Glitch(base: int, now: int)
      requires Valid() && Firewall.GlitchRoll(base)
      modifies this
      ensures Valid()
      ensures state == Firewall.Glitch(rev, old(state), base)
      ensures stored == Storage.Saved(Storage.Snapshot(rev, state, now))
      ensures input == old(input) && lastTimestamp == old(lastTimestamp)
    {
      Firewall.GlitchPays(rev, state, base);
      var bonus := if rev == Modular then SkillLookup(state.skills, "crypto_magnet").GetOr(0) else 0;
      state := state.(cryptos := state.cryptos + base + bonus);
      Save(now);
    }

    // ---------------------------------------------------------------
    // rebootSystem

    /** `rebootSystem()` with the player's answer to the dialog, on a valid game, leaves it valid. */
    method Reboot(confirmed: bool, now: int)
      requires Valid()
      modifies this
      ensures Valid()
      ensures state == Prestige.Reboot(rev, old(state), confirmed)
      ensures var p := Prestige.PotentialOf(rev, old(state));
        if confirmed && p.Level? && p.n > old(state).rootAccessLevel then stored == Storage.Saved(Storage.Snapshot(rev, state, now))
        else stored == old(stored)
      ensures input == old(input) && lastTimestamp == old(lastTimestamp)
    {
      Prestige.RebootRaisesLevel(rev, state, confirmed);
      Restart(confirmed, now);
    }

    /**
     * The steps of `rebootSystem()`: above the current level and confirmed,
     * pay the gain (not in the backup build), reset the run at the new level
     * and save.
     */
    method Restart(confirmed: bool, now: int)
      requires UpgradesAligned(rev, state.upgrades)
      modifies this
      ensures state == Prestige.Reboot(rev, old(state), confirmed)
      ensures var p := Prestige.PotentialOf(rev, old(state));
        if confirmed && p.Level? && p.n > old(state).rootAccessLevel then stored == Storage.Saved(Storage.Snapshot(rev, state, now))
        else stored == old(stored)
      ensures input == old(input) && lastTimestamp == old(lastTimestamp)
    {
      var potential := Prestige.PotentialOf(rev, state);
      if potential.Level? && potential.n > state.rootAccessLevel && confirmed {
        var level := potential.n;
        if rev != Backup {
          var gained := level - state.rootAccessLevel;
          state := state.(cryptos := state.cryptos + gained);
          state := state.(statistics := state.statistics.(rebootCount := state.statistics.rebootCount + 1));
        }
        assert state == Prestige.Payout(rev, old(state), level);
        ResetForPrestige(level);
        Save(now);
      }
    }

    // ---------------------------------------------------------------
    // The firewall

    /** `spawnFirewall()` with the random four-digit hex code passed in. */
    method SpawnFirewall(code: string, now: int)
      requires rev != Backup
      requires |code| == 4 && forall i | 0 <= i < |code| :: code[i] in Firewall.HexDigits
      modifies this
      ensures Firewall.Console(state, input) == Firewall.Spawn(rev, Firewall.Console(old(state), old(input)), code, now)
      ensures stored == old(stored) && lastTimestamp == old(lastTimestamp)
    {
      if !state.firewallActive {
        state := state.(firewallActive := true);
        state := state.(statistics := state.statistics.(firewallsEncountered := state.statistics.firewallsEncountered + 1));
        state := state.(firewallCode := code);
        input := "";
        CalculateGps(now);
      }
    }

    /** `clearFirewall()`: drop the firewall, count it, recompute GPS and pay 300 seconds of it. */
    method ClearFirewall(now: int)
      requires rev != Backup
      modifies this
      ensures state == Firewall.Clear(rev, old(state), now)
      ensures stored == AfterPass(rev, Firewall.Lower(rev, old(state), now), state, old(stored), now)
      ensures input == old(input) && lastTimestamp == old(lastTimestamp)
    {
      LowerFirewall(now);
      assert Firewall.Breach(rev, state) == Ledger.AddBits(rev, state, state.gps * Firewall.BreachSeconds as real);
      AddBits(state.gps * Firewall.BreachSeconds as real, now);
    }

    /** The first half of `clearFirewall()`: the flag, the counter and the rate without the penalty. */
    method LowerFirewall(now: int)
      requires rev != Backup
      modifies this
      ensures state == Firewall.Lower(rev, old(state), now)
      ensures stored == old(stored) && input == old(input) && lastTimestamp == old(lastTimestamp)
    {
      state := state.(firewallActive := false);
      state := state.(statistics := state.statistics.(firewallsCleared := state.statistics.firewallsCleared + 1));
      CalculateGps(now);
    }

    /** `checkFirewallInput()`: the upper-cased box against the code. */
    method CheckFirewallInput(now: int)
      requires rev != Backup
      modifies this
      ensures Firewall.Console(state, input) == Firewall.Check(rev, Firewall.Console(old(state), old(input)), now)
      ensures lastTimestamp == old(lastTimestamp)
    {
      if state.firewallActive && Firewall.Upper(input) == state.firewallCode {
        ClearFirewall(now);
        input := "";
      }
    }

    /** `handleKeypadInput(key)`: a click on an on-screen keypad button. */
    method Keypad(key: string, now: int)
      requires rev != Backup && Valid()
      // the keypad's buttons are the sixteen hex digits, CLR and OK
      requires |key| <= 1 || key == "CLR" || key == "OK"
      modifies this
      ensures Valid()
      ensures Firewall.Console(state, input) == Firewall.Keypad(rev, Firewall.Console(old(state), old(input)), key, now)
      ensures lastTimestamp == old(lastTimestamp)
    {
      Firewall.KeypadKeepsLimit(rev, Firewall.Console(state, input), key, now);
      if key == "CLR" {
        input := "";
      } else if key == "OK" {
        CheckFirewallInput(now);
      } else if |input| < Firewall.InputLimit {
        input := input + key;
        CheckFirewallInput(now);
      }
    }

    /** The keydown listener, in each revision's order of tests. */
    method KeyDown(key: string, now: int)
      requires rev != Backup && Valid()
      // a key name is one character or a named key such as Enter
      requires |key| <= 1 || !Firewall.Includes(Firewall.HexDigits, Firewall.Upper(key))
      modifies this
      ensures Valid()
      ensures Firewall.Console(state, input) == Firewall.KeyDown(rev, Firewall.Console(old(state), old(input)), key, now)
      ensures lastTimestamp == old(lastTimestamp)
    {
      Firewall.KeyDownKeepsLimit(rev, Firewall.Console(state, input), key, now);
      if state.firewallActive {
        var up := Firewall.Upper(key);
        if rev == Modular {
          if Firewall.Includes(Firewall.HexDigits, up) && |input| < Firewall.InputLimit {
            input := input + up;
            CheckFirewallInput(now);
          } else if key == "Backspace" {
            input := Firewall.DropLast(input);
          } else if key == "Enter" {
            CheckFirewallInput(now);
          }
        } else {
          if key == "Backspace" {
            input := Firewall.DropLast(input);
          } else if key == "Enter" {
            CheckFirewallInput(now);
          } else if Firewall.Includes(Firewall.HexDigits, up) && |up| == 1 && |input| < Firewall.InputLimit {
            input := input + up;
            CheckFirewallInput(now);
          }
        }
      }
    }

    // ---------------------------------------------------------------
    // Clicks, frames and ticks

    /** The click handler: the module build credits then counts, script.js counts then credits, the backup build only credits. */
    method Click(now: int)
      requires Valid()
      modifies this
      ensures Valid()
      ensures state == Session.Click(rev, old(state))
      ensures input == old(input) && lastTimestamp == old(lastTimestamp)
    {
      Session.ClickKeepsValid(rev, state);
      Tap(now);
    }

    /** The steps of the click handler, in each build's order. */
    method Tap(now: int)
      modifies this
      ensures state == Session.Click(rev, old(state))
      ensures input == old(input) && lastTimestamp == old(lastTimestamp)
    {
      if rev == Modular {
        AddBits(state.clickPower, now);
        state := state.(statistics := state.statistics.(totalClicks := state.statistics.totalClicks + 1));
      } else if rev == Bundle {
        state := state.(statistics := state.statistics.(totalClicks := state.statistics.totalClicks + 1));
        AddBits(state.clickPower, now);
      } else {
        AddBits(state.clickPower, now);
      }
    }

    /** One animation frame at time `t` (milliseconds): pay the rate for the time since the last frame. */
    method Frame(t: real, now: int)
      requires rev != Backup
      modifies this
      ensures Session.Clocked(state, lastTimestamp) == Session.Frame(rev, old(state), old(lastTimestamp), t)
      ensures input == old(input)
    {
      if rev == Modular {
        FrameJs(t, now);
      } else {
        FrameBundle(t, now);
      }
    }

    /** js/main.js's `gameLoop`: the first frame takes its own time as the last one, and the rate is always added. */
    method FrameJs(t: real, now: int)
      requires rev == Modular
      modifies this
      ensures var from := if old(lastTimestamp) == 0.0 then t else old(lastTimestamp);
        state == Ledger.AddBits(rev, old(state), Session.Accrued(old(state).gps, from, t)) && lastTimestamp == t
      ensures input == old(input)
    {
      if lastTimestamp == 0.0 {
        lastTimestamp := t;
      }
      var paid := Session.Accrued(state.gps, lastTimestamp, t);
      lastTimestamp := t;
      AddBits(paid, now);
    }

    /** script.js's `gameLoop`: the rate is added only while it is positive. */
    method FrameBundle(t: real, now: int)
      requires rev == Bundle
      modifies this
      ensures state == (if old(state).gps > 0.0 then Ledger.AddBits(rev, old(state), Session.Accrued(old(state).gps, old(lastTimestamp), t)) else old(state))
      ensures lastTimestamp == t && input == old(input)
    {
      var paid := Session.Accrued(state.gps, lastTimestamp, t);
      lastTimestamp := t;
      if state.gps > 0.0 {
        AddBits(paid, now);
      }
    }

    /** The backup build's 100 ms interval: a tenth of the rate when it is positive. */
    method Tick(now: int)
      requires rev == Backup
      modifies this
      ensures state == Session.Tick(old(state))
      ensures input == old(input) && lastTimestamp == old(lastTimestamp)
    {
      if state.gps > 0.0 {
        AddBits(state.gps / 10.0, now);
      }
    }

    // ---------------------------------------------------------------
    // loadGame, init and importSave

    /** `loadGame()`: whether a save was restored; the state is what each revision leaves behind. */
    method LoadGame(now: int) returns (hasSave: bool)
      modifies this`state
      ensures Storage.GameLoad(state, hasSave) == Storage.LoadGame(rev, stored, old(state), now)
    {
      hasSave := false;
      match stored {
        case Missing =>
          var _ := LoadState(None, now);
        case Corrupt =>
          if rev == Modular {
            var _ := LoadState(None, now);
          }
        case Saved(d) =>
          var threw := LoadState(Some(d), now);
          if threw {
            if rev == Modular {
              var _ := LoadState(None, now);
            }
          } else {
            hasSave := true;
          }
      }
    }

    /**
     * `init()` up to the timers: load, the revision's offline block and the
     * rate recalculations. `clock` is `performance.now()`, which script.js
     * takes as the first frame's reference time.
     */
    method Init(now: int, clock: real)
      modifies this
      ensures state == Session.Startup(rev, old(stored), old(state), now)
      ensures input == old(input)
      ensures lastTimestamp == if rev == Bundle then clock else old(lastTimestamp)
    {
      var hasSave := LoadGame(now);
      match rev {
        case Modular =>
          StartJs(hasSave, now);
        case Bundle =>
          StartBundle(hasSave, now);
          lastTimestamp := clock;
        case Backup =>
          if hasSave {
            CalculateGps(now);
          }
      }
    }

    /** The module build's `init()` after the load: a fresh state without a save, the offline block, the rates. */
    method StartJs(hasSave: bool, now: int)
      requires rev == Modular
      modifies this
      ensures state == Session.StartupJs(Storage.GameLoad(old(state), hasSave), now)
      ensures input == old(input) && lastTimestamp == old(lastTimestamp)
    {
      if !hasSave {
        InitState(now);
      }
      OfflineJs(now);
      CalculateGps(now);
      CalculateClickPower(now);
    }

    /** script.js's `init()` after the load: the rates, then the offline block, both only after a load. */
    method StartBundle(hasSave: bool, now: int)
      requires rev == Bundle
      modifies this
      ensures state == Session.StartupBundle(Storage.GameLoad(old(state), hasSave), now)
      ensures input == old(input) && lastTimestamp == old(lastTimestamp)
    {
      if hasSave {
        CalculateGps(now);
        CalculateClickPower(now);
        OfflineBundle(now);
      }
    }

    /** The module build's offline block: whole bits for the time away, added when positive. */
    method OfflineJs(now: int)
      requires rev == Modular
      modifies this
      ensures state == Session.OfflineJs(old(state), now)
      ensures input == old(input) && lastTimestamp == old(lastTimestamp)
    {
      var elapsed := now - state.lastSaveTime;
      if elapsed > Session.OfflineThresholdMs {
        var offlineGps := state.gps * RealOr(Some(state.offlineMultiplier), 1.0);
        var offlineBits := (offlineGps * (elapsed as real) / 1000.0).Floor;
        assert offlineBits == Session.OfflineBitsJs(state, now);
        if offlineBits > 0 {
          assert Session.OfflineJs(state, now) == Ledger.AddBits(rev, state, offlineBits as real);
          AddBits(offlineBits as real, now);
        }
      }
    }

    /** script.js's offline block: every second away at the current rate. */
    method OfflineBundle(now: int)
      requires rev == Bundle
      modifies this
      ensures state == Session.OfflineBundle(old(state), now)
      ensures input == old(input) && lastTimestamp == old(lastTimestamp)
    {
      if state.lastSaveTime != 0 {
        var secs := Session.OfflineSeconds(state, now);
        if secs > 60.0 && state.gps > 0.0 {
          assert Session.OfflineBundle(state, now) == Ledger.AddBits(rev, state, secs * state.gps);
          AddBits(secs * state.gps, now);
        }
      }
    }

    /** `importSave()` with the decoded text and the player's answer passed in. */
    method ImportSave(text: Storage.ImportText, confirmed: bool, now: int)
      requires rev == Modular
      modifies this`state, this`stored
      ensures Storage.Runtime(state, stored) == Storage.ImportSave(Storage.Runtime(old(state), old(stored)), text, confirmed, now)
    {
      if text.Parsed? && Storage.Importable(text.data) && confirmed {
        ghost var l := GameState.LoadState(Modular, Some(text.data), now);
        var threw := LoadState(Some(text.data), now);
        assert state == l.state && threw == l.threw;
        if !threw {
          Save(now);
          CalculateGps(now);
          CalculateClickPower(now);
        }
      }
    }

    // ---------------------------------------------------------------
    // calculateGPS and calculateClickPower

    /** `calculateGPS()`: prune the boosts and store the recomputed rate. */
    method CalculateGps(now: int)
      modifies this`state
      ensures state == Rates.RecalcGps(rev, old(state), now)
      ensures stored == old(stored) && input == old(input) && lastTimestamp == old(lastTimestamp)
    {
      var gps, kept := RateOf(rev, state.upgrades, state.rootAccessLevel, state.permanentMultiplier,
                              state.activeBoosts, state.firewallActive, now);
      state := state.(activeBoosts := kept, gps := gps);
    }

    /** `calculateClickPower()`, which the backup build does not have. */
    method CalculateClickPower(now: int)
      requires rev != Backup
      modifies this`state
      ensures state == Rates.RecalcClickPower(rev, old(state), now)
      ensures stored == old(stored) && input == old(input) && lastTimestamp == old(lastTimestamp)
    {
      var power, kept := ClickPowerOf(rev, state.upgrades, state.activeClickBoosts, now);
      state := state.(activeClickBoosts := kept, clickPower := power);
    }
  }

  // ---------------------------------------------------------------
  // The bodies of the rate calculators

  /**
   * The body of `calculateGPS()`: the sum over generators, then the level
   * bonus above level 0, the permanent multiplier above 1, the running
   * boosts and the firewall penalty, each applied only when it applies.
   */
  method RateOf(rev: Revision, ups: seq<Upgrade>, level: int, permanent: real, boosts: seq<Boost>, firewall: bool, now: int)
    returns (gps: real, kept: seq<Boost>)
    ensures gps == Rates.Gps(rev, ups, level, permanent, boosts, firewall, now) && kept == Unexpired(boosts, now)
  {
    var base := GeneratorSum(ups);
    var scaled := LevelAndPermanent(base, level, permanent);
    kept := KeepUnexpired(boosts, now);
    var boost := BoostProduct(kept);
    var boosted := scaled * boost;
    GpsOfFactors(rev, ups, level, permanent, boosts, firewall, now, scaled, boost, boosted);
    if rev != Backup && firewall {
      gps := boosted * 0.5;
    } else {
      gps := boosted;
    }
  }

  lemma GpsOfFactors(rev: Revision, ups: seq<Upgrade>, level: int, permanent: real, boosts: seq<Boost>, firewall: bool,
                     now: int, scaled: real, boost: real, boosted: real)
    requires scaled == Rates.BaseGps(ups) * Rates.LevelFactor(level) * Rates.PermanentFactor(permanent)
    requires boost == Rates.BoostFactor(boosts, now) && boosted == scaled * boost
    ensures Rates.Gps(rev, ups, level, permanent, boosts, firewall, now) == boosted * Rates.FirewallFactor(rev, firewall)
  {
    var f := Rates.FirewallFactor(rev, firewall);
    assert Rates.Gps(rev, ups, level, permanent, boosts, firewall, now) == scaled * boost * f;
  }

  /** The level bonus, applied above level 0, then the permanent multiplier, applied above 1. */
  method LevelAndPermanent(base: real, level: int, permanent: real) returns (gps: real)
    ensures gps == base * Rates.LevelFactor(level) * Rates.PermanentFactor(permanent)
  {
    gps := base;
    if level > 0 {
      gps := gps * (1.0 + (level as real) * 0.1);
    }
    ghost var leveled := gps;
    if permanent > 1.0 {
      gps := gps * permanent;
    }
    ProductAssoc(base, Rates.LevelFactor(level), Rates.PermanentFactor(permanent), leveled, gps);
  }

  /**
   * The body of `calculateClickPower()`: one plus the click bonuses; the
   * module build also prunes and applies its click boosts.
   */
  method ClickPowerOf(rev: Revision, ups: seq<Upgrade>, boosts: seq<Boost>, now: int) returns (power: real, kept: seq<Boost>)
    requires rev != Backup
    ensures power == Rates.ClickPower(rev, ups, boosts, now)
    ensures kept == if rev == Modular then Unexpired(boosts, now) else boosts
  {
    var bonus := ClickBonus(ups);
    var base := 1.0 + bonus as real;
    if rev == Modular {
      kept := KeepUnexpired(boosts, now);
      var boost := BoostProduct(kept);
      power := base * boost;
      ClickPowerBoosted(ups, boosts, now, base, boost);
    } else {
      kept := boosts;
      power := base;
    }
  }

  lemma ClickPowerBoosted(ups: seq<Upgrade>, boosts: seq<Boost>, now: int, base: real, boost: real)
    requires base == 1.0 + Rates.ClickSum(ups) as real && boost == Rates.BoostFactor(boosts, now)
    ensures Rates.ClickPower(Modular, ups, boosts, now) == base * boost
  {}

  /** The `for...in` loop of `calculateGPS()`: generators with a rate add rate times count. */
  method GeneratorSum(ups: seq<Upgrade>) returns (gps: real)
    ensures gps == Rates.BaseGps(ups)
  {
    gps := 0.0;
    var i := 0;
    while i < |ups|
      invariant 0 <= i <= |ups|
      invariant gps + Rates.BaseGps(ups[i..]) == Rates.BaseGps(ups)
    {
      BaseGpsAt(ups, i);
      if ups[i].gps != 0.0 {
        gps := gps + ups[i].gps * (ups[i].count as real);
      }
      i := i + 1;
    }
  }

  lemma BaseGpsAt(ups: seq<Upgrade>, i: nat)
    requires i < |ups|
    ensures Rates.BaseGps(ups[i..]) == ups[i].gps * (ups[i].count as real) + Rates.BaseGps(ups[i + 1..])
  {
    assert ups[i..][1..] == ups[i + 1..];
  }

  /** The `for...in` loop of `calculateClickPower()`: generators with a click bonus add bonus times count. */
  method ClickBonus(ups: seq<Upgrade>) returns (c: nat)
    ensures c == Rates.ClickSum(ups)
  {
    c := 0;
    var i := 0;
    while i < |ups|
      invariant 0 <= i <= |ups|
      invariant c + Rates.ClickSum(ups[i..]) == Rates.ClickSum(ups)
    {
      assert ups[i..][1..] == ups[i + 1..];
      if ups[i].click != 0 {
        c := c + ups[i].click * ups[i].count;
      }
      i := i + 1;
    }
  }

  /** The collections `loadState` rebuilds from a save, each from the fresh state's own. */
  method LoadCollections(rev: Revision, s0: State, d: SaveData, now: int) returns (c: Collections)
    ensures c == Rebuild(rev, s0, d, now)
  {
    var ups := s0.upgrades;
    if d.upgrades.Some? { ups := LoadUpgradeCounts(rev, ups, d.upgrades.value); }
    var achs := s0.achievements;
    if d.achievements.Some? { achs := LoadUnlocked(achs, d.achievements.value); }
    var boosts := [];
    if d.activeBoosts.Some? { boosts := KeepUnexpired(d.activeBoosts.value, now); }
    var skills := s0.skills;
    if d.skills.Some? { skills := MergeSkills(skills, d.skills.value); }
    var story := s0.storyEvents;
    if d.storyEvents.Some? { story := LoadTriggered(story, d.storyEvents.value); }
    var clickBoosts := [];
    if d.activeClickBoosts.Some? { clickBoosts := KeepUnexpired(d.activeClickBoosts.value, now); }
    c := Collections(ups, achs, boosts, skills, story, clickBoosts);
  }


  /** The spread of the saved skills over the fresh skill map, one key at a time. */
  method MergeSkills(base: seq<SkillLevel>, saved: seq<SkillLevel>) returns (r: seq<SkillLevel>)
    ensures r == SkillMerge(base, saved)
  {
    r := base;
    var i := 0;
    while i < |saved|
      invariant 0 <= i <= |saved|
      invariant SkillMerge(r, saved[i..]) == SkillMerge(base, saved)
    {
      assert saved[i..][1..] == saved[i + 1..];
      r := SkillPut(r, saved[i].id, saved[i].level);
      i := i + 1;
    }
  }

  /** The `for...in` loop over the saved upgrades: a known key takes the saved count and the recomputed price. */
  method LoadUpgradeCounts(rev: Revision, ups: seq<Upgrade>, saved: seq<SavedUpgrade>) returns (r: seq<Upgrade>)
    ensures r == LoadCounts(rev, ups, saved)
  {
    r := ups;
    var i := 0;
    while i < |saved|
      invariant 0 <= i <= |saved|
      invariant LoadCounts(rev, r, saved[i..]) == LoadCounts(rev, ups, saved)
    {
      assert saved[i..][1..] == saved[i + 1..];
      var su := saved[i];
      match Find(UpgradeIds(r), su.key) {
        case None =>
        case Some(j) =>
          r := r[j := r[j].(count := su.count, cost := Numeric.Scaled(BaseCost(rev, su.key), su.count))];
      }
      i := i + 1;
    }
  }

  /** `savedData.achievements.forEach(...)`: a flag found by id is restored. */
  method LoadUnlocked(achs: seq<Achievement>, saved: seq<SavedFlag>) returns (r: seq<Achievement>)
    ensures r == ApplyUnlocked(achs, saved)
  {
    r := achs;
    var i := 0;
    while i < |saved|
      invariant 0 <= i <= |saved|
      invariant ApplyUnlocked(r, saved[i..]) == ApplyUnlocked(achs, saved)
    {
      assert saved[i..][1..] == saved[i + 1..];
      r := Unlock(r, saved[i]);
      i := i + 1;
    }
  }

  /** One turn of that `forEach`: the achievement with the saved id takes the saved flag. */
  method Unlock(achs: seq<Achievement>, f: SavedFlag) returns (r: seq<Achievement>)
    ensures r == UnlockOne(achs, f)
  {
    r := achs;
    match Find(AchievementIds(achs), f.id) {
      case None =>
      case Some(j) => r := achs[j := achs[j].(unlocked := f.flag)];
    }
  }

  /** `savedData.storyEvents.forEach(...)`: a flag found by id is restored. */
  method LoadTriggered(events: seq<StoryEvent>, saved: seq<SavedFlag>) returns (r: seq<StoryEvent>)
    ensures r == ApplyTriggered(events, saved)
  {
    r := events;
    var i := 0;
    while i < |saved|
      invariant 0 <= i <= |saved|
      invariant ApplyTriggered(r, saved[i..]) == ApplyTriggered(events, saved)
    {
      assert saved[i..][1..] == saved[i + 1..];
      r := Trigger(r, saved[i]);
      i := i + 1;
    }
  }

  /** One turn of that `forEach`: the event with the saved id takes the saved flag. */
  method Trigger(events: seq<StoryEvent>, f: SavedFlag) returns (r: seq<StoryEvent>)
    ensures r == TriggerOne(events, f)
  {
    r := events;
    match Find(StoryIds(events), f.id) {
      case None =>
      case Some(j) => r := events[j := events[j].(triggered := f.flag)];
    }
  }

  /**
   * The migration's `for...in` sum of level times price; `None` where a key
   * has no entry in the tree, which is where the source throws.
   */
  method SkillSpend(skills: seq<SkillLevel>, tree: seq<SkillDef>) returns (r: Option<int>)
    ensures r == SpentPoints(skills, tree)
  {
    var total := 0;
    var i := 0;
    while i < |skills|
      invariant 0 <= i <= |skills|
      invariant SpentPoints(skills, tree) ==
        match SpentPoints(skills[i..], tree)
        case None => None
        case Some(t) => Some(total + t)
    {
      assert skills[i..][1..] == skills[i + 1..];
      match FindSkill(tree, skills[i].id) {
        case None => return None;
        case Some(d) => total := total + skills[i].level * d.cost;
      }
      i := i + 1;
    }
    assert skills[i..] == [];
    r := Some(total);
  }

  /** The reset loop: every generator back to count 0 at its catalog price. */
  method ResetCounts(rev: Revision, ups: seq<Upgrade>) returns (r: seq<Upgrade>)
    ensures r == ResetUpgrades(rev, ups)
  {
    r := ups;
    var i := 0;
    while i < |r|
      invariant 0 <= i <= |r| == |ups|
      invariant forall k | 0 <= k < i :: r[k] == ups[k].(count := 0, cost := BaseCost(rev, ups[k].id))
      invariant forall k | i <= k < |r| :: r[k] == ups[k]
    {
      r := r[i := r[i].(count := 0, cost := BaseCost(rev, r[i].id))];
      i := i + 1;
    }
  }

  /** `boosts.filter(b => b.endTime > now)`. */
  method KeepUnexpired(boosts: seq<Boost>, now: int) returns (kept: seq<Boost>)
    ensures kept == Unexpired(boosts, now)
  {
    kept := [];
    var i := 0;
    while i < |boosts|
      invariant 0 <= i <= |boosts|
      invariant kept == Unexpired(boosts[..i], now)
    {
      UnexpiredSnoc(boosts[..i], boosts[i], now);
      assert boosts[..i + 1] == boosts[..i] + [boosts[i]];
      if boosts[i].endTime > now {
        kept := kept + [boosts[i]];
      }
      i := i + 1;
    }
    assert boosts[..i] == boosts;
  }

  lemma UnexpiredSnoc(boosts: seq<Boost>, b: Boost, now: int)
    ensures Unexpired(boosts + [b], now) == Unexpired(boosts, now) + (if b.endTime > now then [b] else [])
  {
    Rates.UnexpiredAppend(boosts, [b], now);
    assert [b][1..] == [];
  }

  /** The multiplier loop: the product of the factors, in list order. */
  method BoostProduct(boosts: seq<Boost>) returns (p: real)
    ensures p == Rates.Product(boosts)
  {
    p := 1.0;
    var i := 0;
    while i < |boosts|
      invariant 0 <= i <= |boosts|
      invariant p == Rates.Product(boosts[..i])
    {
      assert boosts[..i + 1] == boosts[..i] + [boosts[i]];
      Rates.ProductAppend(boosts[..i], [boosts[i]]);
      p := p * boosts[i].factor;
      i := i + 1;
    }
    assert boosts[..i] == boosts;
  }

  lemma ProductAssoc(base: real, a: real, b: real, x: real, r: real)
    requires x == base * a && r == x * b
    ensures r == base * a * b
  {}
}
