// Persistence: the snapshot `saveGame` writes, `loadGame` at start-up
// and the validated `importSave` (js/storage.js, the storage block of
// script.js, backup/js/storage.js). Browser storage holds one slot; the
// JSON text in it is modelled by what parsing it yields.
module Storage {
  import opened Wrappers
  import opened Constants
  import opened GameState
  import Numeric
  import Rates

  /** The storage slot: empty, holding text that does not parse, or a parsed snapshot. */
  datatype StoredSave = Missing | Corrupt | Saved(data: SaveData)

  // ---------------------------------------------------------------
  // saveGame

  function SavedUpgrades(ups: seq<Upgrade>): (r: seq<SavedUpgrade>)
    ensures |r| == |ups| && forall i | 0 <= i < |ups| :: r[i] == SavedUpgrade(ups[i].id, ups[i].count, ups[i].cost)
  {
    seq(|ups|, i requires 0 <= i < |ups| => SavedUpgrade(ups[i].id, ups[i].count, ups[i].cost))
  }

  /** `achievements.map(a => ({ id: a.id, unlocked: a.unlocked }))`. */
  function SavedAchievements(achs: seq<Achievement>): (r: seq<SavedFlag>)
    ensures |r| == |achs| && forall i | 0 <= i < |achs| :: r[i] == SavedFlag(achs[i].id, achs[i].unlocked)
  {
    seq(|achs|, i requires 0 <= i < |achs| => SavedFlag(achs[i].id, achs[i].unlocked))
  }

  /** `storyEvents.map(e => ({ id: e.id, triggered: e.triggered }))`. */
  function SavedStory(events: seq<StoryEvent>): (r: seq<SavedFlag>)
    ensures |r| == |events| && forall i | 0 <= i < |events| :: r[i] == SavedFlag(events[i].id, events[i].triggered)
  {
    seq(|events|, i requires 0 <= i < |events| => SavedFlag(events[i].id, events[i].triggered))
  }

  function SavedStatistics(st: Statistics): SavedStats
  {
    SavedStats(Some(st.totalClicks), Some(st.totalBitsEarned), Some(st.playTimeSeconds), Some(st.rebootCount),
               Some(st.firewallsEncountered), Some(st.firewallsCleared), Some(st.sessionStartTime))
  }

  /**
   * The object `saveGame()` serialises at time `now`. Every build stores
   * the ledger, the generators, the achievement flags, the root level, the
   * cryptos, the permanent multiplier and the GPS boosts; the newer builds
   * add the statistics and the save time; the module build adds the story
   * flags, skills, skill points and the tutorial flag. The offline
   * multiplier, the auto-glitch flag and the click boosts are never stored.
   */
  function Snapshot(rev: Revision, s: State, now: int): (d: SaveData)
    ensures d.bits == Some(s.bits) && d.lifetimeBits == Some(s.lifetimeBits)
    ensures d.upgrades == Some(SavedUpgrades(s.upgrades))
    ensures d.achievements == Some(SavedAchievements(s.achievements))
    ensures d.rootAccessLevel == Some(s.rootAccessLevel) && d.cryptos == Some(s.cryptos)
    ensures d.permanentMultiplier == Some(s.permanentMultiplier) && d.activeBoosts == Some(s.activeBoosts)
    ensures d.offlineMultiplier.None? && d.autoGlitchEnabled.None? && d.activeClickBoosts.None?
    ensures d.lastSaveTime == (if rev == Backup then None else Some(now))
    ensures d.statistics == (if rev == Backup then None else Some(SavedStatistics(s.statistics)))
    ensures rev == Modular <==> d.skills.Some?
    ensures rev == Modular ==>
      d.storyEvents == Some(SavedStory(s.storyEvents)) && d.skills == Some(s.skills) &&
      d.skillPoints == Some(s.skillPoints) && d.tutorialSeen == Some(s.tutorialSeen)
    ensures rev != Modular ==> d.storyEvents.None? && d.skillPoints.None? && d.tutorialSeen.None?
  {
    var common := SaveData(
      bits := Some(s.bits), lifetimeBits := Some(s.lifetimeBits),
      rootAccessLevel := Some(s.rootAccessLevel), cryptos := Some(s.cryptos),
      permanentMultiplier := Some(s.permanentMultiplier), offlineMultiplier := None,
      skillPoints := None, lastSaveTime := None, tutorialSeen := None, autoGlitchEnabled := None,
      skills := None, upgrades := Some(SavedUpgrades(s.upgrades)),
      achievements := Some(SavedAchievements(s.achievements)), storyEvents := None,
      activeBoosts := Some(s.activeBoosts), activeClickBoosts := None, statistics := None);
    var dated := common.(lastSaveTime := Some(now), statistics := Some(SavedStatistics(s.statistics)));
    match rev
    case Backup => common
    case Bundle => dated
    case Modular =>
      dated.(storyEvents := Some(SavedStory(s.storyEvents)), skills := Some(s.skills),
             skillPoints := Some(s.skillPoints), tutorialSeen := Some(s.tutorialSeen))
  }

  // ---------------------------------------------------------------
  // loadGame

  /** What `loadGame()` leaves behind and the flag it returns. */
  datatype GameLoad = GameLoad(state: State, hasSave: bool)

  /**
   * `loadGame()`. Without a save every build starts fresh. A save that does
   * not parse, or whose loading throws, also starts fresh in the module
   * build; the older builds return false and leave the state as it was.
   */
  function LoadGame(rev: Revision, stored: StoredSave, current: State, now: int): (r: GameLoad)
    ensures r.hasSave <==> stored.Saved? && !LoadState(rev, Some(stored.data), now).threw
    ensures r.hasSave ==> r.state == LoadState(rev, Some(stored.data), now).state
    ensures stored.Missing? ==> r.state == InitState(rev, now)
    ensures stored.Corrupt? ==> r.state == if rev == Modular then InitState(rev, now) else current
    ensures stored.Saved? && LoadState(rev, Some(stored.data), now).threw ==> r.state == InitState(rev, now)
  {
    match stored
    case Missing => GameLoad(InitState(rev, now), false)
    case Corrupt => GameLoad(if rev == Modular then InitState(rev, now) else current, false)
    case Saved(d) =>
      var l := LoadState(rev, Some(d), now);
      if l.threw then GameLoad(InitState(rev, now), false) else GameLoad(l.state, true)
  }

  // ---------------------------------------------------------------
  // importSave (module build only)

  /** The import box: empty, text that does not decode or parse, or the parsed object. */
  datatype ImportText = Blank | Unreadable | Parsed(data: SaveData)

  /** The basic validation: `bits` must be a number and `upgrades` present. */
  predicate Importable(d: SaveData)
  {
    d.bits.Some? && d.upgrades.Some?
  }

  datatype Runtime = Runtime(state: State, stored: StoredSave)

  /**
   * `importSave()` with the player's answer to the overwrite dialog. A
   * rejected or unconfirmed import changes nothing. A confirmed one loads
   * the data; if loading throws the partly loaded state stays and nothing
   * is saved; otherwise the result is saved at once and the rates are recomputed.
   */
  function ImportSave(g: Runtime, text: ImportText, confirmed: bool, now: int): (r: Runtime)
    ensures !(text.Parsed? && Importable(text.data) && confirmed) ==> r == g
    ensures text.Parsed? && Importable(text.data) && confirmed ==>
      var l := LoadState(Modular, Some(text.data), now);
      if l.threw then r == Runtime(l.state, g.stored)
      else r.stored == Saved(Snapshot(Modular, l.state, now)) &&
           r.state == Rates.RecalcClickPower(Modular, Rates.RecalcGps(Modular, l.state, now), now)
  {
    match text
    case Parsed(d) =>
      if Importable(d) && confirmed then
        var l := LoadState(Modular, Some(d), now);
        if l.threw then Runtime(l.state, g.stored)
        else
          var saved := Saved(Snapshot(Modular, l.state, now));
          Runtime(Rates.RecalcClickPower(Modular, Rates.RecalcGps(Modular, l.state, now), now), saved)
      else g
    case _ => g
  }

  /** The validation only looks at two keys: a snapshot of any state passes it. */
  lemma SnapshotImportable(rev: Revision, s: State, now: int)
    ensures Importable(Snapshot(rev, s, now))
  {}

  // ---------------------------------------------------------------
  // Save, then load

  /** The generators after a reload: counts kept, each price recomputed from the catalog price. */
  function Rescaled(rev: Revision, ups: seq<Upgrade>): (r: seq<Upgrade>)
    ensures |r| == |ups|
    ensures forall i | 0 <= i < |ups| :: r[i] == ups[i].(cost := Numeric.Scaled(BaseCost(rev, ups[i].id), ups[i].count))
  {
    seq(|ups|, i requires 0 <= i < |ups| => ups[i].(cost := Numeric.Scaled(BaseCost(rev, ups[i].id), ups[i].count)))
  }

  /** Flags restored by id, in order, give back the saved flags exactly. */
  lemma {:induction false} ApplyUnlockedRestores(achs: seq<Achievement>, src: seq<Achievement>, k: nat)
    requires |achs| == |src| && k <= |src| && Distinct(AchievementIds(src))
    requires forall i | 0 <= i < |src| :: achs[i] == src[i].(unlocked := achs[i].unlocked)
    requires forall i | 0 <= i < k :: achs[i] == src[i]
    ensures ApplyUnlocked(achs, SavedAchievements(src)[k..]) == src
    decreases |src| - k
  {
    var saved := SavedAchievements(src)[k..];
    if k == |src| {
      assert achs == src;
    } else {
      assert AchievementIds(achs) == AchievementIds(src);
      assert Find(AchievementIds(achs), src[k].id) == Some(k);
      var next := achs[k := achs[k].(unlocked := src[k].unlocked)];
      assert saved[1..] == SavedAchievements(src)[k + 1..];
      ApplyUnlockedRestores(next, src, k + 1);
    }
  }

  lemma {:induction false} ApplyTriggeredRestores(events: seq<StoryEvent>, src: seq<StoryEvent>, k: nat)
    requires |events| == |src| && k <= |src| && Distinct(StoryIds(src))
    requires forall i | 0 <= i < |src| :: events[i] == src[i].(triggered := events[i].triggered)
    requires forall i | 0 <= i < k :: events[i] == src[i]
    ensures ApplyTriggered(events, SavedStory(src)[k..]) == src
    decreases |src| - k
  {
    var saved := SavedStory(src)[k..];
    if k == |src| {
      assert events == src;
    } else {
      assert StoryIds(events) == StoryIds(src);
      assert Find(StoryIds(events), src[k].id) == Some(k);
      var next := events[k := events[k].(triggered := src[k].triggered)];
      assert saved[1..] == SavedStory(src)[k + 1..];
      ApplyTriggeredRestores(next, src, k + 1);
    }
  }

  /** Saved counts loaded in order give the saved generators with recomputed prices. */
  lemma {:induction false} LoadCountsRestores(rev: Revision, ups: seq<Upgrade>, src: seq<Upgrade>, k: nat)
    requires LoadedUpTo(rev, ups, src, k)
    ensures LoadCounts(rev, ups, SavedUpgrades(src)[k..]) == Rescaled(rev, src)
    decreases |src| - k
  {
    var saved := SavedUpgrades(src)[k..];
    if k == |src| {
      assert ups == Rescaled(rev, src);
    } else {
      var next := LoadCount(rev, ups, saved[0]);
      LoadCountAt(rev, ups, src, k);
      assert saved[1..] == SavedUpgrades(src)[k + 1..];
      LoadCountsRestores(rev, next, src, k + 1);
    }
  }

  /**
   * The generators while a save of `src` is being loaded: the first k
   * already restored with their recomputed prices, the rest still holding
   * their ids in the saved order.
   */
  predicate LoadedUpTo(rev: Revision, ups: seq<Upgrade>, src: seq<Upgrade>, k: nat)
  {
    |ups| == |src| && k <= |src| && Distinct(UpgradeIds(src)) &&
    (forall i | 0 <= i < |src| :: ups[i].id == src[i].id) &&
    (forall i | 0 <= i < k :: ups[i] == Rescaled(rev, src)[i]) &&
    (forall i | k <= i < |src| :: ups[i] == src[i].(count := ups[i].count, cost := ups[i].cost))
  }

  /** Loading the next saved generator restores it in its own slot and nothing else. */
  lemma LoadCountAt(rev: Revision, ups: seq<Upgrade>, src: seq<Upgrade>, k: nat)
    requires LoadedUpTo(rev, ups, src, k) && k < |src|
    ensures LoadedUpTo(rev, LoadCount(rev, ups, SavedUpgrades(src)[k]), src, k + 1)
  {
    assert UpgradeIds(ups) == UpgradeIds(src);
    assert Find(UpgradeIds(ups), src[k].id) == Some(k);
    var next := LoadCount(rev, ups, SavedUpgrades(src)[k]);
    assert next == ups[k := Rescaled(rev, src)[k]];
  }

  /** `{ ...fresh, ...saved }` on the skill map puts back a map over the same keys in the same order. */
  lemma {:induction false} SkillMergeRestores(base: seq<SkillLevel>, src: seq<SkillLevel>, k: nat)
    requires |base| == |src| && k <= |src| && Distinct(SkillKeys(src))
    requires forall i | 0 <= i < |src| :: base[i].id == src[i].id
    requires forall i | 0 <= i < k :: base[i] == src[i]
    ensures SkillMerge(base, src[k..]) == src
    decreases |src| - k
  {
    if k == |src| {
      assert base == src;
    } else {
      assert SkillKeys(base) == SkillKeys(src);
      assert Find(SkillKeys(base), src[k].id) == Some(k);
      var next := SkillPut(base, src[k].id, src[k].level);
      assert next == base[k := src[k]];
      assert src[k..][1..] == src[k + 1..];
      SkillMergeRestores(next, src, k + 1);
    }
  }

  lemma MergeStatsRestores(cur: Statistics, st: Statistics)
    ensures MergeStats(cur, SavedStatistics(st)) == st
  {}

  /** The saved generators, achievement flags, story flags and skill map each load back. */
  lemma UpgradesRestore(rev: Revision, ups: seq<Upgrade>)
    requires UpgradesAligned(rev, ups)
    ensures LoadCounts(rev, Upgrades(rev), SavedUpgrades(ups)) == Rescaled(rev, ups)
  {
    assert UpgradeIds(ups) == UpgradeIds(Upgrades(rev));
    assert SavedUpgrades(ups)[0..] == SavedUpgrades(ups);
    LoadCountsRestores(rev, Upgrades(rev), ups, 0);
  }

  lemma AchievementsRestore(rev: Revision, achs: seq<Achievement>)
    requires AchievementsAligned(rev, achs)
    ensures ApplyUnlocked(Relock(Achievements(rev)), SavedAchievements(achs)) == achs
  {
    assert AchievementIds(achs) == AchievementIds(Achievements(rev));
    assert SavedAchievements(achs)[0..] == SavedAchievements(achs);
    ApplyUnlockedRestores(Relock(Achievements(rev)), achs, 0);
  }

  lemma StoryRestores(rev: Revision, events: seq<StoryEvent>)
    requires StoryAligned(rev, events)
    ensures ApplyTriggered(Untrigger(Story(rev)), SavedStory(events)) == events
  {
    assert StoryIds(events) == StoryIds(Story(rev));
    assert SavedStory(events)[0..] == SavedStory(events);
    ApplyTriggeredRestores(Untrigger(Story(rev)), events, 0);
  }

  lemma SkillsRestore(rev: Revision, skills: seq<SkillLevel>)
    requires SkillsAligned(rev, skills)
    ensures SkillMerge(ZeroSkills(SkillTree(rev)), skills) == skills
  {
    var zero := ZeroSkills(SkillTree(rev));
    assert SkillKeys(zero) == SkillKeys(skills);
    assert skills[0..] == skills;
    SkillMergeRestores(zero, skills, 0);
  }

  /** The fields `loadState` copies from a snapshot, before the skill-point grant. */
  function Restored(rev: Revision, s: State, t: int, now: int): State
  {
    RestoredOver(rev, InitState(rev, now), s, t, now)
  }

  /** The saved fields of `s` over the fresh state `init`; the keys never saved take their fresh values. */
  function RestoredOver(rev: Revision, init: State, s: State, t: int, now: int): State
  {
    var r := init.(
      bits := s.bits, lifetimeBits := s.lifetimeBits, rootAccessLevel := s.rootAccessLevel,
      cryptos := s.cryptos, permanentMultiplier := s.permanentMultiplier,
      upgrades := Rescaled(rev, s.upgrades), achievements := s.achievements,
      activeBoosts := Unexpired(s.activeBoosts, now));
    var dated := r.(lastSaveTime := if t != 0 then t else now, statistics := s.statistics);
    match rev
    case Backup => r
    case Bundle => dated
    case Modular => dated.(skills := s.skills, storyEvents := s.storyEvents, tutorialSeen := s.tutorialSeen,
                           skillPoints := s.skillPoints, offlineMultiplier := 1.0,
                           autoGlitchEnabled := false, activeClickBoosts := [])
  }

  /**
   * The state a reload of `s`'s snapshot taken at `t` gives at `now`:
   * rates not yet recomputed, prices recomputed from the catalog, expired
   * boosts dropped, the firewall gone, the unsaved fields back at their
   * fresh values and, in the module build, the skill points run through the grant.
   */
  function Reloaded(rev: Revision, s: State, t: int, now: int): State
  {
    var r := Restored(rev, s, t, now);
    if GrantDue(rev, r) then r.(skillPoints := s.rootAccessLevel - SpentPoints(s.skills, SkillTree(rev)).GetOr(0))
    else r
  }

  /** Loading a snapshot copies back every field `Restored` names. */
  lemma RestoredFields(rev: Revision, s: State, t: int, now: int)
    requires Valid(rev, s)
    ensures LoadFields(rev, Snapshot(rev, s, t), now) == Restored(rev, s, t, now)
  {
    var init := InitState(rev, now);
    var d := Snapshot(rev, s, t);
    RestoredCollections(rev, s, t, now);
    FillSnapshot(rev, init, s, t, now, Rebuild(rev, init, d, now));
  }

  /** The scalar keys of a snapshot, with its collections rebuilt, land on any fresh state as `RestoredOver` says. */
  lemma FillSnapshot(rev: Revision, init: State, s: State, t: int, now: int, c: Collections)
    requires c.upgrades == Rescaled(rev, s.upgrades) && c.achievements == s.achievements
    requires c.activeBoosts == Unexpired(s.activeBoosts, now) && c.activeClickBoosts == []
    requires rev == Modular ==> c.skills == s.skills && c.storyEvents == s.storyEvents
    requires s.permanentMultiplier != 0.0
    ensures Fill(rev, init, Snapshot(rev, s, t), now, c) == RestoredOver(rev, init, s, t, now)
  {
    var d := Snapshot(rev, s, t);
    assert RealOr(d.permanentMultiplier, 1.0) == s.permanentMultiplier;
    if rev != Backup {
      MergeStatsRestores(init.statistics, s.statistics);
    }
  }

  /** The collections rebuilt from a snapshot: the generators repriced, the flags, skills and live boosts as saved. */
  lemma RestoredCollections(rev: Revision, s: State, t: int, now: int)
    requires Valid(rev, s)
    ensures var c := Rebuild(rev, InitState(rev, now), Snapshot(rev, s, t), now);
      c.upgrades == Rescaled(rev, s.upgrades) && c.achievements == s.achievements &&
      c.activeBoosts == Unexpired(s.activeBoosts, now) && c.activeClickBoosts == [] &&
      (rev == Modular ==> c.skills == s.skills && c.storyEvents == s.storyEvents)
  {
    UpgradesRestore(rev, s.upgrades);
    AchievementsRestore(rev, s.achievements);
    if rev == Modular {
      StoryRestores(rev, s.storyEvents);
      SkillsRestore(rev, s.skills);
    }
  }

  /**
   * Save, then load: a valid state comes back as `Reloaded` describes, and
   * loading its snapshot never throws.
   */
  lemma SaveThenLoad(rev: Revision, s: State, t: int, now: int)
    requires Valid(rev, s)
    ensures LoadState(rev, Some(Snapshot(rev, s, t)), now) == Loaded(Reloaded(rev, s, t, now), false)
  {
    RestoredFields(rev, s, t, now);
    if rev == Modular {
      SpentDefined(s.skills, SkillTree(rev));
    }
    MigrateRestored(rev, s, t, now);
  }

  /** The skill-point grant on a restored state is what `Reloaded` describes, when the skills have a cost. */
  lemma MigrateRestored(rev: Revision, s: State, t: int, now: int)
    requires rev == Modular ==> SpentPoints(s.skills, SkillTree(rev)).Some?
    ensures Migrate(rev, Restored(rev, s, t, now)) == Loaded(Reloaded(rev, s, t, now), false)
  {}

  /**
   * A reload keeps the run's progress, keeps the state valid and never
   * raises a price: a price reached by compounding is at least the one
   * recomputed from the count.
   */
  lemma ReloadKeepsProgress(rev: Revision, s: State, t: int, now: int)
    requires Valid(rev, s)
    ensures var r := Reloaded(rev, s, t, now);
      Valid(rev, r) &&
      r.bits == s.bits && r.lifetimeBits == s.lifetimeBits && r.rootAccessLevel == s.rootAccessLevel &&
      r.cryptos == s.cryptos && r.permanentMultiplier == s.permanentMultiplier &&
      r.achievements == s.achievements && !r.firewallActive && r.gps == 0.0 &&
      (forall i | 0 <= i < |s.upgrades| :: r.upgrades[i].count == s.upgrades[i].count && r.upgrades[i].cost <= s.upgrades[i].cost) &&
      (rev != Backup ==> r.statistics == s.statistics) &&
      (rev == Modular ==> r.skills == s.skills && r.storyEvents == s.storyEvents)
  {
    RescaledAligned(rev, s.upgrades);
  }

  /** Recomputing the prices from the counts keeps the generators aligned with the catalog and never raises a price. */
  lemma RescaledAligned(rev: Revision, ups: seq<Upgrade>)
    requires UpgradesAligned(rev, ups)
    ensures UpgradesAligned(rev, Rescaled(rev, ups))
    ensures forall i | 0 <= i < |ups| :: Rescaled(rev, ups)[i].cost <= ups[i].cost
  {
    var r := Rescaled(rev, ups);
    var cat := Upgrades(rev);
    forall i | 0 <= i < |cat|
      ensures r[i] == cat[i].(count := r[i].count, cost := r[i].cost)
      ensures Numeric.CostBounds(cat[i].cost, r[i].count, r[i].cost)
      ensures r[i].cost <= ups[i].cost
    {
      BaseCostAt(rev, i);
    }
  }
}
