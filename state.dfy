// The game state and its life cycle (js/state.js, the state block of
// script.js, backup/js/state.js): the fresh state, loading a parsed
// save over it, and the reset performed by a prestige reboot.
module GameState {
  import opened Wrappers
  import opened Constants
  import Numeric

  datatype Statistics = Statistics(
    totalClicks: int, totalBitsEarned: real, playTimeSeconds: int, rebootCount: int,
    firewallsEncountered: int, firewallsCleared: int, sessionStartTime: int)

  /** One entry of the skill map; the list keeps the map's key order. */
  datatype SkillLevel = SkillLevel(id: string, level: int)

  /** A timed boost: a GPS multiplier or a click multiplier, until `endTime` (ms). */
  datatype Boost = Boost(factor: real, endTime: int)

  /**
   * The whole gameState object. Fields a revision does not have keep the
   * values its fresh state gives them and are never changed.
   */
  datatype State = State(
    bits: real, lifetimeBits: real, gps: real, clickPower: real,
    rootAccessLevel: int, cryptos: int,
    permanentMultiplier: real, offlineMultiplier: real,
    skillPoints: int, skills: seq<SkillLevel>,
    firewallActive: bool, firewallCode: string, autoGlitchEnabled: bool,
    statistics: Statistics,
    upgrades: seq<Upgrade>, achievements: seq<Achievement>, storyEvents: seq<StoryEvent>,
    tutorialSeen: bool,
    activeBoosts: seq<Boost>, activeClickBoosts: seq<Boost>,
    lastSaveTime: int)

  // ---------------------------------------------------------------
  // The persisted snapshot as `JSON.parse` returns it: every key may be
  // missing.

  /** One entry of the saved upgrade map: its key, the saved count and the saved cost. */
  datatype SavedUpgrade = SavedUpgrade(key: string, count: nat, cost: nat)

  /** A saved achievement `{id, unlocked}` or story event `{id, triggered}`. */
  datatype SavedFlag = SavedFlag(id: string, flag: bool)

  datatype SavedStats = SavedStats(
    totalClicks: Option<int>, totalBitsEarned: Option<real>, playTimeSeconds: Option<int>,
    rebootCount: Option<int>, firewallsEncountered: Option<int>, firewallsCleared: Option<int>,
    sessionStartTime: Option<int>)

  datatype SaveData = SaveData(
    bits: Option<real>, lifetimeBits: Option<real>, rootAccessLevel: Option<int>, cryptos: Option<int>,
    permanentMultiplier: Option<real>, offlineMultiplier: Option<real>, skillPoints: Option<int>,
    lastSaveTime: Option<int>, tutorialSeen: Option<bool>, autoGlitchEnabled: Option<bool>,
    skills: Option<seq<SkillLevel>>, upgrades: Option<seq<SavedUpgrade>>,
    achievements: Option<seq<SavedFlag>>, storyEvents: Option<seq<SavedFlag>>,
    activeBoosts: Option<seq<Boost>>, activeClickBoosts: Option<seq<Boost>>,
    statistics: Option<SavedStats>)

  /** `v || d` on a number: a missing or zero value gives the default. */
  function RealOr(o: Option<real>, d: real): (r: real)
    ensures r == d || (o.Some? && r == o.value && r != 0.0)
    ensures o.Some? && o.value != 0.0 ==> r == o.value
  {
    if o.Some? && o.value != 0.0 then o.value else d
  }

  function IntOr(o: Option<int>, d: int): (r: int)
    ensures r == d || (o.Some? && r == o.value && r != 0)
    ensures o.Some? && o.value != 0 ==> r == o.value
  {
    if o.Some? && o.value != 0 then o.value else d
  }

  // ---------------------------------------------------------------
  // The skill map as an ordered association list.

  function SkillKeys(skills: seq<SkillLevel>): (ids: seq<string>)
    ensures |ids| == |skills| && forall i | 0 <= i < |skills| :: ids[i] == skills[i].id
  {
    seq(|skills|, i requires 0 <= i < |skills| => skills[i].id)
  }

  /** `skills[id]`, absent when the map has no such key. */
  function SkillLookup(skills: seq<SkillLevel>, id: string): (r: Option<int>)
    ensures r.Some? <==> id in SkillKeys(skills)
    ensures r.Some? ==> SkillLevel(id, r.value) in skills
  {
    match Find(SkillKeys(skills), id)
    case None => None
    case Some(i) => Some(skills[i].level)
  }

  /** `skills[id] = v`: an existing key keeps its place, a new key goes last. */
  function SkillPut(skills: seq<SkillLevel>, id: string, v: int): (r: seq<SkillLevel>)
    ensures SkillLookup(r, id) == Some(v)
    ensures forall x | x != id :: SkillLookup(r, x) == SkillLookup(skills, x)
    ensures |r| == if id in SkillKeys(skills) then |skills| else |skills| + 1
    ensures forall i | 0 <= i < |skills| :: r[i].id == skills[i].id
  {
    match Find(SkillKeys(skills), id)
    case Some(i) =>
      var r := skills[i := SkillLevel(id, v)];
      assert SkillKeys(r) == SkillKeys(skills);
      r
    case None =>
      var r := skills + [SkillLevel(id, v)];
      assert SkillKeys(r) == SkillKeys(skills) + [id];
      assert Find(SkillKeys(r), id) == Some(|skills|);
      forall x | x != id ensures SkillLookup(r, x) == SkillLookup(skills, x) {
        assert Find(SkillKeys(r), x) == Find(SkillKeys(skills), x) by { FindAppend(SkillKeys(skills), id, x); }
      }
      r
  }

  lemma {:induction false} FindAppend(xs: seq<string>, y: string, x: string)
    requires x != y
    ensures Find(xs + [y], x) == Find(xs, x)
  {
    if |xs| > 0 && xs[0] != x {
      assert (xs + [y])[1..] == xs[1..] + [y];
      FindAppend(xs[1..], y, x);
    }
  }

  /** `{ ...base, ...saved }`. */
  function SkillMerge(base: seq<SkillLevel>, saved: seq<SkillLevel>): seq<SkillLevel>
    decreases |saved|
  {
    if saved == [] then base
    else SkillMerge(SkillPut(base, saved[0].id, saved[0].level), saved[1..])
  }

  /** Spread semantics: a key the save carries takes the saved value, any other key keeps its own. */
  lemma {:induction false} SkillMergeLookup(base: seq<SkillLevel>, saved: seq<SkillLevel>, x: string)
    requires Distinct(SkillKeys(saved))
    ensures SkillLookup(SkillMerge(base, saved), x) ==
      if x in SkillKeys(saved) then SkillLookup(saved, x) else SkillLookup(base, x)
    decreases |saved|
  {
    if saved != [] {
      var rest := saved[1..];
      assert SkillKeys(saved) == [saved[0].id] + SkillKeys(rest);
      assert Distinct(SkillKeys(rest)) by {
        forall i, j | 0 <= i < j < |rest| ensures rest[i].id != rest[j].id {
          assert saved[i + 1].id != saved[j + 1].id;
        }
      }
      SkillMergeLookup(SkillPut(base, saved[0].id, saved[0].level), rest, x);
      if x == saved[0].id {
        assert x !in SkillKeys(rest) by {
          forall j | 0 <= j < |rest| ensures rest[j].id != x { assert saved[0].id != saved[j + 1].id; }
        }
        assert Find(SkillKeys(saved), x) == Some(0);
      } else if x in SkillKeys(rest) {
        assert Find(SkillKeys(saved), x).Some?;
        var i :| 0 <= i < |rest| && rest[i].id == x;
        assert SkillKeys(saved)[1..] == SkillKeys(rest);
      }
    }
  }

  /** A zero level for every skill of the tree, in the tree's order. */
  function ZeroSkills(tree: seq<SkillDef>): (skills: seq<SkillLevel>)
    ensures SkillKeys(skills) == SkillIds(tree)
    ensures forall i | 0 <= i < |skills| :: skills[i].level == 0
  {
    seq(|tree|, i requires 0 <= i < |tree| => SkillLevel(tree[i].id, 0))
  }

  function SkillLevels(skills: seq<SkillLevel>): (lv: seq<int>)
    ensures |lv| == |skills| && forall i | 0 <= i < |skills| :: lv[i] == skills[i].level
  {
    seq(|skills|, i requires 0 <= i < |skills| => skills[i].level)
  }

  /**
   * The skill_master test as written: for a level value it looks up the
   * FIRST key holding that value and compares the value with that key's
   * maximum, not with the maximum of the skill the value came from.
   */
  predicate MaxedAsWritten(skills: seq<SkillLevel>, tree: seq<SkillDef>, level: int)
  {
    match Find(SkillLevels(skills), level)
    case None => false
    case Some(f) =>
      skills[f].id != "" &&
      match FindSkill(tree, skills[f].id)
      case None => false
      case Some(d) => level >= d.maxLevel
  }

  predicate SkillMasterAsWritten(skills: seq<SkillLevel>, tree: seq<SkillDef>)
  {
    exists j | 0 <= j < |skills| :: MaxedAsWritten(skills, tree, skills[j].level)
  }

  /**
   * The test misses a maxed skill whose level an earlier skill also holds:
   * firewall_bypass at its maximum 3 behind click_efficiency at 3 of 5.
   */
  lemma SkillMasterMissesMaxed()
    ensures var skills := [SkillLevel("click_efficiency", 3), SkillLevel("firewall_bypass", 3)];
      FindSkill(SkillTree(Modular), "firewall_bypass") == Some(SkillDef("firewall_bypass", 3, 3)) &&
      !SkillMasterAsWritten(skills, SkillTree(Modular))
  {
    var skills := [SkillLevel("click_efficiency", 3), SkillLevel("firewall_bypass", 3)];
    var tree := SkillTree(Modular);
    assert SkillIds(tree)[0] == "click_efficiency" && SkillIds(tree)[2] == "firewall_bypass";
    assert SkillLevels(skills) == [3, 3];
    assert FindSkill(tree, "click_efficiency") == Some(SkillDef("click_efficiency", 1, 5));
    assert !MaxedAsWritten(skills, tree, 3);
  }

  /** `s.upgrades[id].count`, absent for an unknown key. */
  function OwnedCount(ups: seq<Upgrade>, id: string): (r: Option<nat>)
    ensures r.Some? <==> id in UpgradeIds(ups)
    ensures r.Some? ==> exists i | 0 <= i < |ups| :: ups[i].id == id && ups[i].count == r.value
  {
    match Find(UpgradeIds(ups), id)
    case None => None
    case Some(i) => Some(ups[i].count)
  }

  /** Whether a condition of an achievement or story event holds of the state. */
  predicate Holds(rev: Revision, c: Condition, s: State)
  {
    match c
    case ClicksAtLeast(n) => s.statistics.totalClicks >= n
    case LifetimeAtLeast(b) => s.lifetimeBits >= b
    case CryptosAtLeast(n) => s.cryptos >= n
    case RootLevelAtLeast(n) => s.rootAccessLevel >= n
    case OwnsAtLeast(id, n) => OwnedCount(s.upgrades, id).Some? && OwnedCount(s.upgrades, id).value >= n
    case GpsAtLeast(g) => s.gps >= g
    case FirewallsClearedAtLeast(n) => s.statistics.firewallsCleared >= n
    case SkillMaster => SkillMasterAsWritten(s.skills, SkillTree(rev))
    case AnyUpgradeOwned => exists i | 0 <= i < |s.upgrades| :: s.upgrades[i].count > 0
  }

  // ---------------------------------------------------------------
  // Well-formed states.

  const ZeroStats := Statistics(0, 0.0, 0, 0, 0, 0, 0)

  /** The state's generators are the catalog's, each with a count and a cost reachable from it. */
  ghost predicate UpgradesAligned(rev: Revision, ups: seq<Upgrade>)
  {
    var cat := Upgrades(rev);
    |ups| == |cat| &&
    forall i | 0 <= i < |cat| ::
      ups[i] == cat[i].(count := ups[i].count, cost := ups[i].cost) &&
      Numeric.CostBounds(cat[i].cost, ups[i].count, ups[i].cost)
  }

  ghost predicate AchievementsAligned(rev: Revision, achs: seq<Achievement>)
  {
    var cat := Achievements(rev);
    |achs| == |cat| && forall i | 0 <= i < |cat| :: achs[i] == cat[i].(unlocked := achs[i].unlocked)
  }

  ghost predicate StoryAligned(rev: Revision, events: seq<StoryEvent>)
  {
    var cat := Story(rev);
    |events| == |cat| && forall i | 0 <= i < |cat| :: events[i] == cat[i].(triggered := events[i].triggered)
  }

  ghost predicate SkillsAligned(rev: Revision, skills: seq<SkillLevel>)
  {
    var tree := SkillTree(rev);
    SkillKeys(skills) == SkillIds(tree) &&
    forall i | 0 <= i < |skills| :: 0 <= skills[i].level <= tree[i].maxLevel
  }

  /** The invariant every operation of the game keeps. */
  ghost predicate Valid(rev: Revision, s: State)
  {
    UpgradesAligned(rev, s.upgrades) && AchievementsAligned(rev, s.achievements) &&
    StoryAligned(rev, s.storyEvents) && SkillsAligned(rev, s.skills) &&
    0.0 <= s.bits <= s.lifetimeBits && s.gps >= 0.0 && s.clickPower > 0.0 &&
    s.rootAccessLevel >= 0 && s.cryptos >= 0 &&
    s.permanentMultiplier >= 1.0 && s.offlineMultiplier >= 1.0 &&
    (forall b | b in s.activeBoosts :: b.factor > 0.0) &&
    (forall b | b in s.activeClickBoosts :: b.factor > 0.0) &&
    (rev != Modular ==>
      s.offlineMultiplier == 1.0 && s.skillPoints == 0 && !s.autoGlitchEnabled &&
      !s.tutorialSeen && s.activeClickBoosts == []) &&
    (rev == Backup ==> !s.firewallActive && s.statistics == ZeroStats && s.lastSaveTime == 0)
  }

  // ---------------------------------------------------------------
  // initState

  function Relock(achs: seq<Achievement>): (r: seq<Achievement>)
    ensures |r| == |achs| && forall i | 0 <= i < |achs| :: r[i] == achs[i].(unlocked := false)
  {
    seq(|achs|, i requires 0 <= i < |achs| => achs[i].(unlocked := false))
  }

  function Untrigger(events: seq<StoryEvent>): (r: seq<StoryEvent>)
    ensures |r| == |events| && forall i | 0 <= i < |events| :: r[i] == events[i].(triggered := false)
  {
    seq(|events|, i requires 0 <= i < |events| => events[i].(triggered := false))
  }

  /** The catalog itself is a well-formed set of generators: none owned, each at its base price. */
  lemma CatalogAligned(rev: Revision)
    ensures UpgradesAligned(rev, Upgrades(rev))
  {
    var ups := Upgrades(rev);
    forall i | 0 <= i < |ups| ensures Numeric.CostBounds(ups[i].cost, 0, ups[i].cost) {
      Numeric.ScaledAtZero(ups[i].cost);
    }
  }

  /** `initState()` at time `now`: nothing owned, nothing earned, nothing unlocked. */
  function InitState(rev: Revision, now: int): (s: State)
    ensures Valid(rev, s)
    ensures s.bits == 0.0 && s.lifetimeBits == 0.0 && s.gps == 0.0 && s.clickPower == 1.0
    ensures s.rootAccessLevel == 0 && s.cryptos == 0 && s.permanentMultiplier == 1.0
    ensures s.upgrades == Upgrades(rev) && forall i | 0 <= i < |s.upgrades| :: s.upgrades[i].count == 0
    ensures forall i | 0 <= i < |s.achievements| :: !s.achievements[i].unlocked
    ensures forall i | 0 <= i < |s.storyEvents| :: !s.storyEvents[i].triggered
    ensures s.activeBoosts == [] && s.activeClickBoosts == []
    ensures s.skillPoints == 0 && s.skills == ZeroSkills(SkillTree(rev)) && s.offlineMultiplier == 1.0
    ensures !s.firewallActive && s.firewallCode == "" && !s.autoGlitchEnabled && !s.tutorialSeen
    ensures rev != Backup ==> s.lastSaveTime == now && s.statistics == ZeroStats.(sessionStartTime := now)
  {
    var ups := Upgrades(rev);
    CatalogAligned(rev);
    State(
      bits := 0.0, lifetimeBits := 0.0, gps := 0.0, clickPower := 1.0,
      rootAccessLevel := 0, cryptos := 0,
      permanentMultiplier := 1.0, offlineMultiplier := 1.0,
      skillPoints := 0, skills := ZeroSkills(SkillTree(rev)),
      firewallActive := false, firewallCode := "", autoGlitchEnabled := false,
      statistics := if rev == Backup then ZeroStats else ZeroStats.(sessionStartTime := now),
      upgrades := ups, achievements := Relock(Achievements(rev)), storyEvents := Untrigger(Story(rev)),
      tutorialSeen := false, activeBoosts := [], activeClickBoosts := [],
      lastSaveTime := if rev == Backup then 0 else now)
  }

  // ---------------------------------------------------------------
  // loadState

  /** `boosts.filter(b => b.endTime > now)`. */
  function Unexpired(boosts: seq<Boost>, now: int): (r: seq<Boost>)
    ensures forall b :: b in r <==> b in boosts && b.endTime > now
    ensures |r| <= |boosts|
  {
    if boosts == [] then []
    else (if boosts[0].endTime > now then [boosts[0]] else []) + Unexpired(boosts[1..], now)
  }

  /** `UPGRADES[key].cost`, the catalog price of a generator. */
  function BaseCost(rev: Revision, key: string): (c: nat)
    ensures key in UpgradeIds(Upgrades(rev)) ==> c > 0
  {
    match Find(UpgradeIds(Upgrades(rev)), key)
    case None => 0
    case Some(j) => Upgrades(rev)[j].cost
  }

  lemma BaseCostAt(rev: Revision, i: nat)
    requires i < |Upgrades(rev)|
    ensures BaseCost(rev, Upgrades(rev)[i].id) == Upgrades(rev)[i].cost
  {
    var ids := UpgradeIds(Upgrades(rev));
    assert Find(ids, ids[i]) == Some(i);
  }

  /** One saved entry: a known key takes the saved count and the cost recomputed from it. */
  function LoadCount(rev: Revision, ups: seq<Upgrade>, su: SavedUpgrade): (r: seq<Upgrade>)
    ensures UpgradeIds(r) == UpgradeIds(ups)
    ensures su.key !in UpgradeIds(ups) ==> r == ups
    ensures su.key in UpgradeIds(ups) ==> OwnedCount(r, su.key) == Some(su.count)
    // the first generator with the key is the one updated, at the price of its count
    ensures forall i | 0 <= i < |ups| && ups[i].id == su.key && su.key !in UpgradeIds(ups)[..i] ::
      r[i] == ups[i].(count := su.count, cost := Numeric.Scaled(BaseCost(rev, su.key), su.count))
    ensures forall i | 0 <= i < |ups| && (ups[i].id != su.key || su.key in UpgradeIds(ups)[..i]) :: r[i] == ups[i]
  {
    match Find(UpgradeIds(ups), su.key)
    case None => ups
    case Some(i) =>
      var r := ups[i := ups[i].(count := su.count, cost := Numeric.Scaled(BaseCost(rev, su.key), su.count))];
      assert UpgradeIds(r) == UpgradeIds(ups);
      forall j | 0 <= j < |ups| && ups[j].id == su.key && j != i ensures su.key in UpgradeIds(ups)[..j] {
        assert UpgradeIds(ups)[..j][i] == su.key;
      }
      r
  }

  function LoadCounts(rev: Revision, ups: seq<Upgrade>, saved: seq<SavedUpgrade>): (r: seq<Upgrade>)
    ensures UpgradeIds(r) == UpgradeIds(ups)
    decreases |saved|
  {
    if saved == [] then ups else LoadCounts(rev, LoadCount(rev, ups, saved[0]), saved[1..])
  }

  /** Loading counts keeps the generators aligned with the catalog, each cost within its bounds. */
  lemma {:induction false} LoadCountsAligned(rev: Revision, ups: seq<Upgrade>, saved: seq<SavedUpgrade>)
    requires UpgradesAligned(rev, ups)
    ensures UpgradesAligned(rev, LoadCounts(rev, ups, saved))
    decreases |saved|
  {
    if saved != [] {
      LoadCountAligned(rev, ups, saved[0]);
      LoadCountsAligned(rev, LoadCount(rev, ups, saved[0]), saved[1..]);
    }
  }

  /** One saved count keeps the generators aligned: the rescaled price is within its bounds. */
  lemma LoadCountAligned(rev: Revision, ups: seq<Upgrade>, su: SavedUpgrade)
    requires UpgradesAligned(rev, ups)
    ensures UpgradesAligned(rev, LoadCount(rev, ups, su))
  {
    var found := Find(UpgradeIds(ups), su.key);
    if found.Some? {
      BaseCostAt(rev, found.value);
      Numeric.LadderBounds(Upgrades(rev)[found.value].cost, su.count);
    }
  }

  /** The saved entry for `key` that a left-to-right load applies last, if any. */
  function LastSaved(saved: seq<SavedUpgrade>, key: string): (r: Option<SavedUpgrade>)
    ensures r.Some? ==> r.value in saved && r.value.key == key
    ensures r.None? ==> forall j | 0 <= j < |saved| :: saved[j].key != key
  {
    if saved == [] then None
    else match LastSaved(saved[1..], key)
      case Some(su) => Some(su)
      case None => if saved[0].key == key then Some(saved[0]) else None
  }

  /** Generator `u` after the saved entries for its key: the last one's count, and its price. */
  function Reloaded(rev: Revision, u: Upgrade, last: Option<SavedUpgrade>): Upgrade
  {
    match last
    case None => u
    case Some(su) => u.(count := su.count, cost := Numeric.Scaled(BaseCost(rev, u.id), su.count))
  }

  /**
   * With distinct keys, loading a list of saved counts is a per-key rule:
   * a generator the save names takes the last saved count and the price
   * recomputed for it, every other generator is left as it was.
   */
  lemma {:induction false} LoadCountsByKey(rev: Revision, ups: seq<Upgrade>, saved: seq<SavedUpgrade>)
    requires Distinct(UpgradeIds(ups))
    ensures var r := LoadCounts(rev, ups, saved);
      |r| == |ups| && forall i | 0 <= i < |ups| :: r[i] == Reloaded(rev, ups[i], LastSaved(saved, ups[i].id))
    decreases |saved|
  {
    if saved != [] {
      var u1 := LoadCount(rev, ups, saved[0]);
      LoadCountsByKey(rev, u1, saved[1..]);
      var r := LoadCounts(rev, ups, saved);
      forall i | 0 <= i < |ups| ensures r[i] == Reloaded(rev, ups[i], LastSaved(saved, ups[i].id)) {
        assert UpgradeIds(u1)[i] == ups[i].id;
        if ups[i].id == saved[0].key {
          assert saved[0].key !in UpgradeIds(ups)[..i];
        }
      }
    }
  }

  /** The flag a left-to-right pass over the saved list leaves for `id`, if any. */
  function LastFlag(saved: seq<SavedFlag>, id: string): (r: Option<bool>)
    ensures r.Some? ==> SavedFlag(id, r.value) in saved
    ensures r.None? ==> forall j | 0 <= j < |saved| :: saved[j].id != id
  {
    if saved == [] then None
    else match LastFlag(saved[1..], id)
      case Some(b) => Some(b)
      case None => if saved[0].id == id then Some(saved[0].flag) else None
  }

  /** Saved achievement flags applied by id; unknown ids are ignored. */
  function ApplyUnlocked(achs: seq<Achievement>, saved: seq<SavedFlag>): (r: seq<Achievement>)
    ensures AchievementIds(r) == AchievementIds(achs)
    ensures forall i | 0 <= i < |r| :: r[i] == achs[i].(unlocked := r[i].unlocked)
    decreases |saved|
  {
    if saved == [] then achs else ApplyUnlocked(UnlockOne(achs, saved[0]), saved[1..])
  }

  /** One saved achievement flag, applied to the entry with its id if there is one. */
  function UnlockOne(achs: seq<Achievement>, f: SavedFlag): (r: seq<Achievement>)
    ensures AchievementIds(r) == AchievementIds(achs)
    ensures forall i | 0 <= i < |r| :: r[i] == achs[i].(unlocked := r[i].unlocked)
    ensures f.id !in AchievementIds(achs) ==> r == achs
    // the first entry with the id takes the saved flag, every other keeps its own
    ensures forall i | 0 <= i < |achs| ::
      r[i].unlocked == (if achs[i].id == f.id && f.id !in AchievementIds(achs)[..i] then f.flag else achs[i].unlocked)
  {
    match Find(AchievementIds(achs), f.id)
    case None => achs
    case Some(i) =>
      var r := achs[i := achs[i].(unlocked := f.flag)];
      assert AchievementIds(r) == AchievementIds(achs);
      forall j | 0 <= j < |achs| && achs[j].id == f.id && j != i ensures f.id in AchievementIds(achs)[..j] {
        assert AchievementIds(achs)[..j][i] == f.id;
      }
      r
  }

  /** Saved story flags applied by id; unknown ids are ignored. */
  function ApplyTriggered(events: seq<StoryEvent>, saved: seq<SavedFlag>): (r: seq<StoryEvent>)
    ensures StoryIds(r) == StoryIds(events)
    ensures forall i | 0 <= i < |r| :: r[i] == events[i].(triggered := r[i].triggered)
    decreases |saved|
  {
    if saved == [] then events else ApplyTriggered(TriggerOne(events, saved[0]), saved[1..])
  }

  /** One saved story flag, applied to the event with its id if there is one. */
  function TriggerOne(events: seq<StoryEvent>, f: SavedFlag): (r: seq<StoryEvent>)
    ensures StoryIds(r) == StoryIds(events)
    ensures forall i | 0 <= i < |r| :: r[i] == events[i].(triggered := r[i].triggered)
    ensures f.id !in StoryIds(events) ==> r == events
    // the first event with the id takes the saved flag, every other keeps its own
    ensures forall i | 0 <= i < |events| ::
      r[i].triggered == (if events[i].id == f.id && f.id !in StoryIds(events)[..i] then f.flag else events[i].triggered)
  {
    match Find(StoryIds(events), f.id)
    case None => events
    case Some(i) =>
      var r := events[i := events[i].(triggered := f.flag)];
      assert StoryIds(r) == StoryIds(events);
      forall j | 0 <= j < |events| && events[j].id == f.id && j != i ensures f.id in StoryIds(events)[..j] {
        assert StoryIds(events)[..j][i] == f.id;
      }
      r
  }

  /**
   * With distinct ids, the saved achievement list is a per-id rule: an
   * achievement the save names takes the last saved flag, any other keeps its own.
   */
  lemma {:induction false} ApplyUnlockedById(achs: seq<Achievement>, saved: seq<SavedFlag>)
    requires Distinct(AchievementIds(achs))
    ensures var r := ApplyUnlocked(achs, saved);
      |r| == |achs| && forall i | 0 <= i < |achs| :: r[i] == achs[i].(unlocked := LastFlag(saved, achs[i].id).GetOr(achs[i].unlocked))
    decreases |saved|
  {
    if saved != [] {
      var a1 := UnlockOne(achs, saved[0]);
      ApplyUnlockedById(a1, saved[1..]);
      forall i | 0 <= i < |achs| && achs[i].id == saved[0].id ensures saved[0].id !in AchievementIds(achs)[..i] {
      }
      assert forall i | 0 <= i < |achs| :: AchievementIds(a1)[i] == achs[i].id;
    }
  }

  /** The story counterpart of `ApplyUnlockedById`. */
  lemma {:induction false} ApplyTriggeredById(events: seq<StoryEvent>, saved: seq<SavedFlag>)
    requires Distinct(StoryIds(events))
    ensures var r := ApplyTriggered(events, saved);
      |r| == |events| && forall i | 0 <= i < |events| :: r[i] == events[i].(triggered := LastFlag(saved, events[i].id).GetOr(events[i].triggered))
    decreases |saved|
  {
    if saved != [] {
      var e1 := TriggerOne(events, saved[0]);
      ApplyTriggeredById(e1, saved[1..]);
      forall i | 0 <= i < |events| && events[i].id == saved[0].id ensures saved[0].id !in StoryIds(events)[..i] {
      }
      assert forall i | 0 <= i < |events| :: StoryIds(e1)[i] == events[i].id;
    }
  }

  /** A key of the save wins over the current value; a missing key keeps it. */
  predicate Merged<T(==)>(saved: Option<T>, cur: T, r: T)
  {
    if saved.Some? then r == saved.value else r == cur
  }

  /** `{ ...cur, ...saved }` on the statistics record. */
  function MergeStats(cur: Statistics, saved: SavedStats): (r: Statistics)
    ensures Merged(saved.totalClicks, cur.totalClicks, r.totalClicks)
    ensures Merged(saved.totalBitsEarned, cur.totalBitsEarned, r.totalBitsEarned)
    ensures Merged(saved.playTimeSeconds, cur.playTimeSeconds, r.playTimeSeconds)
    ensures Merged(saved.rebootCount, cur.rebootCount, r.rebootCount)
    ensures Merged(saved.firewallsEncountered, cur.firewallsEncountered, r.firewallsEncountered)
    ensures Merged(saved.firewallsCleared, cur.firewallsCleared, r.firewallsCleared)
    ensures Merged(saved.sessionStartTime, cur.sessionStartTime, r.sessionStartTime)
  {
    Statistics(
      saved.totalClicks.GetOr(cur.totalClicks), saved.totalBitsEarned.GetOr(cur.totalBitsEarned),
      saved.playTimeSeconds.GetOr(cur.playTimeSeconds), saved.rebootCount.GetOr(cur.rebootCount),
      saved.firewallsEncountered.GetOr(cur.firewallsEncountered),
      saved.firewallsCleared.GetOr(cur.firewallsCleared),
      saved.sessionStartTime.GetOr(cur.sessionStartTime))
  }

  /**
   * Points already spent on the skills the map holds: the sum of level
   * times price. Absent when a key is not in the tree, where the game's
   * `SKILL_TREE[skillId].cost` throws.
   */
  function SpentPoints(skills: seq<SkillLevel>, tree: seq<SkillDef>): Option<int>
  {
    if skills == [] then Some(0)
    else
      match FindSkill(tree, skills[0].id)
      case None => None
      case Some(d) =>
        match SpentPoints(skills[1..], tree)
        case None => None
        case Some(t) => Some(skills[0].level * d.cost + t)
  }

  /** The sum is absent exactly when some key of the map is missing from the tree. */
  lemma {:induction false} SpentPointsAbsent(skills: seq<SkillLevel>, tree: seq<SkillDef>)
    ensures SpentPoints(skills, tree).None? <==> exists i | 0 <= i < |skills| :: skills[i].id !in SkillIds(tree)
    decreases |skills|
  {
    if skills != [] {
      SpentPointsAbsent(skills[1..], tree);
      if SpentPoints(skills[1..], tree).None? {
        var i :| 0 <= i < |skills[1..]| && skills[1..][i].id !in SkillIds(tree);
        assert skills[i + 1].id !in SkillIds(tree);
      } else if FindSkill(tree, skills[0].id).Some? {
        forall i | 0 <= i < |skills| ensures skills[i].id in SkillIds(tree) {
          if i > 0 { assert skills[i] == skills[1..][i - 1]; }
        }
      }
    }
  }

  /** With no negative level the points spent are never negative. */
  lemma {:induction false} SpentPointsNonNegative(skills: seq<SkillLevel>, tree: seq<SkillDef>)
    requires forall i | 0 <= i < |skills| :: skills[i].level >= 0
    ensures SpentPoints(skills, tree).Some? ==> SpentPoints(skills, tree).value >= 0
    decreases |skills|
  {
    if skills != [] && SpentPoints(skills, tree).Some? {
      var d := FindSkill(tree, skills[0].id).value;
      assert d in tree;
      SpentPointsNonNegative(skills[1..], tree);
      assert skills[0].level * d.cost >= 0 by {
        assert skills[0].level >= 0;
      }
    }
  }

  /** Skills keyed exactly by the tree's ids always have a cost. */
  lemma SpentDefined(skills: seq<SkillLevel>, tree: seq<SkillDef>)
    requires SkillKeys(skills) == SkillIds(tree)
    ensures SpentPoints(skills, tree).Some?
  {
    forall i | 0 <= i < |skills| ensures skills[i].id in SkillIds(tree) {
      assert SkillKeys(skills)[i] == skills[i].id;
    }
    SpentPointsAbsent(skills, tree);
  }

  /** What `loadState` leaves behind, and whether it ended in an exception. */
  datatype Loaded = Loaded(state: State, threw: bool)

  /** Every key the revision's `loadState` copies, before the skill-point migration. */
  function LoadFields(rev: Revision, d: SaveData, now: int): (r: State)
    // loading never assigns the rates or the firewall
    ensures r.gps == 0.0 && r.clickPower == 1.0 && !r.firewallActive
    ensures UpgradeIds(r.upgrades) == UpgradeIds(Upgrades(rev))
    ensures d.upgrades.None? ==> r.upgrades == Upgrades(rev)
    ensures d.bits.None? ==> r.bits == 0.0
  {
    Overlay(rev, InitState(rev, now), d, now)
  }

  /** The keys of save `d` copied over the fresh state `s0`, in the revision's order. */
  function Overlay(rev: Revision, s0: State, d: SaveData, now: int): (r: State)
    ensures r.gps == s0.gps && r.clickPower == s0.clickPower && r.firewallActive == s0.firewallActive
    ensures UpgradeIds(r.upgrades) == UpgradeIds(s0.upgrades)
    ensures d.upgrades.None? ==> r.upgrades == s0.upgrades
    ensures d.bits.None? ==> r.bits == 0.0
  {
    Fill(rev, s0, d, now, Rebuild(rev, s0, d, now))
  }

  /** The collections `loadState` rebuilds from a save. */
  datatype Collections = Collections(
    upgrades: seq<Upgrade>, achievements: seq<Achievement>, activeBoosts: seq<Boost>,
    skills: seq<SkillLevel>, storyEvents: seq<StoryEvent>, activeClickBoosts: seq<Boost>)

  /** Each collection of save `d` laid over the fresh state's own; a missing key keeps the fresh one. */
  function Rebuild(rev: Revision, s0: State, d: SaveData, now: int): (c: Collections)
    // the catalog order of every keyed collection is kept
    ensures UpgradeIds(c.upgrades) == UpgradeIds(s0.upgrades)
    ensures AchievementIds(c.achievements) == AchievementIds(s0.achievements)
    ensures StoryIds(c.storyEvents) == StoryIds(s0.storyEvents)
    // a missing key keeps the fresh collection
    ensures d.upgrades.None? ==> c.upgrades == s0.upgrades
    ensures d.achievements.None? ==> c.achievements == s0.achievements
    ensures d.skills.None? ==> c.skills == s0.skills
    ensures d.storyEvents.None? ==> c.storyEvents == s0.storyEvents
    // only boosts still running at `now` are restored
    ensures forall b | b in c.activeBoosts :: b.endTime > now
    ensures forall b | b in c.activeClickBoosts :: b.endTime > now
  {
    var boosts := if d.activeBoosts.Some? then Unexpired(d.activeBoosts.value, now) else [];
    var clickBoosts := if d.activeClickBoosts.Some? then Unexpired(d.activeClickBoosts.value, now) else [];
    assert forall b | b in boosts :: b.endTime > now;
    assert forall b | b in clickBoosts :: b.endTime > now;
    Collections(
      if d.upgrades.Some? then LoadCounts(rev, s0.upgrades, d.upgrades.value) else s0.upgrades,
      if d.achievements.Some? then ApplyUnlocked(s0.achievements, d.achievements.value) else s0.achievements,
      boosts,
      if d.skills.Some? then SkillMerge(s0.skills, d.skills.value) else s0.skills,
      if d.storyEvents.Some? then ApplyTriggered(s0.storyEvents, d.storyEvents.value) else s0.storyEvents,
      clickBoosts)
  }

  /**
   * The scalar keys of `d` and the rebuilt collections `c` over `s0`: the
   * backup build copies the core keys, script.js adds the save time and the
   * statistics, the module build everything else.
   */
  function Fill(rev: Revision, s0: State, d: SaveData, now: int, c: Collections): (r: State)
    // keys every build copies
    ensures r.bits == d.bits.GetOr(0.0) && r.permanentMultiplier == RealOr(d.permanentMultiplier, 1.0)
    ensures r.upgrades == c.upgrades && r.achievements == c.achievements && r.activeBoosts == c.activeBoosts
    // keys no build's loadState assigns
    ensures r.gps == s0.gps && r.clickPower == s0.clickPower
    ensures r.firewallActive == s0.firewallActive && r.firewallCode == s0.firewallCode
    // the save time and the statistics: not in the backup build
    ensures rev == Backup ==> r.lastSaveTime == s0.lastSaveTime && r.statistics == s0.statistics
    ensures rev != Backup ==> r.lastSaveTime == IntOr(d.lastSaveTime, now)
    // the module build's own keys; the older builds keep the fresh values
    ensures rev == Modular ==>
      r.skills == c.skills && r.storyEvents == c.storyEvents && r.activeClickBoosts == c.activeClickBoosts &&
      r.offlineMultiplier == RealOr(d.offlineMultiplier, 1.0) && r.skillPoints == d.skillPoints.GetOr(0)
    ensures rev != Modular ==>
      r.skills == s0.skills && r.storyEvents == s0.storyEvents && r.activeClickBoosts == s0.activeClickBoosts &&
      r.offlineMultiplier == s0.offlineMultiplier && r.skillPoints == s0.skillPoints &&
      r.tutorialSeen == s0.tutorialSeen && r.autoGlitchEnabled == s0.autoGlitchEnabled
  {
    var common := s0.(
      bits := d.bits.GetOr(0.0), lifetimeBits := d.lifetimeBits.GetOr(0.0),
      rootAccessLevel := d.rootAccessLevel.GetOr(0), cryptos := d.cryptos.GetOr(0),
      permanentMultiplier := RealOr(d.permanentMultiplier, 1.0),
      upgrades := c.upgrades, achievements := c.achievements, activeBoosts := c.activeBoosts);
    var dated :=
      if rev == Backup then common
      else common.(
        lastSaveTime := IntOr(d.lastSaveTime, now),
        statistics := if d.statistics.Some? then MergeStats(s0.statistics, d.statistics.value) else s0.statistics);
    if rev != Modular then dated
    else dated.(
      offlineMultiplier := RealOr(d.offlineMultiplier, 1.0),
      skillPoints := d.skillPoints.GetOr(0),
      tutorialSeen := d.tutorialSeen.GetOr(false),
      autoGlitchEnabled := d.autoGlitchEnabled.GetOr(false),
      skills := c.skills, storyEvents := c.storyEvents, activeClickBoosts := c.activeClickBoosts)
  }

  /** The condition of the retroactive skill-point grant (module build only). */
  predicate GrantDue(rev: Revision, s: State)
  {
    rev == Modular && s.rootAccessLevel > 0 && s.skillPoints == 0
  }

  /**
   * The grant: the player's points become the root level less what the
   * skills already cost; an unknown skill key throws before anything changes.
   */
  function Migrate(rev: Revision, s: State): (r: Loaded)
    ensures !GrantDue(rev, s) ==> r == Loaded(s, false)
    ensures r.threw <==> GrantDue(rev, s) && SpentPoints(s.skills, SkillTree(rev)).None?
    ensures r.state == s.(skillPoints := r.state.skillPoints)
    ensures GrantDue(rev, s) && !r.threw ==>
      r.state.skillPoints + SpentPoints(s.skills, SkillTree(rev)).value == s.rootAccessLevel
  {
    if GrantDue(rev, s) then
      match SpentPoints(s.skills, SkillTree(rev))
      case None => Loaded(s, true)
      case Some(spent) => Loaded(s.(skillPoints := s.rootAccessLevel - spent), false)
    else Loaded(s, false)
  }

  /**
   * `loadState(savedData)`: a fresh state, the saved keys over it, then
   * the skill-point grant.
   */
  function LoadState(rev: Revision, data: Option<SaveData>, now: int): (r: Loaded)
    ensures data.None? ==> r == Loaded(InitState(rev, now), false)
    ensures r.threw ==> rev == Modular && data.Some?
  {
    if data.None? then Loaded(InitState(rev, now), false)
    else Migrate(rev, LoadFields(rev, data.value, now))
  }

  // ---------------------------------------------------------------
  // resetStateForPrestige

  function ResetUpgrades(rev: Revision, ups: seq<Upgrade>): (r: seq<Upgrade>)
    ensures UpgradeIds(r) == UpgradeIds(ups)
    ensures forall i | 0 <= i < |r| :: r[i].count == 0
  {
    var r := seq(|ups|, i requires 0 <= i < |ups| => ups[i].(count := 0, cost := BaseCost(rev, ups[i].id)));
    assert UpgradeIds(r) == UpgradeIds(ups);
    r
  }

  /**
   * `resetStateForPrestige(newRootLevel)`: a new run at the new root level.
   * The module build and script.js also raise the permanent multiplier by
   * 10%; the module build's skill-point grant compares the level with
   * itself after assigning it, so it never grants anything.
   */
  function ResetForPrestige(rev: Revision, s: State, newLevel: int): (r: State)
    requires UpgradesAligned(rev, s.upgrades)
    // the run's progress and rates are gone, the catalog prices are back;
    // every other field (cryptos, skills, points, achievements, story,
    // statistics, click boosts, flags, save time) persists across reboots
    ensures r == s.(bits := 0.0, lifetimeBits := 0.0, gps := 0.0, clickPower := 1.0,
      rootAccessLevel := newLevel,
      permanentMultiplier := if rev == Backup then s.permanentMultiplier else s.permanentMultiplier * 1.1,
      activeBoosts := [], upgrades := Upgrades(rev))
    ensures Valid(rev, s) && newLevel >= 0 ==> Valid(rev, r)
  {
    var ups := ResetUpgrades(rev, s.upgrades);
    assert ups == Upgrades(rev) by {
      forall i | 0 <= i < |ups| ensures ups[i] == Upgrades(rev)[i] {
        BaseCostAt(rev, i);
      }
    }
    CatalogAligned(rev);
    s.(bits := 0.0, lifetimeBits := 0.0, gps := 0.0, clickPower := 1.0,
       rootAccessLevel := newLevel,
       permanentMultiplier := if rev == Backup then s.permanentMultiplier else s.permanentMultiplier * 1.1,
       activeBoosts := [], upgrades := ups)
  }
}
