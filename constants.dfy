// The game's catalogs (js/constants.js, the constants block of script.js
// and backup/js/constants.js): generators, black-market items,
// achievements, story events and the skill tree, one set per revision.
module Constants {
  import opened Wrappers

  /**
   * The three revisions of the game: the module build under js/, the
   * single-file build script.js, and the older build under backup/js/
   * (game.js and game_bundle.js carry the same logic).
   */
  datatype Revision = Modular | Bundle | Backup

  /** A generator: price of the next purchase, per-unit output and owned count. */
  datatype Upgrade = Upgrade(id: string, cost: nat, gps: real, click: nat, count: nat)

  datatype ItemKind = Consumable | Permanent | Instant

  /**
   * A black-market item. A numeric attribute the item does not carry is 0,
   * which is also how the game's truthiness tests read a missing one.
   */
  datatype MarketItem = MarketItem(
    id: string, cost: nat, kind: ItemKind,
    duration: nat, multiplier: real, clickMultiplier: real,
    hours: nat, offlineMultiplier: real)

  /** The predicates that achievements and story events test the state with. */
  datatype Condition =
    | ClicksAtLeast(clicks: int)
    | LifetimeAtLeast(bits: real)
    | CryptosAtLeast(cryptos: int)
    | RootLevelAtLeast(level: int)
    | OwnsAtLeast(upgrade: string, count: nat)
    | GpsAtLeast(gps: real)
    | FirewallsClearedAtLeast(cleared: int)
    | SkillMaster
    | AnyUpgradeOwned

  datatype Achievement = Achievement(id: string, condition: Condition, reward: nat, unlocked: bool)

  datatype StoryEvent = StoryEvent(id: string, condition: Condition, triggered: bool)

  datatype SkillDef = SkillDef(id: string, cost: nat, maxLevel: nat)

  /** The first position of `x` in `xs`. */
  function Find<T(==)>(xs: seq<T>, x: T): (r: Option<nat>)
    ensures r.Some? ==> r.value < |xs| && xs[r.value] == x && x !in xs[..r.value]
    ensures r.None? ==> x !in xs
  {
    if |xs| == 0 then None
    else if xs[0] == x then Some(0)
    else
      match Find(xs[1..], x)
      case None => None
      case Some(i) => assert xs[1..][..i] == xs[1..i + 1]; Some(i + 1)
  }

  predicate Distinct<T(==)>(xs: seq<T>)
  {
    forall i, j | 0 <= i < j < |xs| :: xs[i] != xs[j]
  }

  function UpgradeIds(ups: seq<Upgrade>): (ids: seq<string>)
    ensures |ids| == |ups| && forall i | 0 <= i < |ups| :: ids[i] == ups[i].id
  {
    seq(|ups|, i requires 0 <= i < |ups| => ups[i].id)
  }

  function ItemIds(items: seq<MarketItem>): (ids: seq<string>)
    ensures |ids| == |items| && forall i | 0 <= i < |items| :: ids[i] == items[i].id
  {
    seq(|items|, i requires 0 <= i < |items| => items[i].id)
  }

  function SkillIds(tree: seq<SkillDef>): (ids: seq<string>)
    ensures |ids| == |tree| && forall i | 0 <= i < |tree| :: ids[i] == tree[i].id
  {
    seq(|tree|, i requires 0 <= i < |tree| => tree[i].id)
  }

  /** `SKILL_TREE[id]`, absent for an unknown id. */
  function FindSkill(tree: seq<SkillDef>, id: string): (r: Option<SkillDef>)
    ensures r.Some? <==> id in SkillIds(tree)
    ensures r.Some? ==> r.value in tree && r.value.id == id
  {
    match Find(SkillIds(tree), id)
    case None => None
    case Some(i) => Some(tree[i])
  }

  /** `BLACK_MARKET_ITEMS[id]`, absent for an unknown id. */
  function FindItem(items: seq<MarketItem>, id: string): (r: Option<MarketItem>)
    ensures r.Some? <==> id in ItemIds(items)
    ensures r.Some? ==> r.value in items && r.value.id == id
  {
    match Find(ItemIds(items), id)
    case None => None
    case Some(i) => Some(items[i])
  }

  /** A catalog of generators as every `initState` copies it: distinct keys, none owned. */
  ghost predicate FreshCatalog(ups: seq<Upgrade>)
  {
    Distinct(UpgradeIds(ups)) && |ups| > 0 &&
    forall i | 0 <= i < |ups| :: ups[i].count == 0 && ups[i].cost > 0 && ups[i].gps >= 0.0
  }

  function Upgrades(rev: Revision): (ups: seq<Upgrade>)
    ensures FreshCatalog(ups)
    ensures rev == Backup ==> forall i | 0 <= i < |ups| :: ups[i].click == 0
  {
    match rev
    case Modular => ModularUpgrades()
    case Bundle => BundleUpgrades()
    case Backup => BackupUpgrades()
  }

  function ModularUpgrades(): (ups: seq<Upgrade>)
    ensures FreshCatalog(ups) && |ups| == 13
  {
    [ Upgrade("clicker", 30, 0.0, 1, 0),
      Upgrade("autoClicker", 15, 0.1, 0, 0),
      Upgrade("bot", 100, 1.0, 0, 0),
      Upgrade("server", 1100, 8.0, 0, 0),
      Upgrade("farm", 12000, 47.0, 0, 0),
      Upgrade("ai", 130000, 260.0, 0, 0),
      Upgrade("neural", 500000, 800.0, 0, 0),
      Upgrade("quantum", 1400000, 1400.0, 0, 0),
      Upgrade("blockchain", 5000000, 4000.0, 0, 0),
      Upgrade("overlord", 14000000, 10000.0, 0, 0),
      Upgrade("matrix", 150000000, 120000.0, 0, 0),
      Upgrade("shifter", 600000000, 500000.0, 0, 0),
      Upgrade("bender", 2000000000, 1500000.0, 0, 0)]
  }

  function BundleUpgrades(): (ups: seq<Upgrade>)
    ensures FreshCatalog(ups) && |ups| == 8
  {
    [ Upgrade("clicker", 30, 0.0, 1, 0),
      Upgrade("autoClicker", 15, 0.1, 0, 0),
      Upgrade("bot", 100, 1.0, 0, 0),
      Upgrade("server", 1100, 8.0, 0, 0),
      Upgrade("farm", 12000, 47.0, 0, 0),
      Upgrade("ai", 130000, 260.0, 0, 0),
      Upgrade("quantum", 1400000, 1400.0, 0, 0),
      Upgrade("overlord", 1400000, 10000.0, 0, 0)]
  }

  function BackupUpgrades(): (ups: seq<Upgrade>)
    ensures FreshCatalog(ups) && |ups| == 6
    ensures forall i | 0 <= i < |ups| :: ups[i].click == 0
  {
    [ Upgrade("script", 15, 0.5, 0, 0),
      Upgrade("bot", 100, 5.0, 0, 0),
      Upgrade("server", 1100, 40.0, 0, 0),
      Upgrade("ai", 12000, 250.0, 0, 0),
      Upgrade("quantum", 130000, 1500.0, 0, 0),
      Upgrade("overlord", 1400000, 10000.0, 0, 0)]
  }

  /** Only the click upgrade raises click power, by one per unit, and it is the only generator producing nothing. */
  lemma OnlyClickerIsIdle(rev: Revision, i: nat)
    requires i < |Upgrades(rev)|
    ensures var u := Upgrades(rev)[i];
      (u.gps == 0.0 <==> u.id == "clicker") && (u.click > 0 <==> u.id == "clicker") &&
      (u.id == "clicker" ==> u.click == 1)
  {
    match rev
    case Modular => assert Upgrades(rev) == ModularUpgrades();
    case Bundle => assert Upgrades(rev) == BundleUpgrades();
    case Backup => assert Upgrades(rev) == BackupUpgrades();
  }

  /** The backup build's generators get strictly dearer and strictly more productive down the list. */
  lemma {:induction false} BackupCatalogIncreasing(i: nat, j: nat)
    requires i < j < |Upgrades(Backup)|
    ensures Upgrades(Backup)[i].cost < Upgrades(Backup)[j].cost
    ensures Upgrades(Backup)[i].gps < Upgrades(Backup)[j].gps
    decreases j - i
  {
    assert Upgrades(Backup) == BackupUpgrades();
    BackupStep(i);
    if i + 1 < j {
      BackupCatalogIncreasing(i + 1, j);
    }
  }

  lemma BackupStep(k: nat)
    requires k < 5
    ensures BackupUpgrades()[k].cost < BackupUpgrades()[k + 1].cost
    ensures BackupUpgrades()[k].gps < BackupUpgrades()[k + 1].gps
  {}

  /**
   * What each kind of item needs: a timed item lasts and boosts exactly one
   * of GPS or click power, an instant item grants some hours of output.
   */
  predicate WellFormedItem(m: MarketItem)
  {
    m.cost > 0 && m.multiplier >= 0.0 && m.clickMultiplier >= 0.0 && m.offlineMultiplier >= 0.0 &&
    match m.kind
    case Consumable => m.duration > 0 && ((m.multiplier > 0.0) != (m.clickMultiplier > 0.0))
    case Instant => m.hours > 0
    case Permanent => true
  }

  function Market(rev: Revision): (items: seq<MarketItem>)
    ensures Distinct(ItemIds(items))
    ensures forall i | 0 <= i < |items| :: WellFormedItem(items[i])
    // the older builds sell no click boost
    ensures rev != Modular ==> forall i | 0 <= i < |items| :: items[i].clickMultiplier == 0.0
  {
    match rev
    case Modular => [
      MarketItem("boost", 5, Consumable, 30000, 2.0, 0.0, 0, 0.0),
      MarketItem("overdrive", 10, Consumable, 15000, 5.0, 0.0, 0, 0.0),
      MarketItem("clickMultiplier", 30, Consumable, 20000, 0.0, 6.0, 0, 0.0),
      MarketItem("warp", 20, Instant, 0, 0.0, 0.0, 1, 0.0),
      MarketItem("cache", 60, Instant, 0, 0.0, 0.0, 4, 0.0),
      MarketItem("core", 50, Permanent, 0, 0.1, 0.0, 0, 0.0),
      MarketItem("rootkit", 100, Permanent, 0, 0.25, 0.0, 0, 0.0),
      MarketItem("autoGlitch", 150, Permanent, 0, 0.0, 0.0, 0, 0.0),
      MarketItem("offlineBoost", 200, Permanent, 0, 0.0, 0.0, 0, 0.5)]
    case _ => [
      MarketItem("boost", 5, Consumable, 30000, 2.0, 0.0, 0, 0.0),
      MarketItem("core", 50, Permanent, 0, 0.1, 0.0, 0, 0.0),
      MarketItem("warp", 20, Instant, 0, 0.0, 0.0, 1, 0.0)]
  }

  /** Bounds of the crypto reward of a glitch click, before the crypto_magnet bonus. */
  const GlitchMinReward: nat := 1
  const GlitchMaxReward: nat := 5

  function AchievementIds(achs: seq<Achievement>): (ids: seq<string>)
    ensures |ids| == |achs| && forall i | 0 <= i < |achs| :: ids[i] == achs[i].id
  {
    seq(|achs|, i requires 0 <= i < |achs| => achs[i].id)
  }

  function StoryIds(events: seq<StoryEvent>): (ids: seq<string>)
    ensures |ids| == |events| && forall i | 0 <= i < |events| :: ids[i] == events[i].id
  {
    seq(|events|, i requires 0 <= i < |events| => events[i].id)
  }

  function Achievements(rev: Revision): (achs: seq<Achievement>)
    ensures Distinct(AchievementIds(achs))
    ensures forall i | 0 <= i < |achs| :: !achs[i].unlocked
    // the backup build carries no rewards
    ensures rev == Backup ==> forall i | 0 <= i < |achs| :: achs[i].reward == 0
  {
    match rev
    case Modular => ModularAchievements()
    case Bundle => BundleAchievements()
    case Backup => BackupAchievements()
  }

  function ModularAchievements(): (achs: seq<Achievement>)
    ensures |achs| == 17 && Distinct(AchievementIds(achs))
    ensures forall i | 0 <= i < |achs| :: !achs[i].unlocked
  {
    var achs := [
      Achievement("first_click", ClicksAtLeast(1), 0, false),
      Achievement("click_apprentice", ClicksAtLeast(100), 0, false),
      Achievement("click_master", ClicksAtLeast(1000), 0, false),
      Achievement("novice_miner", LifetimeAtLeast(1000.0), 0, false),
      Achievement("expert_miner", LifetimeAtLeast(100000.0), 0, false),
      Achievement("millionaire", LifetimeAtLeast(1000000.0), 10, false),
      Achievement("billionaire", LifetimeAtLeast(1000000000.0), 20, false),
      Achievement("crypto_miner", CryptosAtLeast(10), 5, false),
      Achievement("hacker_elite", RootLevelAtLeast(5), 15, false),
      Achievement("the_architect", OwnsAtLeast("matrix", 1), 25, false),
      Achievement("god_mode", OwnsAtLeast("bender", 1), 50, false),
      Achievement("singularity", GpsAtLeast(1000000000.0), 100, false),
      Achievement("crypto_collector", CryptosAtLeast(100), 50, false),
      Achievement("firewall_breaker", FirewallsClearedAtLeast(50), 25, false),
      Achievement("skill_master", SkillMaster, 40, false),
      Achievement("ascension", RootLevelAtLeast(10), 100, false),
      Achievement("click_legend", ClicksAtLeast(10000), 30, false)];
    ModularIdsDistinct();
    assert AchievementIds(achs) == ModularIds();
    achs
  }

  /** The module build's achievement ids, in catalog order. */
  function ModularIds(): seq<string>
  {
    ["first_click", "click_apprentice", "click_master", "novice_miner", "expert_miner",
     "millionaire", "billionaire", "crypto_miner", "hacker_elite", "the_architect", "god_mode",
     "singularity", "crypto_collector", "firewall_breaker", "skill_master", "ascension", "click_legend"]
  }

  lemma ModularIdsDistinct()
    ensures Distinct(ModularIds())
  {}

  function BundleAchievements(): (achs: seq<Achievement>)
    ensures |achs| == 8 && Distinct(AchievementIds(achs))
    ensures forall i | 0 <= i < |achs| :: !achs[i].unlocked
  {
    [ Achievement("hello_world", LifetimeAtLeast(10.0), 1, false),
      Achievement("script_kiddie", OwnsAtLeast("autoClicker", 1), 2, false),
      Achievement("serious_business", LifetimeAtLeast(1000.0), 3, false),
      Achievement("botnet_master", OwnsAtLeast("bot", 10), 5, false),
      Achievement("millionaire", LifetimeAtLeast(1000000.0), 10, false),
      Achievement("billionaire", LifetimeAtLeast(1000000000.0), 20, false),
      Achievement("crypto_miner", CryptosAtLeast(10), 5, false),
      Achievement("hacker_elite", RootLevelAtLeast(5), 15, false)]
  }

  function BackupAchievements(): (achs: seq<Achievement>)
    ensures |achs| == 8 && Distinct(AchievementIds(achs))
    ensures forall i | 0 <= i < |achs| :: !achs[i].unlocked && achs[i].reward == 0
  {
    [ Achievement("hello_world", LifetimeAtLeast(10.0), 0, false),
      Achievement("script_kiddie", OwnsAtLeast("script", 1), 0, false),
      Achievement("serious_business", LifetimeAtLeast(1000.0), 0, false),
      Achievement("botnet_master", OwnsAtLeast("bot", 10), 0, false),
      Achievement("millionaire", LifetimeAtLeast(1000000.0), 0, false),
      Achievement("billionaire", LifetimeAtLeast(1000000000.0), 0, false),
      Achievement("crypto_miner", CryptosAtLeast(10), 0, false),
      Achievement("hacker_elite", RootLevelAtLeast(5), 0, false)]
  }

  /** Story events exist only in the module build. */
  function Story(rev: Revision): (events: seq<StoryEvent>)
    ensures Distinct(StoryIds(events))
    ensures forall i | 0 <= i < |events| :: !events[i].triggered
    ensures rev != Modular ==> events == []
  {
    if rev != Modular then []
    else [
      StoryEvent("first_click", LifetimeAtLeast(1.0), false),
      StoryEvent("first_upgrade", AnyUpgradeOwned, false),
      StoryEvent("1k_bits", LifetimeAtLeast(1000.0), false),
      StoryEvent("1m_bits", LifetimeAtLeast(1000000.0), false),
      StoryEvent("ai_overlord", OwnsAtLeast("overlord", 1), false),
      StoryEvent("matrix", OwnsAtLeast("matrix", 1), false),
      StoryEvent("bender", OwnsAtLeast("bender", 1), false)]
  }

  /** prestige_master costs 6 points a level and stops at level 3. */
  lemma PrestigeMasterDef()
    ensures FindSkill(SkillTree(Modular), "prestige_master") == Some(SkillDef("prestige_master", 6, 3))
    ensures FindSkill(SkillTree(Modular), "crypto_magnet") == Some(SkillDef("crypto_magnet", 3, 3))
  {
    var tree := SkillTree(Modular);
    assert SkillIds(tree)[6] == "prestige_master" && SkillIds(tree)[4] == "crypto_magnet";
  }

  /** The skill tree exists only in the module build. */
  function SkillTree(rev: Revision): (tree: seq<SkillDef>)
    ensures Distinct(SkillIds(tree))
    ensures forall i | 0 <= i < |tree| :: tree[i].cost > 0 && tree[i].maxLevel > 0
    ensures rev != Modular ==> tree == []
  {
    if rev != Modular then []
    else [
      SkillDef("click_efficiency", 1, 5),
      SkillDef("gps_overclock", 2, 5),
      SkillDef("firewall_bypass", 3, 3),
      SkillDef("lucky_hacker", 5, 3),
      SkillDef("crypto_magnet", 3, 3),
      SkillDef("offline_optimizer", 4, 5),
      SkillDef("prestige_master", 6, 3)]
  }
}
