// Spending: generators for bits, black-market items for cryptos and
// skills for skill points (buyUpgrade, buyBlackMarketItem and buySkill in
// js/game.js, script.js and backup/js/game.js).
module Shop {
  import opened Wrappers
  import opened Constants
  import opened GameState
  import Numeric
  import Ledger
  import Rates

  // ---------------------------------------------------------------
  // buyUpgrade

  /** A generator after one purchase: one more unit owned, the price grown by 15%. */
  function OneMore(u: Upgrade): (r: Upgrade)
    ensures r == u.(count := r.count, cost := r.cost)
    ensures r.count == u.count + 1 && r.cost == Numeric.Grow(u.cost)
  {
    u.(count := u.count + 1, cost := Numeric.Grow(u.cost))
  }

  /** The counters of `buyUpgrade`: the price is paid, one more unit is owned and the price grows by 15%. */
  function Paid(rev: Revision, s: State, i: nat): (r: State)
    requires i < |s.upgrades|
    ensures r.bits == s.bits - s.upgrades[i].cost as real
    ensures Valid(rev, s) && s.bits >= s.upgrades[i].cost as real ==> Valid(rev, r)
  {
    var u := s.upgrades[i];
    assert Valid(rev, s) ==> UpgradesAligned(rev, s.upgrades[i := OneMore(u)]) by {
      if Valid(rev, s) { BoughtAligned(rev, s.upgrades, i); }
    }
    s.(bits := s.bits - u.cost as real,
       upgrades := s.upgrades[i := OneMore(u)])
  }

  /** What a purchase does once it is paid for: the counters, then the derived rates (the backup build has no click power to recompute). */
  function AfterUpgrade(rev: Revision, s: State, i: nat, now: int): (r: State)
    requires i < |s.upgrades|
    ensures var u := s.upgrades[i];
      r.bits == s.bits - u.cost as real &&
      r.upgrades == s.upgrades[i := OneMore(u)]
    ensures r == s.(bits := r.bits, upgrades := r.upgrades, gps := r.gps, clickPower := r.clickPower,
                    activeBoosts := r.activeBoosts, activeClickBoosts := r.activeClickBoosts)
    ensures Valid(rev, s) && s.bits >= s.upgrades[i].cost as real ==> Valid(rev, r)
    // the rates shown afterwards are the rates of the new holdings
    ensures r.gps == Rates.ComputeGps(rev, r, now)
    ensures rev != Backup ==> r.clickPower == Rates.ComputeClickPower(rev, r, now)
  {
    Rates.RecalcBothStable(rev, Paid(rev, s, i), now);
    Rates.RecalcClickPower(rev, Rates.RecalcGps(rev, Paid(rev, s, i), now), now)
  }

  /**
   * `buyUpgrade(key)`. An unknown key throws before anything changes and
   * a price above the balance changes nothing either.
   */
  function BuyUpgrade(rev: Revision, s: State, key: string, now: int): (r: State)
    ensures key !in UpgradeIds(s.upgrades) ==> r == s
    ensures var f := Find(UpgradeIds(s.upgrades), key);
      f.Some? ==>
        var u := s.upgrades[f.value];
        if s.bits >= u.cost as real then
          r.bits == s.bits - u.cost as real &&
          r.upgrades == s.upgrades[f.value := OneMore(u)]
        else r == s
    // nothing but the balance, the generators and the derived rates moves
    ensures r == s.(bits := r.bits, upgrades := r.upgrades, gps := r.gps, clickPower := r.clickPower,
                    activeBoosts := r.activeBoosts, activeClickBoosts := r.activeClickBoosts)
    ensures Valid(rev, s) ==> Valid(rev, r)
    ensures UpgradeAffordable(s, key) ==>
      r.gps == Rates.ComputeGps(rev, r, now) && (rev != Backup ==> r.clickPower == Rates.ComputeClickPower(rev, r, now))
  {
    match Find(UpgradeIds(s.upgrades), key)
    case None => s
    case Some(i) =>
      if s.bits >= s.upgrades[i].cost as real then AfterUpgrade(rev, s, i, now) else s
  }

  /** `buyUpgrade(key)` goes through: the key names a generator whose price is within the balance. */
  predicate UpgradeAffordable(s: State, key: string)
  {
    var f := Find(UpgradeIds(s.upgrades), key);
    f.Some? && s.bits >= s.upgrades[f.value].cost as real
  }

  /** One more unit at the grown price keeps the generators reachable from the catalog. */
  lemma BoughtAligned(rev: Revision, ups: seq<Upgrade>, i: nat)
    requires UpgradesAligned(rev, ups) && i < |ups|
    ensures UpgradesAligned(rev, ups[i := OneMore(ups[i])])
  {
    Numeric.GrowKeepsBounds(Upgrades(rev)[i].cost, ups[i].count, ups[i].cost);
  }

  /** Buying one generator k times from the catalog price walks the cost ladder. */
  lemma {:induction false} PriceLadder(base: nat, k: nat)
    ensures Numeric.Ladder(base, k + 1) == Numeric.Grow(Numeric.Ladder(base, k))
    ensures Numeric.Scaled(base, k) <= Numeric.Ladder(base, k)
  {
    Numeric.LadderBounds(base, k);
  }

  /**
   * script.js from a fresh catalog with 100 bits: the autoClicker costs 15,
   * leaves 85 bits, one unit owned and a price of 18.
   */
  lemma FirstAutoClicker(s: State, now: int)
    requires s.upgrades == Upgrades(Bundle) && s.bits == 100.0
    ensures var r := BuyUpgrade(Bundle, s, "autoClicker", now);
      r.bits == 85.0 && r.upgrades[1].id == "autoClicker" &&
      r.upgrades[1].count == 1 && r.upgrades[1].cost == 18
  {
    assert UpgradeIds(s.upgrades)[0] == "clicker" && UpgradeIds(s.upgrades)[1] == "autoClicker";
  }

  /**
   * An autoClicker bought twice costs 21, but a reload recomputes its
   * price from the count as 20: the two prices part after two purchases.
   */
  lemma AutoClickerReloadPrice()
    ensures Numeric.Grow(15) == 18 && Numeric.Ladder(15, 2) == 21
    ensures Numeric.Scaled(15, 2) == 20
  {
    assert Numeric.Ladder(15, 1) == 18;
    assert Numeric.Pow(115, 2) == 13225 && Numeric.Pow(100, 2) == 10000;
  }

  // ---------------------------------------------------------------
  // buyBlackMarketItem

  /** The effect of a paid item, before GPS is recomputed. */
  function ApplyItem(rev: Revision, s: State, item: MarketItem, now: int): (r: State)
    // no item touches the generators or the level
    ensures r.upgrades == s.upgrades && r.rootAccessLevel == s.rootAccessLevel
    // only an instant item moves the balance: by its hours of the current rate
    ensures item.kind != Instant ==> r.bits == s.bits && r.cryptos == s.cryptos
    ensures item.kind == Instant ==> r.bits == s.bits + HoursOf(s.gps, item.hours) && r.cryptos >= s.cryptos
  {
    match item.kind
    case Consumable => Consume(rev, s, item, now)
    case Permanent => Install(rev, s, item)
    case Instant => Windfall(rev, s, item.hours)
  }

  /** A well-formed item of the build's own market keeps a valid state valid. */
  lemma ApplyItemValid(rev: Revision, s: State, item: MarketItem, now: int)
    requires Valid(rev, s) && WellFormedItem(item) && (rev != Modular ==> item.clickMultiplier == 0.0)
    ensures Valid(rev, ApplyItem(rev, s, item, now))
  {
    if item.kind == Instant {
      WindfallNonNegative(s.gps, item.hours);
      Ledger.AddBitsKeepsValid(rev, s, HoursOf(s.gps, item.hours));
    }
  }

  /** The price of an item, paid in cryptos. */
  function Spend(rev: Revision, s: State, cost: int): (r: State)
    ensures r == s.(cryptos := s.cryptos - cost)
    ensures Valid(rev, s) && s.cryptos >= cost ==> Valid(rev, r)
  {
    s.(cryptos := s.cryptos - cost)
  }

  /** A timed item: a click boost in the module build when it has a click multiplier, otherwise a GPS boost. */
  function Consume(rev: Revision, s: State, item: MarketItem, now: int): (r: State)
    ensures (Valid(rev, s) && item.multiplier >= 0.0 && item.clickMultiplier >= 0.0 &&
             (item.multiplier > 0.0) != (item.clickMultiplier > 0.0) &&
             (rev != Modular ==> item.clickMultiplier == 0.0)) ==> Valid(rev, r)
    ensures r.cryptos == s.cryptos
    ensures rev == Modular && item.clickMultiplier != 0.0 ==>
      r.activeClickBoosts == s.activeClickBoosts + [Boost(item.clickMultiplier, now + item.duration)]
    ensures !(rev == Modular && item.clickMultiplier != 0.0) ==>
      r.activeBoosts == s.activeBoosts + [Boost(item.multiplier, now + item.duration)]
  {
    if rev == Modular && item.clickMultiplier != 0.0 then
      s.(activeClickBoosts := s.activeClickBoosts + [Boost(item.clickMultiplier, now + item.duration)])
    else
      s.(activeBoosts := s.activeBoosts + [Boost(item.multiplier, now + item.duration)])
  }

  /** A permanent item: auto-glitch and the offline booster in the module build, otherwise a raise of the permanent multiplier. */
  function Install(rev: Revision, s: State, item: MarketItem): (r: State)
    ensures Valid(rev, s) && item.multiplier >= 0.0 && item.offlineMultiplier >= 0.0 ==> Valid(rev, r)
    ensures r.cryptos == s.cryptos
    ensures rev == Modular && item.id == "autoGlitch" ==> r == s.(autoGlitchEnabled := true)
    ensures rev == Modular && item.id == "offlineBoost" ==>
      r == s.(offlineMultiplier := s.offlineMultiplier + item.offlineMultiplier)
    // the older builds know no special item: every permanent item raises the multiplier
    ensures !(rev == Modular && item.id in ["autoGlitch", "offlineBoost"]) ==>
      r == s.(permanentMultiplier := s.permanentMultiplier + item.multiplier)
    ensures item.multiplier >= 0.0 && item.offlineMultiplier >= 0.0 ==>
      r.permanentMultiplier >= s.permanentMultiplier && r.offlineMultiplier >= s.offlineMultiplier
  {
    if rev == Modular && item.id == "autoGlitch" then s.(autoGlitchEnabled := true)
    else if rev == Modular && item.id == "offlineBoost" then
      s.(offlineMultiplier := s.offlineMultiplier + item.offlineMultiplier)
    else s.(permanentMultiplier := s.permanentMultiplier + item.multiplier)
  }

  /**
   * `buyBlackMarketItem(key)`: pay in cryptos, apply the item, recompute GPS.
   * An unknown key or a price above the balance changes nothing.
   */
  function BuyMarketItem(rev: Revision, s: State, key: string, now: int): (r: State)
    ensures FindItem(Market(rev), key).None? ==> r == s
    ensures var o := FindItem(Market(rev), key);
      o.Some? && s.cryptos < o.value.cost ==> r == s
    // a purchase pays the price (an instant item's credit may unlock more cryptos)
    // and leaves the rate of the new state shown
    ensures var o := FindItem(Market(rev), key);
      o.Some? && s.cryptos >= o.value.cost ==>
        r.upgrades == s.upgrades && r.gps == Rates.ComputeGps(rev, r, now) &&
        (o.value.kind != Instant ==> r.cryptos == s.cryptos - o.value.cost) &&
        (o.value.kind == Instant ==> r.cryptos >= s.cryptos - o.value.cost)
  {
    match FindItem(Market(rev), key)
    case None => s
    case Some(item) =>
      if s.cryptos >= item.cost then
        var applied := ApplyItem(rev, Spend(rev, s, item.cost), item, now);
        Rates.RecalcGpsStable(rev, applied, now);
        Rates.RecalcGps(rev, applied, now)
      else s
  }

  /** Buying from the market keeps a valid state valid. */
  lemma BuyMarketItemValid(rev: Revision, s: State, key: string, now: int)
    requires Valid(rev, s)
    ensures Valid(rev, BuyMarketItem(rev, s, key, now))
  {
    var r := BuyMarketItem(rev, s, key, now);
    match FindItem(Market(rev), key)
    case None =>
      assert r == s;
    case Some(item) =>
      if s.cryptos >= item.cost {
        PurchaseValid(rev, s, item, now);
        assert r == Rates.RecalcGps(rev, ApplyItem(rev, Spend(rev, s, item.cost), item, now), now);
      } else {
        assert r == s;
      }
  }

  /** Paying for a catalog item and applying it keeps a valid state valid. */
  lemma PurchaseValid(rev: Revision, s: State, item: MarketItem, now: int)
    requires Valid(rev, s) && item in Market(rev) && s.cryptos >= item.cost
    ensures Valid(rev, Rates.RecalcGps(rev, ApplyItem(rev, Spend(rev, s, item.cost), item, now), now))
  {
    MarketItemFacts(rev, item);
    ApplyItemValid(rev, Spend(rev, s, item.cost), item, now);
  }

  /** `buyBlackMarketItem(key)` goes through: the key names an item whose price is within the cryptos. */
  predicate ItemAffordable(rev: Revision, s: State, key: string)
  {
    var o := FindItem(Market(rev), key);
    o.Some? && s.cryptos >= o.value.cost
  }

  /** A bought timed item adds one boost lasting its duration. */
  lemma BoughtBoostRuns(rev: Revision, s: State, key: string, now: int)
    requires FindItem(Market(rev), key).Some?
    requires var item := FindItem(Market(rev), key).value; s.cryptos >= item.cost && item.kind == Consumable
    ensures var item := FindItem(Market(rev), key).value; var r := BuyMarketItem(rev, s, key, now);
      r.cryptos == s.cryptos - item.cost &&
      (rev == Modular && item.clickMultiplier != 0.0 ==> Boost(item.clickMultiplier, now + item.duration) in r.activeClickBoosts) &&
      (!(rev == Modular && item.clickMultiplier != 0.0) ==> Boost(item.multiplier, now + item.duration) in r.activeBoosts)
  {
    var item := FindItem(Market(rev), key).value;
    MarketItemFacts(rev, item);
    BoostBought(rev, s, item, now);
    assert BuyMarketItem(rev, s, key, now) == Rates.RecalcGps(rev, ApplyItem(rev, Spend(rev, s, item.cost), item, now), now);
  }

  /** A paid timed item, whatever its figures, leaves its boost among the live ones. */
  lemma BoostBought(rev: Revision, s: State, item: MarketItem, now: int)
    requires item.kind == Consumable && item.duration > 0
    ensures var r := Rates.RecalcGps(rev, ApplyItem(rev, Spend(rev, s, item.cost), item, now), now);
      r.cryptos == s.cryptos - item.cost &&
      (rev == Modular && item.clickMultiplier != 0.0 ==> Boost(item.clickMultiplier, now + item.duration) in r.activeClickBoosts) &&
      (!(rev == Modular && item.clickMultiplier != 0.0) ==> Boost(item.multiplier, now + item.duration) in r.activeBoosts)
  {
    var applied := Consume(rev, Spend(rev, s, item.cost), item, now);
    if !(rev == Modular && item.clickMultiplier != 0.0) {
      var b := Boost(item.multiplier, now + item.duration);
      assert b in applied.activeBoosts && b.endTime > now;
    }
  }

  /**
   * A bought permanent item costs its price and only ever raises a
   * multiplier: the auto-glitch bot switches auto-collection on, the
   * offline booster adds to the offline multiplier, any other permanent
   * item adds to the permanent multiplier.
   */
  lemma BoughtPermanentRaises(rev: Revision, s: State, key: string, now: int)
    requires FindItem(Market(rev), key).Some?
    requires var item := FindItem(Market(rev), key).value; s.cryptos >= item.cost && item.kind == Permanent
    ensures var item := FindItem(Market(rev), key).value; var r := BuyMarketItem(rev, s, key, now);
      r.cryptos == s.cryptos - item.cost &&
      r.permanentMultiplier >= s.permanentMultiplier && r.offlineMultiplier >= s.offlineMultiplier
    ensures var item := FindItem(Market(rev), key).value; var r := BuyMarketItem(rev, s, key, now);
      (rev == Modular && key == "autoGlitch" ==>
        r.autoGlitchEnabled && r.permanentMultiplier == s.permanentMultiplier && r.offlineMultiplier == s.offlineMultiplier) &&
      (rev == Modular && key == "offlineBoost" ==>
        r.offlineMultiplier == s.offlineMultiplier + item.offlineMultiplier && r.permanentMultiplier == s.permanentMultiplier) &&
      (!(rev == Modular && key in ["autoGlitch", "offlineBoost"]) ==>
        r.permanentMultiplier == s.permanentMultiplier + item.multiplier && r.offlineMultiplier == s.offlineMultiplier)
  {
    MarketItemFacts(rev, FindItem(Market(rev), key).value);
  }

  lemma MarketItemFacts(rev: Revision, item: MarketItem)
    requires item in Market(rev)
    ensures WellFormedItem(item) && (rev != Modular ==> item.clickMultiplier == 0.0)
  {
    var items := Market(rev);
    var i :| 0 <= i < |items| && items[i] == item;
  }

  /** An instant item: that many hours of the current rate, credited at once. */
  function Windfall(rev: Revision, s: State, hours: int): (r: State)
    ensures r.bits == s.bits + HoursOf(s.gps, hours) && r.lifetimeBits == s.lifetimeBits + HoursOf(s.gps, hours)
    ensures r.gps == s.gps && r.upgrades == s.upgrades && r.cryptos >= s.cryptos
    ensures s.gps >= 0.0 && hours > 0 ==> r.bits >= s.bits
  {
    WindfallNonNegative(s.gps, hours);
    Ledger.AddBits(rev, s, HoursOf(s.gps, hours))
  }

  /** `gps * 3600 * hours`. */
  function HoursOf(gps: real, hours: int): real
  {
    gps * 3600.0 * (hours as real)
  }

  /** An instant item pays that many hours of the current rate: never a negative amount. */
  lemma WindfallNonNegative(gps: real, hours: int)
    ensures gps >= 0.0 && hours > 0 ==> HoursOf(gps, hours) >= 0.0
  {
    if gps >= 0.0 && hours > 0 {
      NonNegativeProduct(gps, 3600.0);
      NonNegativeProduct(gps * 3600.0, hours as real);
    }
  }

  lemma NonNegativeProduct(a: real, b: real)
    requires a >= 0.0 && b >= 0.0
    ensures a * b >= 0.0
  {}

  // ---------------------------------------------------------------
  // buySkill

  /**
   * The bookkeeping half of `buySkill` against a skill tree: None when the
   * skill is unknown, maxed or unaffordable, otherwise the state with the
   * points paid and the level raised.
   */
  function RaiseSkill(tree: seq<SkillDef>, s: State, id: string): (r: Option<State>)
    ensures r.Some? <==>
      FindSkill(tree, id).Some? &&
      SkillLookup(s.skills, id).GetOr(0) < FindSkill(tree, id).value.maxLevel &&
      s.skillPoints >= FindSkill(tree, id).value.cost
    ensures r.Some? ==>
      r.value.skillPoints == s.skillPoints - FindSkill(tree, id).value.cost &&
      r.value.skills == SkillPut(s.skills, id, SkillLookup(s.skills, id).GetOr(0) + 1) &&
      r.value == s.(skillPoints := r.value.skillPoints, skills := r.value.skills)
  {
    match FindSkill(tree, id)
    case None => None
    case Some(d) =>
      var cur := SkillLookup(s.skills, id).GetOr(0);
      if cur >= d.maxLevel || s.skillPoints < d.cost then None
      else Some(s.(skillPoints := s.skillPoints - d.cost, skills := SkillPut(s.skills, id, cur + 1)))
  }

  /** An affordable raise of a known, unmaxed skill pays its cost and adds one level. */
  lemma RaiseSkillAt(tree: seq<SkillDef>, s: State, id: string, cost: int, current: int)
    requires FindSkill(tree, id).Some? && FindSkill(tree, id).value.cost == cost
    requires current == SkillLookup(s.skills, id).GetOr(0)
    requires current < FindSkill(tree, id).value.maxLevel && s.skillPoints >= cost
    ensures RaiseSkill(tree, s, id) == Some(s.(skillPoints := s.skillPoints - cost, skills := SkillPut(s.skills, id, current + 1)))
  {}

  /**
   * `buySkill(id)`: nothing happens unless the bookkeeping goes through;
   * then GPS and click power are recomputed.
   */
  function BuySkill(rev: Revision, s: State, id: string, now: int): (r: State)
    ensures RaiseSkill(SkillTree(rev), s, id).None? ==> r == s
    ensures RaiseSkill(SkillTree(rev), s, id).Some? ==>
      var raised := RaiseSkill(SkillTree(rev), s, id).value;
      r == raised.(gps := r.gps, clickPower := r.clickPower,
                   activeBoosts := r.activeBoosts, activeClickBoosts := r.activeClickBoosts)
    ensures RaiseSkill(SkillTree(rev), s, id).Some? ==>
      r.gps == Rates.ComputeGps(rev, r, now) && (rev != Backup ==> r.clickPower == Rates.ComputeClickPower(rev, r, now))
  {
    match RaiseSkill(SkillTree(rev), s, id)
    case None => s
    case Some(raised) =>
      Rates.RecalcBothStable(rev, raised, now);
      Rates.RecalcClickPower(rev, Rates.RecalcGps(rev, raised, now), now)
  }

  /** Buying a skill keeps a valid state valid. */
  lemma BuySkillValid(rev: Revision, s: State, id: string, now: int)
    ensures Valid(rev, s) ==> Valid(rev, BuySkill(rev, s, id, now))
  {
    RaiseSkillValid(rev, s, id);
  }

  /** Raising a skill of the build's own tree keeps a valid state valid. */
  lemma RaiseSkillValid(rev: Revision, s: State, id: string)
    ensures var r := RaiseSkill(SkillTree(rev), s, id);
      Valid(rev, s) && r.Some? ==> Valid(rev, r.value)
  {
    if Valid(rev, s) && RaiseSkill(SkillTree(rev), s, id).Some? {
      var d := FindSkill(SkillTree(rev), id).value;
      SkillRaiseKeepsValid(rev, s, RaiseSkill(SkillTree(rev), s, id).value, id, d, SkillLookup(s.skills, id).GetOr(0));
    }
  }

  lemma SkillRaiseKeepsValid(rev: Revision, s: State, t: State, id: string, d: SkillDef, cur: int)
    requires Valid(rev, s) && FindSkill(SkillTree(rev), id) == Some(d)
    requires cur == SkillLookup(s.skills, id).GetOr(0) && cur < d.maxLevel
    requires t.skills == SkillPut(s.skills, id, cur + 1)
    requires t == s.(skillPoints := t.skillPoints, skills := t.skills)
    ensures Valid(rev, t)
  {
    PutAligned(rev, s.skills, id, d, cur);
  }

  /** Raising a skill below its maximum keeps the levels keyed by the tree and within bounds. */
  lemma PutAligned(rev: Revision, skills: seq<SkillLevel>, id: string, d: SkillDef, cur: int)
    requires SkillsAligned(rev, skills) && FindSkill(SkillTree(rev), id) == Some(d)
    requires cur == SkillLookup(skills, id).GetOr(0) && cur < d.maxLevel
    ensures SkillsAligned(rev, SkillPut(skills, id, cur + 1))
  {
    var tree := SkillTree(rev);
    var keys := SkillKeys(skills);
    var i := Find(keys, id).value;
    assert tree[i] == d by {
      var j :| 0 <= j < |tree| && tree[j] == d;
      assert SkillIds(tree)[j] == id;
    }
    var r := SkillPut(skills, id, cur + 1);
    PutExisting(skills, id, cur + 1, i);
    assert SkillKeys(r) == keys;
  }

  /** Points in hand plus points spent on skills. */
  function Budget(s: State, tree: seq<SkillDef>): Option<int>
  {
    match SpentPoints(s.skills, tree)
    case None => None
    case Some(spent) => Some(s.skillPoints + spent)
  }

  lemma {:induction false} SpentRaise(skills: seq<SkillLevel>, tree: seq<SkillDef>, i: nat, d: SkillDef)
    requires i < |skills| && FindSkill(tree, skills[i].id) == Some(d) && SpentPoints(skills, tree).Some?
    ensures SpentPoints(skills[i := skills[i].(level := skills[i].level + 1)], tree) ==
      Some(SpentPoints(skills, tree).value + d.cost)
  {
    if i == 0 {
      SpentRaiseHead(skills, tree, d);
    } else {
      assert skills[1..][i - 1] == skills[i];
      SpentRaise(skills[1..], tree, i - 1, d);
      SpentRaiseTail(skills, tree, i, d);
    }
  }

  /** The step of `SpentRaise` past the first key, given the raise in the rest of the map. */
  lemma SpentRaiseTail(skills: seq<SkillLevel>, tree: seq<SkillDef>, i: nat, d: SkillDef)
    requires 0 < i < |skills| && SpentPoints(skills, tree).Some?
    requires SpentPoints(skills[1..][i - 1 := skills[i].(level := skills[i].level + 1)], tree) ==
      Some(SpentPoints(skills[1..], tree).value + d.cost)
    ensures SpentPoints(skills[i := skills[i].(level := skills[i].level + 1)], tree) ==
      Some(SpentPoints(skills, tree).value + d.cost)
  {
    var raised := skills[i := skills[i].(level := skills[i].level + 1)];
    assert raised[0] == skills[0];
    assert raised[1..] == skills[1..][i - 1 := skills[i].(level := skills[i].level + 1)];
  }

  lemma SpentRaiseHead(skills: seq<SkillLevel>, tree: seq<SkillDef>, d: SkillDef)
    requires 0 < |skills| && FindSkill(tree, skills[0].id) == Some(d) && SpentPoints(skills, tree).Some?
    ensures SpentPoints(skills[0 := skills[0].(level := skills[0].level + 1)], tree) ==
      Some(SpentPoints(skills, tree).value + d.cost)
  {
    var raised := skills[0 := skills[0].(level := skills[0].level + 1)];
    var rest := SpentPoints(skills[1..], tree).value;
    assert raised[1..] == skills[1..];
    OneMoreLevel(skills[0].level, d.cost);
    assert SpentPoints(raised, tree) == Some((skills[0].level + 1) * d.cost + rest);
  }

  lemma OneMoreLevel(level: int, cost: int)
    ensures (level + 1) * cost == level * cost + cost
  {}

  lemma RaiseKeepsBudget(s: State, t: State, tree: seq<SkillDef>, id: string, d: SkillDef, cur: int)
    requires SkillKeys(s.skills) == SkillIds(tree) && FindSkill(tree, id) == Some(d)
    requires cur == SkillLookup(s.skills, id).GetOr(0)
    requires t.skillPoints == s.skillPoints - d.cost && t.skills == SkillPut(s.skills, id, cur + 1)
    ensures Budget(t, tree) == Budget(s, tree)
  {
    var i := Find(SkillKeys(s.skills), id).value;
    SpentDefined(s.skills, tree);
    PutExisting(s.skills, id, cur + 1, i);
    assert s.skills[i] == SkillLevel(id, cur);
    BudgetRaise(s, t, tree, i, d);
  }

  lemma BudgetRaise(s: State, t: State, tree: seq<SkillDef>, i: nat, d: SkillDef)
    requires i < |s.skills| && FindSkill(tree, s.skills[i].id) == Some(d) && SpentPoints(s.skills, tree).Some?
    requires t.skills == s.skills[i := s.skills[i].(level := s.skills[i].level + 1)]
    requires t.skillPoints == s.skillPoints - d.cost
    ensures Budget(t, tree) == Budget(s, tree)
  {
    SpentRaise(s.skills, tree, i, d);
  }

  lemma PutExisting(skills: seq<SkillLevel>, id: string, v: int, i: nat)
    requires Find(SkillKeys(skills), id) == Some(i)
    ensures i < |skills| && skills[i].id == id && SkillLookup(skills, id) == Some(skills[i].level)
    ensures SkillPut(skills, id, v) == skills[i := SkillLevel(id, v)]
  {}

  /** Raising a skill moves points from hand into skills: the budget stays the same. */
  lemma RaiseSkillKeepsBudget(tree: seq<SkillDef>, s: State, id: string)
    requires SkillKeys(s.skills) == SkillIds(tree)
    ensures RaiseSkill(tree, s, id).Some? ==> Budget(RaiseSkill(tree, s, id).value, tree) == Budget(s, tree)
  {
    if RaiseSkill(tree, s, id).Some? {
      var d := FindSkill(tree, id).value;
      var cur := SkillLookup(s.skills, id).GetOr(0);
      RaiseKeepsBudget(s, RaiseSkill(tree, s, id).value, tree, id, d, cur);
    }
  }

  /** A skill purchase leaves points in hand plus points spent unchanged. */
  lemma BuySkillKeepsBudget(rev: Revision, s: State, id: string, now: int)
    requires SkillsAligned(rev, s.skills)
    ensures Budget(BuySkill(rev, s, id, now), SkillTree(rev)) == Budget(s, SkillTree(rev))
  {
    var tree := SkillTree(rev);
    RaiseSkillKeepsBudget(tree, s, id);
    match RaiseSkill(tree, s, id)
    case None =>
    case Some(raised) =>
      var r := Rates.RecalcClickPower(rev, Rates.RecalcGps(rev, raised, now), now);
      BudgetOfFields(r, raised, tree);
  }

  lemma BudgetOfFields(a: State, b: State, tree: seq<SkillDef>)
    requires a.skills == b.skills && a.skillPoints == b.skillPoints
    ensures Budget(a, tree) == Budget(b, tree)
  {
  }
}
