// Derived rates: bits per second and bits per click (calculateGPS and
// calculateClickPower in js/game.js, script.js and backup/js/game.js),
// together with the timed boosts they consume.
module Rates {
  import opened Constants
  import opened GameState

  /** The sum over generators of output per unit times units owned. */
  function BaseGps(ups: seq<Upgrade>): real
  {
    if ups == [] then 0.0 else ups[0].gps * (ups[0].count as real) + BaseGps(ups[1..])
  }

  /** Generators with non-negative output never sum to a negative rate. */
  lemma {:induction false} BaseGpsNonNegative(ups: seq<Upgrade>)
    requires forall i | 0 <= i < |ups| :: ups[i].gps >= 0.0
    ensures BaseGps(ups) >= 0.0
  {
    if ups != [] {
      BaseGpsNonNegative(ups[1..]);
      assert ups[0].gps * (ups[0].count as real) >= 0.0;
    }
  }

  /** The sum over generators of click bonus times units owned. */
  function ClickSum(ups: seq<Upgrade>): (c: nat)
  {
    if ups == [] then 0 else ups[0].click * ups[0].count + ClickSum(ups[1..])
  }

  /** The product of the boost factors. */
  function Product(boosts: seq<Boost>): real
  {
    if boosts == [] then 1.0 else boosts[0].factor * Product(boosts[1..])
  }

  /** Positive factors have a positive product. */
  lemma {:induction false} ProductPositive(boosts: seq<Boost>)
    requires forall b | b in boosts :: b.factor > 0.0
    ensures Product(boosts) > 0.0
  {
    if boosts != [] {
      ProductPositive(boosts[1..]);
      assert boosts[0] in boosts;
      assert boosts[0].factor * Product(boosts[1..]) > 0.0;
    }
  }

  lemma {:induction false} ProductAppend(a: seq<Boost>, b: seq<Boost>)
    ensures Product(a + b) == Product(a) * Product(b)
  {
    if a == [] {
      assert a + b == b;
    } else {
      assert (a + b)[0] == a[0] && (a + b)[1..] == a[1..] + b;
      ProductAppend(a[1..], b);
      calc {
        Product(a + b);
        == a[0].factor * Product(a[1..] + b);
        == a[0].factor * (Product(a[1..]) * Product(b));
        == (a[0].factor * Product(a[1..])) * Product(b);
      }
    }
  }

  /** Pruning is idempotent, and pruning at t1 then at a later t2 is pruning at t2. */
  lemma {:induction false} UnexpiredLater(boosts: seq<Boost>, t1: int, t2: int)
    requires t1 <= t2
    ensures Unexpired(Unexpired(boosts, t1), t2) == Unexpired(boosts, t2)
  {
    if boosts != [] {
      UnexpiredLater(boosts[1..], t1, t2);
      var head := if boosts[0].endTime > t1 then [boosts[0]] else [];
      UnexpiredAppend(head, Unexpired(boosts[1..], t1), t2);
    }
  }

  lemma {:induction false} UnexpiredAppend(a: seq<Boost>, b: seq<Boost>, now: int)
    ensures Unexpired(a + b, now) == Unexpired(a, now) + Unexpired(b, now)
  {
    if a == [] {
      assert a + b == b;
    } else {
      assert (a + b)[0] == a[0] && (a + b)[1..] == a[1..] + b;
      UnexpiredAppend(a[1..], b, now);
    }
  }

  /** The GPS multiplier of the boosts still running at `now`. */
  function BoostFactor(boosts: seq<Boost>, now: int): real
  {
    Product(Unexpired(boosts, now))
  }

  /** A boost bought and already expired changes no rate. */
  lemma ExpiredBoostInert(boosts: seq<Boost>, b: Boost, now: int)
    requires b.endTime <= now
    ensures BoostFactor(boosts + [b], now) == BoostFactor(boosts, now)
  {
    UnexpiredAppend(boosts, [b], now);
    assert Unexpired([b], now) == [];
    assert Unexpired(boosts, now) + [] == Unexpired(boosts, now);
  }

  /** The order boosts were bought in does not change their factor. */
  lemma BoostOrderIrrelevant(a: seq<Boost>, b: seq<Boost>, now: int)
    ensures BoostFactor(a + b, now) == BoostFactor(b + a, now)
  {
    UnexpiredAppend(a, b, now);
    UnexpiredAppend(b, a, now);
    ProductAppend(Unexpired(a, now), Unexpired(b, now));
    ProductAppend(Unexpired(b, now), Unexpired(a, now));
  }

  /** +10% per root level, only above level 0. */
  function LevelFactor(level: int): real
  {
    if level > 0 then 1.0 + (level as real) * 0.1 else 1.0
  }

  /** The permanent multiplier applies only above 1. */
  function PermanentFactor(m: real): real
  {
    if m > 1.0 then m else 1.0
  }

  /** The firewall halves GPS; the backup build has no firewall. */
  function FirewallFactor(rev: Revision, active: bool): real
  {
    if rev != Backup && active then 0.5 else 1.0
  }

  /** The rate from the fields `calculateGPS()` reads: the base sum scaled by each factor in turn. */
  function Gps(rev: Revision, ups: seq<Upgrade>, level: int, permanent: real, boosts: seq<Boost>, firewall: bool, now: int): (g: real)
    // with no level, no permanent bonus, no running boost and no firewall the rate is the base sum
    ensures level <= 0 && permanent <= 1.0 && Unexpired(boosts, now) == [] && (rev == Backup || !firewall) ==> g == BaseGps(ups)
  {
    BaseGps(ups) * LevelFactor(level) * PermanentFactor(permanent) * BoostFactor(boosts, now) * FirewallFactor(rev, firewall)
  }

  /** The value `calculateGPS()` assigns at time `now`; a well-formed state never has a negative rate. */
  function ComputeGps(rev: Revision, s: State, now: int): (g: real)
    ensures Valid(rev, s) ==> g >= 0.0
  {
    assert Valid(rev, s) ==> Gps(rev, s.upgrades, s.rootAccessLevel, s.permanentMultiplier, s.activeBoosts, s.firewallActive, now) >= 0.0 by {
      if Valid(rev, s) {
        AlignedRatesNonNegative(rev, s.upgrades);
        GpsNonNegative(rev, s.upgrades, s.rootAccessLevel, s.permanentMultiplier, s.activeBoosts, s.firewallActive, now);
      }
    }
    Gps(rev, s.upgrades, s.rootAccessLevel, s.permanentMultiplier, s.activeBoosts, s.firewallActive, now)
  }

  /**
   * script.js with ten autoClickers and one bot and nothing else:
   * 10 * 0.1 + 1 * 1 = 2 bits per second at level 0.
   */
  lemma TenAutoClickersAndABot(now: int)
    ensures var cat := BundleUpgrades();
      var ups := cat[1 := cat[1].(count := 10)][2 := cat[2].(count := 1)];
      Gps(Bundle, ups, 0, 1.0, [], false, now) == 2.0
  {
    var cat := BundleUpgrades();
    var ups := cat[1 := cat[1].(count := 10)][2 := cat[2].(count := 1)];
    assert BaseGps(ups[8..]) == 0.0;
    assert BaseGps(ups[3..]) == 0.0 by {
      assert BaseGps(ups[7..]) == 0.0 && BaseGps(ups[6..]) == 0.0 && BaseGps(ups[5..]) == 0.0 && BaseGps(ups[4..]) == 0.0;
    }
    assert BaseGps(ups[1..]) == 2.0 by {
      assert BaseGps(ups[2..]) == 1.0;
    }
    assert BaseGps(ups) == 2.0;
  }

  /** The rate reads only the generators, the level, the multipliers, the boosts and the firewall. */
  lemma ComputeGpsReads(rev: Revision, s: State, t: State, now: int)
    requires t.upgrades == s.upgrades && t.rootAccessLevel == s.rootAccessLevel
    requires t.permanentMultiplier == s.permanentMultiplier && t.firewallActive == s.firewallActive
    requires BoostFactor(t.activeBoosts, now) == BoostFactor(s.activeBoosts, now)
    ensures ComputeGps(rev, t, now) == ComputeGps(rev, s, now)
  {
    GpsBoostsOnly(rev, s.upgrades, s.rootAccessLevel, s.permanentMultiplier, t.activeBoosts, s.activeBoosts, s.firewallActive, now);
  }

  lemma GpsBoostsOnly(rev: Revision, ups: seq<Upgrade>, level: int, permanent: real, b1: seq<Boost>, b2: seq<Boost>, firewall: bool, now: int)
    requires BoostFactor(b1, now) == BoostFactor(b2, now)
    ensures Gps(rev, ups, level, permanent, b1, firewall, now) == Gps(rev, ups, level, permanent, b2, firewall, now)
  {}

  /** Generators with non-negative outputs and positive boosts never give a negative rate. */
  lemma GpsNonNegative(rev: Revision, ups: seq<Upgrade>, level: int, permanent: real, boosts: seq<Boost>, firewall: bool, now: int)
    requires forall i | 0 <= i < |ups| :: ups[i].gps >= 0.0
    requires forall b | b in boosts :: b.factor > 0.0
    ensures Gps(rev, ups, level, permanent, boosts, firewall, now) >= 0.0
  {
    BaseGpsNonNegative(ups);
    ProductPositive(Unexpired(boosts, now));
    ScaleNonNegative(BaseGps(ups), LevelFactor(level), PermanentFactor(permanent), BoostFactor(boosts, now), FirewallFactor(rev, firewall));
  }

  /** Generators aligned with the catalog produce a non-negative rate each. */
  lemma AlignedRatesNonNegative(rev: Revision, ups: seq<Upgrade>)
    requires UpgradesAligned(rev, ups)
    ensures forall i | 0 <= i < |ups| :: ups[i].gps >= 0.0
  {
    var cat := Upgrades(rev);
    assert FreshCatalog(cat);
    forall i | 0 <= i < |ups| ensures ups[i].gps >= 0.0 {
      assert ups[i].gps == cat[i].gps;
    }
  }

  lemma ScaleNonNegative(a: real, b: real, c: real, d: real, e: real)
    requires a >= 0.0 && b >= 0.0 && c >= 0.0 && d >= 0.0 && e >= 0.0
    ensures a * b * c * d * e >= 0.0
  {
    assert a * b >= 0.0;
    assert a * b * c >= 0.0;
    assert a * b * c * d >= 0.0;
  }

  /** `calculateGPS()`: expired boosts are dropped and the rate recomputed. */
  function RecalcGps(rev: Revision, s: State, now: int): (r: State)
    ensures r == s.(activeBoosts := r.activeBoosts, gps := r.gps)
    ensures r.gps == ComputeGps(rev, s, now)
    ensures forall b :: b in r.activeBoosts <==> b in s.activeBoosts && b.endTime > now
    ensures Valid(rev, s) ==> Valid(rev, r)
  {
    s.(activeBoosts := Unexpired(s.activeBoosts, now), gps := ComputeGps(rev, s, now))
  }

  /** Recomputing is stable: the new state's rate is the rate recomputed at the same moment. */
  lemma RecalcGpsStable(rev: Revision, s: State, now: int)
    ensures var r := RecalcGps(rev, s, now); r.gps == ComputeGps(rev, r, now)
  {
    UnexpiredLater(s.activeBoosts, now, now);
    ComputeGpsReads(rev, s, RecalcGps(rev, s, now), now);
  }

  /** The value `calculateClickPower()` assigns at time `now`; the backup build never recomputes it. */
  function ComputeClickPower(rev: Revision, s: State, now: int): (c: real)
    ensures rev != Modular ==> c == 1.0 + ClickSum(s.upgrades) as real
    ensures Valid(rev, s) ==> c > 0.0
  {
    assert Valid(rev, s) ==> ClickPower(rev, s.upgrades, s.activeClickBoosts, now) > 0.0 by {
      if Valid(rev, s) {
        ClickPowerPositive(rev, s.upgrades, s.activeClickBoosts, now);
      }
    }
    ClickPower(rev, s.upgrades, s.activeClickBoosts, now)
  }

  /** The click power from the fields `calculateClickPower()` reads. */
  function ClickPower(rev: Revision, ups: seq<Upgrade>, boosts: seq<Boost>, now: int): (p: real)
    // with no click boost running a click earns one plus the click bonuses
    ensures rev != Modular || Unexpired(boosts, now) == [] ==> p == 1.0 + ClickSum(ups) as real
  {
    var power := 1.0 + (ClickSum(ups) as real);
    if rev == Modular then power * BoostFactor(boosts, now) else power
  }

  /** With positive click boosts a click always earns something. */
  lemma ClickPowerPositive(rev: Revision, ups: seq<Upgrade>, boosts: seq<Boost>, now: int)
    requires forall b | b in boosts :: b.factor > 0.0
    ensures ClickPower(rev, ups, boosts, now) > 0.0
  {
    ProductPositive(Unexpired(boosts, now));
    var power := 1.0 + (ClickSum(ups) as real);
    var boost := BoostFactor(boosts, now);
    assert power >= 1.0 && boost > 0.0;
    assert power * boost > 0.0;
  }

  /** `calculateClickPower()`; the module build also drops expired click boosts. */
  function RecalcClickPower(rev: Revision, s: State, now: int): (r: State)
    ensures r == s.(activeClickBoosts := r.activeClickBoosts, clickPower := r.clickPower)
    ensures rev == Backup ==> r == s
    ensures rev != Modular ==> r.activeClickBoosts == s.activeClickBoosts
    ensures forall b :: b in r.activeClickBoosts <==> b in s.activeClickBoosts && (rev == Modular ==> b.endTime > now)
    ensures rev != Backup ==> r.clickPower == ClickPower(rev, s.upgrades, s.activeClickBoosts, now)
    ensures Valid(rev, s) ==> Valid(rev, r)
  {
    if rev == Backup then s
    else if rev == Bundle then s.(clickPower := ComputeClickPower(rev, s, now))
    else s.(activeClickBoosts := Unexpired(s.activeClickBoosts, now), clickPower := ComputeClickPower(rev, s, now))
  }

  /** Recomputing click power is stable: the new power is the power recomputed at the same moment. */
  lemma RecalcClickPowerStable(rev: Revision, s: State, now: int)
    requires rev != Backup
    ensures var r := RecalcClickPower(rev, s, now); r.clickPower == ComputeClickPower(rev, r, now)
  {
    var r := RecalcClickPower(rev, s, now);
    if rev == Modular {
      assert r.upgrades == s.upgrades && r.activeClickBoosts == Unexpired(s.activeClickBoosts, now);
      PrunedClickBoostsSame(s.upgrades, s.activeClickBoosts, now);
    } else {
      assert r.upgrades == s.upgrades && r.activeClickBoosts == s.activeClickBoosts;
    }
  }

  /**
   * `calculateGPS()` followed by `calculateClickPower()` leaves both rates
   * equal to the rates recomputed from the state they produce.
   */
  lemma RecalcBothStable(rev: Revision, s: State, now: int)
    ensures var r := RecalcClickPower(rev, RecalcGps(rev, s, now), now);
      r.gps == ComputeGps(rev, r, now) && (rev != Backup ==> r.clickPower == ComputeClickPower(rev, r, now))
  {
    var g := RecalcGps(rev, s, now);
    var r := RecalcClickPower(rev, g, now);
    RecalcGpsStable(rev, s, now);
    ComputeGpsReads(rev, g, r, now);
    if rev != Backup {
      RecalcClickPowerStable(rev, g, now);
    }
  }

  /** Dropping the expired click boosts first does not change the power at that moment. */
  lemma PrunedClickBoostsSame(ups: seq<Upgrade>, boosts: seq<Boost>, now: int)
    ensures ClickPower(Modular, ups, Unexpired(boosts, now), now) == ClickPower(Modular, ups, boosts, now)
  {
    UnexpiredLater(boosts, now, now);
  }
}
