// The shop's read-only figures: how much of the rate a generator
// provides, how many bits one unit of rate costs, and the rating shown
// for that price (calculateGPSContribution, calculateEfficiency and
// getEfficiencyRating in js/formulas.js, js/game.js and script.js).
module Formulas {
  import opened Wrappers
  import opened Constants
  import opened GameState
  import Rates

  datatype Contribution = Contribution(contribution: real, percentage: real)

  /** A generator's share of the current rate, in percent; 0 when the rate is not positive. */
  function Share(u: Upgrade, gps: real): real
  {
    if gps > 0.0 then (u.gps * u.count as real) / gps * 100.0 else 0.0
  }

  /**
   * `calculateGPSContribution(key)`: what the generator adds to the base
   * rate and its share of the current rate. An unknown key reads a
   * property of `undefined` and throws.
   */
  function ContributionOf(s: State, key: string): (r: Option<Contribution>)
    ensures r.None? <==> key !in UpgradeIds(s.upgrades)
    ensures r.Some? ==>
      var u := s.upgrades[Find(UpgradeIds(s.upgrades), key).value];
      r.value.contribution == u.gps * u.count as real &&
      (s.gps <= 0.0 ==> r.value.percentage == 0.0) &&
      (s.gps > 0.0 ==> r.value.percentage * s.gps == r.value.contribution * 100.0)
  {
    match Find(UpgradeIds(s.upgrades), key)
    case None => None
    case Some(i) =>
      var u := s.upgrades[i];
      Some(Contribution(u.gps * u.count as real, Share(u, s.gps)))
  }

  /** The shares of all generators, added up. */
  function ShareSum(ups: seq<Upgrade>, gps: real): real
  {
    if ups == [] then 0.0 else Share(ups[0], gps) + ShareSum(ups[1..], gps)
  }

  /** The shares add up to the base rate as a percentage of the current rate. */
  lemma {:induction false} ShareSumIsBase(ups: seq<Upgrade>, gps: real)
    requires gps > 0.0
    ensures ShareSum(ups, gps) == Rates.BaseGps(ups) / gps * 100.0
  {
    if ups != [] {
      ShareSumIsBase(ups[1..], gps);
      var c := ups[0].gps * ups[0].count as real;
      var rest := Rates.BaseGps(ups[1..]);
      assert c / gps * 100.0 + rest / gps * 100.0 == (c + rest) / gps * 100.0;
    }
  }

  /**
   * With the prestige, permanent and boost factors at 1 the shares add up
   * to 100%; an active firewall halves the rate, so they add up to 200%.
   */
  lemma SharesWithoutMultipliers(rev: Revision, s: State, now: int)
    requires s.gps == Rates.ComputeGps(rev, s, now) && s.gps > 0.0
    requires s.rootAccessLevel <= 0 && s.permanentMultiplier <= 1.0 && Rates.BoostFactor(s.activeBoosts, now) == 1.0
    ensures ShareSum(s.upgrades, s.gps) == if rev != Backup && s.firewallActive then 200.0 else 100.0
  {
    var base := Rates.BaseGps(s.upgrades);
    ShareSumIsBase(s.upgrades, s.gps);
    if rev != Backup && s.firewallActive {
      assert s.gps == base * 0.5;
      assert base / s.gps == 2.0;
    } else {
      assert s.gps == base;
      assert base / s.gps == 1.0;
    }
  }

  // ---------------------------------------------------------------
  // calculateEfficiency and getEfficiencyRating

  /** A price per unit of rate; +Infinity for a generator that produces nothing. */
  datatype Efficiency = Infinite | Finite(value: real)

  /** `calculateEfficiency(upgrade)`: bits paid per bit-per-second gained. */
  function EfficiencyOf(u: Upgrade): (e: Efficiency)
    ensures e.Infinite? <==> u.gps == 0.0
    ensures e.Finite? ==> e.value * u.gps == u.cost as real
  {
    if u.gps == 0.0 then Infinite else Finite(u.cost as real / u.gps)
  }

  datatype Rating = NotApplicable | Excellent | Good | Fair | Poor

  /** The bands of `getEfficiencyRating`: below 500, 2000 and 10000, then Poor. */
  function RatingOf(e: Efficiency): (r: Rating)
    ensures r == NotApplicable <==> e.Infinite?
    ensures r == Excellent <==> e.Finite? && e.value < 500.0
    ensures r == Good <==> e.Finite? && 500.0 <= e.value < 2000.0
    ensures r == Fair <==> e.Finite? && 2000.0 <= e.value < 10000.0
    ensures r == Poor <==> e.Finite? && e.value >= 10000.0
  {
    match e
    case Infinite => NotApplicable
    case Finite(v) =>
      if v < 500.0 then Excellent
      else if v < 2000.0 then Good
      else if v < 10000.0 then Fair
      else Poor
  }

  /** Position of a rating from best to worst. */
  function Rank(r: Rating): nat
  {
    match r
    case Excellent => 0
    case Good => 1
    case Fair => 2
    case Poor => 3
    case NotApplicable => 4
  }

  /** A cheaper price per unit of rate never gets a worse rating. */
  lemma RatingMonotone(a: real, b: real)
    requires a <= b
    ensures Rank(RatingOf(Finite(a))) <= Rank(RatingOf(Finite(b)))
  {}

  /** Every generator but the click upgrade has a finite price per unit of rate. */
  lemma CatalogEfficiencies(rev: Revision, i: nat)
    requires i < |Upgrades(rev)|
    ensures EfficiencyOf(Upgrades(rev)[i]).Infinite? <==> Upgrades(rev)[i].id == "clicker"
  {
    Constants.OnlyClickerIsIdle(rev, i);
  }
}
