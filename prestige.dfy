// Prestige: the potential root-access level and the reboot that trades a
// run's progress for it (calculatePotentialRootAccess and rebootSystem in
// js/formulas.js, js/game.js, script.js and backup/js/game.js).
module Prestige {
  import opened Wrappers
  import opened Constants
  import opened GameState
  import Numeric

  /** A potential level as the game's arithmetic produces it: a number, +Infinity or NaN. */
  datatype Potential = Level(n: int) | Infinite | NotANumber

  /** `potential > level`: +Infinity exceeds every level, NaN exceeds none. */
  predicate Exceeds(p: Potential, level: int)
  {
    match p
    case Level(n) => n > level
    case Infinite => true
    case NotANumber => false
  }

  // ---------------------------------------------------------------
  // Real powers of ten and floor(5 * log10(x)).

  /** 10^n for any integer n. */
  function Pow10(n: int): (r: real)
    ensures r > 0.0
    ensures n >= 0 ==> r >= 1.0
  {
    if n >= 0 then Numeric.Pow(10, n) as real else 1.0 / (Numeric.Pow(10, -n) as real)
  }

  lemma InverseMono(a: real, b: real)
    requires 0.0 < a <= b
    ensures 1.0 / b <= 1.0 / a
    ensures a < b ==> 1.0 / b < 1.0 / a
  {
    assert a * b > 0.0 by { MulMono(0.0, a, 0.0, b); assert a * b != 0.0; }
    assert 1.0 / a - 1.0 / b == (b - a) / (a * b);
  }

  lemma DivMono(a: real, b: real, c: real)
    requires a <= b && c > 0.0
    ensures a / c <= b / c
  {
    assert b / c - a / c == (b - a) / c;
  }

  /** Dividing a non-negative amount by a factor in (0, 1] never shrinks it. */
  lemma DivByReduction(a: real, r: real)
    requires a >= 0.0 && 0.0 < r <= 1.0
    ensures a / r >= a
  {
    InverseMono(r, 1.0);
    assert a / r == a * (1.0 / r);
    MulMono(a, a, 1.0, 1.0 / r);
  }

  lemma Pow10Mono(a: int, b: int)
    requires a <= b
    ensures Pow10(a) <= Pow10(b)
  {
    if a >= 0 {
      Numeric.PowMono(10, a, b);
    } else if b >= 0 {
      assert Numeric.Pow(10, -a) >= 1;
      InverseMono(1.0, Numeric.Pow(10, -a) as real);
    } else {
      Numeric.PowMono(10, -b, -a);
      InverseMono(Numeric.Pow(10, -b) as real, Numeric.Pow(10, -a) as real);
    }
  }

  /** A larger power of ten has the larger exponent. */
  lemma Pow10Inverse(a: int, b: int)
    requires Pow10(a) > Pow10(b)
    ensures a > b
  {
    if a <= b {
      Pow10Mono(a, b);
    }
  }

  function Fifth(x: real): real
  {
    x * x * x * x * x
  }

  lemma MulMono(a: real, b: real, c: real, d: real)
    requires 0.0 <= a <= b && 0.0 <= c <= d
    ensures a * c <= b * d
  {
    assert a * c <= b * c;
    assert b * c <= b * d;
  }

  lemma FifthMono(x: real, y: real)
    requires 0.0 <= x <= y
    ensures Fifth(x) <= Fifth(y)
  {
    MulMono(x, y, x, y);
    MulMono(x * x, y * y, x, y);
    MulMono(x * x * x, y * y * y, x, y);
    MulMono(x * x * x * x, y * y * y * y, x, y);
  }

  /** `Math.floor(Math.log10(x) * 5)`: the integer n with 10^n <= x^5 < 10^(n+1). */
  function FloorFiveLog(x: real): (n: int)
    requires x > 0.0
    ensures Pow10(n) <= Fifth(x) < Pow10(n + 1)
  {
    var y := Fifth(x);
    assert y > 0.0 by { MulMono(0.0, x, 0.0, x); }
    if y >= 1.0 then
      var m := Numeric.Log10Floor(y.Floor as nat);
      assert (Numeric.Pow(10, m) as real) <= y;
      m
    else
      PowerBelowOne(y)
  }

  /** The integer n with 10^n <= y < 10^(n+1), for 0 < y < 1. */
  function PowerBelowOne(y: real): (n: int)
    requires 0.0 < y < 1.0
    ensures Pow10(n) <= y < Pow10(n + 1)
  {
    var z := 1.0 / y;
    assert z > 1.0 by { InverseMono(y, 1.0); assert z != 1.0; }
    assert y == 1.0 / z;
    var m: int := Numeric.Log10Floor(z.Floor as nat);
    var p := Numeric.Pow(10, m) as real;
    assert p <= z < 10.0 * p;
    if z == p then
      assert m >= 1;
      assert Pow10(-m) == y;
      assert Pow10(-m + 1) == 1.0 / (Numeric.Pow(10, m - 1) as real);
      assert 10.0 * (Numeric.Pow(10, m - 1) as real) == p;
      InverseMono(Numeric.Pow(10, m - 1) as real, p);
      -m
    else
      InverseMono(z, 10.0 * p);
      assert m >= 1 ==> y < Pow10(-m) by {
        if m >= 1 { InverseMono(p, z); }
      }
      -(m + 1)
  }

  lemma FiveLogUnique(x: real, n: int)
    requires x > 0.0 && Pow10(n) <= Fifth(x) < Pow10(n + 1)
    ensures FloorFiveLog(x) == n
  {
    var q := FloorFiveLog(x);
    Pow10Inverse(q + 1, n);
    Pow10Inverse(n + 1, q);
  }

  lemma FiveLogMono(x: real, y: real)
    requires 0.0 < x <= y
    ensures FloorFiveLog(x) <= FloorFiveLog(y)
  {
    var p, q := FloorFiveLog(x), FloorFiveLog(y);
    FifthMono(x, y);
    Pow10Inverse(q + 1, p);
  }

  lemma FiveLogNonNegative(x: real)
    requires x >= 1.0
    ensures FloorFiveLog(x) >= 0
  {
    FifthMono(1.0, x);
    var n := FloorFiveLog(x);
    Pow10Inverse(n + 1, 0);
  }

  // ---------------------------------------------------------------
  // calculatePotentialRootAccess

  /**
   * The module build's potential: nothing below 10^7 lifetime bits, then
   * floor(5 * log10(adjusted / 10^7)) with the lifetime scaled up by the
   * prestige_master reduction 1 - 0.1 * k. A reduction of zero divides
   * to +Infinity and a negative one takes the logarithm of a negative.
   */
  function PotentialLog(lifetime: real, k: int): (p: Potential)
    ensures lifetime < 10000000.0 ==> p == Level(0)
    ensures lifetime >= 10000000.0 && k == 10 ==> p == Infinite
    ensures lifetime >= 10000000.0 && k > 10 ==> p == NotANumber
    ensures lifetime >= 10000000.0 && k < 10 ==>
      var adjusted := lifetime / (1.0 - (k as real) * 0.1);
      p.Level? && Pow10(p.n) <= Fifth(adjusted / 10000000.0) < Pow10(p.n + 1)
  {
    if lifetime < 10000000.0 then Level(0)
    else
      var reduction := 1.0 - (k as real) * 0.1;
      if reduction == 0.0 then Infinite
      else if reduction < 0.0 then NotANumber
      else Level(FloorFiveLog(lifetime / reduction / 10000000.0))
  }

  /** script.js and the backup build: floor(sqrt(lifetime / 10^6)), NaN for a negative lifetime. */
  function PotentialSqrt(lifetime: real): (p: Potential)
    ensures lifetime < 0.0 <==> p == NotANumber
    ensures lifetime >= 0.0 ==>
      p.Level? && p.n >= 0 &&
      (p.n * p.n) as real * 1000000.0 <= lifetime < ((p.n + 1) * (p.n + 1)) as real * 1000000.0
  {
    if lifetime < 0.0 then NotANumber
    else
      var f := (lifetime / 1000000.0).Floor;
      var n := Numeric.FloorSqrt(f as nat);
      assert (n * n) as real <= lifetime / 1000000.0 < ((n + 1) * (n + 1)) as real;
      Level(n)
  }

  /** The prestige_master level as the formula reads it: `skills.prestige_master || 0`. */
  function PrestigeMasterLevel(s: State): int
  {
    SkillLookup(s.skills, "prestige_master").GetOr(0)
  }

  /**
   * The reboot potential of each build: the module build's log formula,
   * reduced by prestige_master, and the older builds' square root.
   */
  function PotentialOf(rev: Revision, s: State): (p: Potential)
    ensures rev != Modular ==> (p.Level? <==> s.lifetimeBits >= 0.0)
    ensures rev == Modular && s.lifetimeBits < 10000000.0 ==> p == Level(0)
    ensures rev == Modular && s.lifetimeBits >= 10000000.0 ==> (p == Infinite <==> PrestigeMasterLevel(s) == 10)
  {
    if rev == Modular then PotentialLog(s.lifetimeBits, PrestigeMasterLevel(s))
    else PotentialSqrt(s.lifetimeBits)
  }

  /**
   * In a valid state prestige_master is at most 3, so the reduction
   * stays at 0.7 or more and the potential is always a finite level.
   */
  lemma PotentialDefined(rev: Revision, s: State)
    requires Valid(rev, s)
    ensures 0 <= PrestigeMasterLevel(s) <= 3
    ensures PotentialOf(rev, s).Level? && PotentialOf(rev, s).n >= 0
  {
    PrestigeMasterBound(rev, s.skills);
    if rev == Modular && s.lifetimeBits >= 10000000.0 {
      LogLevel(s.lifetimeBits, PrestigeMasterLevel(s));
      FiveLogNonNegative(Adjusted(s.lifetimeBits, PrestigeMasterLevel(s)));
    }
  }

  /** An aligned skill map holds prestige_master at a level from 0 to its maximum 3. */
  lemma PrestigeMasterBound(rev: Revision, skills: seq<SkillLevel>)
    requires SkillsAligned(rev, skills)
    ensures 0 <= SkillLookup(skills, "prestige_master").GetOr(0) <= 3
  {
    if SkillLookup(skills, "prestige_master").Some? {
      var i := Find(SkillKeys(skills), "prestige_master").value;
      assert SkillIds(SkillTree(rev))[i] == "prestige_master";
      PrestigeMasterDef();
    }
  }

  /** At exactly 10^7 lifetime bits and no prestige_master the level is 0. */
  lemma PotentialLogAtThreshold()
    ensures PotentialLog(10000000.0, 0) == Level(0)
  {
    assert Fifth(1.0) == 1.0;
    FiveLogUnique(1.0, 0);
  }

  /** At 10^8 lifetime bits the level is 5: each tenfold of lifetime bits is worth five levels. */
  lemma PotentialLogAtHundredMillion()
    ensures PotentialLog(100000000.0, 0) == Level(5)
  {
    assert Fifth(10.0) == 100000.0;
    assert Numeric.Pow(10, 5) == 100000 by {
      assert Numeric.Pow(10, 2) == 100;
      assert Numeric.Pow(10, 4) == 10000;
    }
    assert Numeric.Pow(10, 6) == 1000000;
    FiveLogUnique(10.0, 5);
  }

  /** More lifetime bits never lower the potential (for a valid prestige_master level). */
  lemma PotentialLogMonoLifetime(a: real, b: real, k: int)
    requires a <= b && 0 <= k < 10
    ensures PotentialLog(a, k).Level? && PotentialLog(b, k).Level?
    ensures PotentialLog(a, k).n <= PotentialLog(b, k).n
  {
    if b >= 10000000.0 {
      LogLevel(b, k);
      FiveLogNonNegative(Adjusted(b, k));
      if a >= 10000000.0 {
        LogLevel(a, k);
        AdjustedGrows(a, b, k);
        FiveLogMono(Adjusted(a, k), Adjusted(b, k));
      }
    }
  }

  /** A higher prestige_master level never lowers the potential. */
  lemma PotentialLogMonoSkill(lifetime: real, j: int, k: int)
    requires 0 <= j <= k < 10
    ensures PotentialLog(lifetime, j).Level? && PotentialLog(lifetime, k).Level?
    ensures PotentialLog(lifetime, j).n <= PotentialLog(lifetime, k).n
  {
    if lifetime >= 10000000.0 {
      LogLevel(lifetime, j);
      LogLevel(lifetime, k);
      AdjustedMono(lifetime, j, k);
      FiveLogMono(Adjusted(lifetime, j), Adjusted(lifetime, k));
    }
  }

  /** The lifetime scaled by the prestige_master reduction, in units of 10^7 bits. */
  function Adjusted(lifetime: real, k: int): real
    requires k < 10
  {
    lifetime / (1.0 - (k as real) * 0.1) / 10000000.0
  }

  /** Below ten prestige_master levels the potential is the floored five-fold logarithm. */
  lemma LogLevel(lifetime: real, k: int)
    requires lifetime >= 10000000.0 && 0 <= k < 10
    ensures Adjusted(lifetime, k) >= 1.0
    ensures PotentialLog(lifetime, k) == Level(FloorFiveLog(Adjusted(lifetime, k)))
  {
    var r := 1.0 - (k as real) * 0.1;
    DivByReduction(lifetime, r);
    DivMono(10000000.0, lifetime / r, 10000000.0);
  }

  /** More lifetime bits give a larger adjusted lifetime. */
  lemma AdjustedGrows(a: real, b: real, k: int)
    requires a <= b && 0 <= k < 10
    ensures Adjusted(a, k) <= Adjusted(b, k)
  {
    var r := 1.0 - (k as real) * 0.1;
    DivMono(a, b, r);
    DivMono(a / r, b / r, 10000000.0);
  }

  /** More prestige_master levels scale the lifetime up further. */
  lemma AdjustedMono(lifetime: real, j: int, k: int)
    requires lifetime >= 0.0 && 0 <= j <= k < 10
    ensures Adjusted(lifetime, j) <= Adjusted(lifetime, k)
  {
    var rj := 1.0 - (j as real) * 0.1;
    var rk := 1.0 - (k as real) * 0.1;
    assert lifetime / rj <= lifetime / rk by {
      InverseMono(rk, rj);
      assert lifetime / rj == lifetime * (1.0 / rj);
      assert lifetime / rk == lifetime * (1.0 / rk);
      MulMono(lifetime, lifetime, 1.0 / rj, 1.0 / rk);
    }
    DivMono(lifetime / rj, lifetime / rk, 10000000.0);
  }

  lemma SqrtFloorMono(a: nat, b: nat)
    requires a <= b
    ensures Numeric.FloorSqrt(a) <= Numeric.FloorSqrt(b)
  {
    var p, q := Numeric.FloorSqrt(a), Numeric.FloorSqrt(b);
    if q < p {
      Numeric.MulLeft(q + 1, p, q + 1);
      Numeric.MulRight(q + 1, p, p);
    }
  }

  /** More lifetime bits never lower the square-root potential. */
  lemma PotentialSqrtMono(a: real, b: real)
    requires 0.0 <= a <= b
    ensures PotentialSqrt(a).n <= PotentialSqrt(b).n
  {
    assert a / 1000000.0 <= b / 1000000.0;
    SqrtFloorMono((a / 1000000.0).Floor as nat, (b / 1000000.0).Floor as nat);
  }

  /** 1M lifetime bits give level 1 with the square-root formula; one bit less gives 0. */
  lemma PotentialSqrtAtOneMillion()
    ensures PotentialSqrt(1000000.0) == Level(1)
    ensures PotentialSqrt(999999.0) == Level(0)
  {
    assert (1000000.0 / 1000000.0).Floor == 1;
    assert (999999.0 / 1000000.0).Floor == 0;
    Numeric.SqrtUnique(1, 1);
    Numeric.SqrtUnique(0, 0);
  }

  /** 8M lifetime bits give level 2: level 3 needs 9M. */
  lemma PotentialSqrtAtEightMillion()
    ensures PotentialSqrt(8000000.0) == Level(2)
  {
    assert (8000000.0 / 1000000.0).Floor == 8;
    Numeric.SqrtUnique(8, 2);
  }

  // ---------------------------------------------------------------
  // rebootSystem

  /** What a reboot pays before the reset: outside the backup build, the levels gained in cryptos and one more reboot counted. */
  function Payout(rev: Revision, s: State, n: int): (r: State)
    ensures rev == Backup ==> r == s
    ensures rev != Backup ==>
      r == s.(cryptos := s.cryptos + (n - s.rootAccessLevel),
              statistics := s.statistics.(rebootCount := s.statistics.rebootCount + 1))
    ensures Valid(rev, s) && n >= s.rootAccessLevel ==> Valid(rev, r)
  {
    if rev == Backup then s
    else s.(cryptos := s.cryptos + (n - s.rootAccessLevel),
            statistics := s.statistics.(rebootCount := s.statistics.rebootCount + 1))
  }

  /**
   * `rebootSystem()` with the player's answer to the confirmation dialog.
   * The module build and script.js pay the level gain in cryptos and count
   * the reboot; the backup build pays nothing. Then the run is reset.
   */
  function Reboot(rev: Revision, s: State, confirmed: bool): (r: State)
    requires UpgradesAligned(rev, s.upgrades)
    ensures !confirmed || !Exceeds(PotentialOf(rev, s), s.rootAccessLevel) ==> r == s
    ensures PotentialOf(rev, s) == Infinite ==> r == s
    ensures confirmed && PotentialOf(rev, s).Level? && PotentialOf(rev, s).n > s.rootAccessLevel ==>
      var n := PotentialOf(rev, s).n;
      r == ResetForPrestige(rev, Payout(rev, s, n), n)
  {
    match PotentialOf(rev, s)
    case Level(n) =>
      if confirmed && n > s.rootAccessLevel then ResetForPrestige(rev, Payout(rev, s, n), n)
      else s
    case Infinite => s
    case NotANumber => s
  }

  /**
   * A reboot that happens raises the root level, pays exactly the levels
   * gained in cryptos (none in the backup build) and keeps a valid state valid.
   */
  lemma RebootRaisesLevel(rev: Revision, s: State, confirmed: bool)
    requires Valid(rev, s)
    ensures var r := Reboot(rev, s, confirmed);
      Valid(rev, r) &&
      r.rootAccessLevel >= s.rootAccessLevel &&
      (r != s ==> r.rootAccessLevel > s.rootAccessLevel && r.bits == 0.0 && r.lifetimeBits == 0.0) &&
      (rev != Backup ==> r.cryptos - r.rootAccessLevel == s.cryptos - s.rootAccessLevel) &&
      (rev == Backup ==> r.cryptos == s.cryptos)
  {
    var p := PotentialOf(rev, s);
    if confirmed && p.Level? && p.n > s.rootAccessLevel {
      assert Valid(rev, Payout(rev, s, p.n));
    }
  }
}
