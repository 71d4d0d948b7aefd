// What the page does around the state: start-up with the offline credit,
// the hack button and the accrual loop (init and gameLoop in js/main.js,
// init and its gameLoop in script.js, init and the 100 ms tick in
// backup/js/game.js). Times: `now` is Date.now() in ms, frame times are
// requestAnimationFrame timestamps in ms.
module Session {
  import opened Wrappers
  import opened Constants
  import opened GameState
  import Ledger
  import Rates
  import Storage
  import Prestige

  // ---------------------------------------------------------------
  // Offline progress at start-up

  /** The module build credits offline time only after more than ten seconds away. */
  const OfflineThresholdMs := 10000

  /**
   * The module build's offline bits: `Math.floor(gps * (offlineMultiplier || 1) * elapsed / 1000)`
   * once more than ten seconds have passed since the save, else nothing.
   */
  function OfflineBitsJs(s: State, now: int): (n: int)
    ensures now - s.lastSaveTime <= OfflineThresholdMs ==> n == 0
    ensures now - s.lastSaveTime > OfflineThresholdMs ==>
      var exact := s.gps * RealOr(Some(s.offlineMultiplier), 1.0) * ((now - s.lastSaveTime) as real) / 1000.0;
      n as real <= exact < n as real + 1.0
  {
    var elapsed := now - s.lastSaveTime;
    if elapsed > OfflineThresholdMs then
      (s.gps * RealOr(Some(s.offlineMultiplier), 1.0) * (elapsed as real) / 1000.0).Floor
    else 0
  }

  /** The module build's offline block: the bits are added only when positive. */
  function OfflineJs(s: State, now: int): (r: State)
    ensures OfflineBitsJs(s, now) <= 0 ==> r == s
    ensures OfflineBitsJs(s, now) > 0 ==> r.bits == s.bits + OfflineBitsJs(s, now) as real
  {
    var n := OfflineBitsJs(s, now);
    if n > 0 then Ledger.AddBits(Modular, s, n as real) else s
  }

  /** Seconds since the save, as script.js computes them. */
  function OfflineSeconds(s: State, now: int): real
  {
    ((now - s.lastSaveTime) as real) / 1000.0
  }

  /**
   * script.js's offline block: with a save time, more than a minute away
   * and a positive rate, every second away is paid at the current rate,
   * with no rounding, multiplier or cap.
   */
  function OfflineBundle(s: State, now: int): (r: State)
    ensures var due := s.lastSaveTime != 0 && OfflineSeconds(s, now) > 60.0 && s.gps > 0.0;
      r.bits == s.bits + (if due then OfflineSeconds(s, now) * s.gps else 0.0) &&
      r.gps == s.gps && r.upgrades == s.upgrades && r.rootAccessLevel == s.rootAccessLevel
  {
    var secs := OfflineSeconds(s, now);
    if s.lastSaveTime != 0 && secs > 60.0 && s.gps > 0.0 then Ledger.AddBits(Bundle, s, secs * s.gps) else s
  }

  /**
   * The state `init()` leaves behind, given the storage slot, the state
   * before (what script.js and the backup build keep on a corrupt save) and
   * the time. The module build runs its offline block before recomputing
   * the rates; script.js recomputes them first and only after a load; the
   * backup build recomputes GPS after a load and credits nothing.
   */
  function Startup(rev: Revision, stored: Storage.StoredSave, current: State, now: int): (r: State)
    // the module build's offline block reads the loaded rate 0 and pays nothing
    ensures rev == Modular ==>
      r == Rates.RecalcClickPower(Modular, Rates.RecalcGps(Modular, Storage.LoadGame(rev, stored, current, now).state, now), now)
    // the older builds keep the state as it is without a save, and after a load show its rate
    ensures var l := Storage.LoadGame(rev, stored, current, now);
      rev != Modular ==>
        (!l.hasSave ==> r == l.state) &&
        (l.hasSave ==> r.gps == Rates.ComputeGps(rev, l.state, now) && r.upgrades == l.state.upgrades && r.bits >= l.state.bits)
    // the backup build credits no offline time
    ensures rev == Backup ==> r.bits == Storage.LoadGame(rev, stored, current, now).state.bits
  {
    var l := Storage.LoadGame(rev, stored, current, now);
    match rev
    case Modular =>
      assert stored.Saved? ==> LoadState(rev, Some(stored.data), now).state.gps == 0.0 by {
        if stored.Saved? { LoadedRateIsZero(rev, Some(stored.data), now); }
      }
      StartupJs(l, now)
    case Bundle => StartupBundle(l, now)
    case Backup => if l.hasSave then Rates.RecalcGps(rev, l.state, now) else l.state
  }

  /** The module build's start-up after the load: a fresh state without a save, the offline block, then the rates. */
  function StartupJs(l: Storage.GameLoad, now: int): (r: State)
    // both rates shown are the rates of the state start-up produces
    ensures r.gps == Rates.ComputeGps(Modular, r, now) && r.clickPower == Rates.ComputeClickPower(Modular, r, now)
    // at rate 0 the offline block is a no-op
    ensures var s := if l.hasSave then l.state else InitState(Modular, now);
      s.gps == 0.0 ==> r == Rates.RecalcClickPower(Modular, Rates.RecalcGps(Modular, s, now), now)
  {
    var s := if l.hasSave then l.state else InitState(Modular, now);
    Rates.RecalcBothStable(Modular, OfflineJs(s, now), now);
    assert s.gps == 0.0 ==> OfflineJs(s, now) == s by {
      if s.gps == 0.0 { ZeroRateNoOffline(s, now); }
    }
    Rates.RecalcClickPower(Modular, Rates.RecalcGps(Modular, OfflineJs(s, now), now), now)
  }

  /** script.js's start-up after the load: the rates, then the offline block, both only after a load. */
  function StartupBundle(l: Storage.GameLoad, now: int): (r: State)
    ensures !l.hasSave ==> r == l.state
    // after a load: the loaded state's rate, its generators, and never fewer bits
    ensures l.hasSave ==>
      r.gps == Rates.ComputeGps(Bundle, l.state, now) && r.upgrades == l.state.upgrades && r.bits >= l.state.bits
  {
    if l.hasSave then
      var s := Rates.RecalcClickPower(Bundle, Rates.RecalcGps(Bundle, l.state, now), now);
      assert OfflineSeconds(s, now) > 60.0 && s.gps > 0.0 ==> OfflineSeconds(s, now) * s.gps > 0.0 by {
        if OfflineSeconds(s, now) > 60.0 && s.gps > 0.0 { PositiveProduct(OfflineSeconds(s, now), s.gps); }
      }
      OfflineBundle(s, now)
    else l.state
  }

  lemma PositiveProduct(a: real, b: real)
    requires a > 0.0 && b > 0.0
    ensures a * b > 0.0
  {}

  /** `loadState` starts from `initState()` and never assigns the rate: a loaded state has rate 0. */
  lemma LoadedRateIsZero(rev: Revision, d: Option<SaveData>, now: int)
    ensures LoadState(rev, d, now).state.gps == 0.0
  {
    if d.Some? {
      assert LoadFields(rev, d.value, now).gps == 0.0;
    }
  }

  /**
   * As written, the module build never pays for offline time: its offline
   * block reads the rate before `calculateGPS()` has run, while the freshly
   * loaded state still has rate 0. Start-up is just the load and the
   * recalculation.
   */
  lemma JsOfflineNeverCredits(stored: Storage.StoredSave, current: State, now: int)
    ensures var l := Storage.LoadGame(Modular, stored, current, now);
      OfflineBitsJs(l.state, now) == 0 &&
      Startup(Modular, stored, current, now) ==
        Rates.RecalcClickPower(Modular, Rates.RecalcGps(Modular, l.state, now), now)
  {
    var l := Storage.LoadGame(Modular, stored, current, now);
    if stored.Saved? {
      LoadedRateIsZero(Modular, Some(stored.data), now);
    }
    ZeroRateNoOffline(l.state, now);
  }

  /** At rate 0 the module build's offline block pays nothing. */
  lemma ZeroRateNoOffline(s: State, now: int)
    requires s.gps == 0.0
    ensures OfflineBitsJs(s, now) == 0 && OfflineJs(s, now) == s
  {
    var elapsed := now - s.lastSaveTime;
    assert s.gps * RealOr(Some(s.offlineMultiplier), 1.0) * (elapsed as real) / 1000.0 == 0.0;
  }

  /**
   * A valid run saved at `t` and reopened at `now` in the module build comes
   * back with exactly its saved bits, however long it was away.
   */
  lemma JsReopenKeepsBits(s: State, t: int, now: int)
    requires Valid(Modular, s)
    ensures Startup(Modular, Storage.Saved(Storage.Snapshot(Modular, s, t)), s, now).bits == s.bits
  {
    var stored := Storage.Saved(Storage.Snapshot(Modular, s, t));
    Storage.SaveThenLoad(Modular, s, t, now);
    Storage.ReloadKeepsProgress(Modular, s, t, now);
    JsOfflineNeverCredits(stored, s, now);
  }

  /**
   * script.js, by contrast, reopens a valid run saved at t != 0 as the
   * reloaded state with its saved bits and save time, rates recomputed,
   * and runs the offline block on it (which `OfflineCredit` shows pays
   * every second away at that rate).
   */
  lemma BundleReopenCredits(s: State, t: int, now: int)
    requires Valid(Bundle, s) && t != 0
    ensures var r := Rates.RecalcClickPower(Bundle,
        Rates.RecalcGps(Bundle, Storage.Reloaded(Bundle, s, t, now), now), now);
      Startup(Bundle, Storage.Saved(Storage.Snapshot(Bundle, s, t)), s, now) == OfflineBundle(r, now) &&
      r.bits == s.bits && r.lastSaveTime == t
  {
    Storage.SaveThenLoad(Bundle, s, t, now);
    ReloadedBundle(s, t, now);
  }

  /**
   * The module build follows every reboot with a save and a page reload.
   * The reset leaves the skill points alone, but the load's migration
   * then grants them: a run that had none comes back, with its skills and
   * its new root level, holding that level less what its skills cost.
   */
  lemma RebootThenReload(s: State, confirmed: bool, t: int, now: int)
    requires Valid(Modular, s)
    ensures var r := Prestige.Reboot(Modular, s, confirmed);
      var l := LoadState(Modular, Some(Storage.Snapshot(Modular, r, t)), now);
      !l.threw && Valid(Modular, l.state) &&
      l.state.rootAccessLevel == r.rootAccessLevel && l.state.skills == s.skills &&
      (s.skillPoints != 0 ==> l.state.skillPoints == s.skillPoints) &&
      (r != s && s.skillPoints == 0 ==>
        r.skillPoints == 0 && SpentPoints(s.skills, SkillTree(Modular)).Some? &&
        l.state.skillPoints == r.rootAccessLevel - SpentPoints(s.skills, SkillTree(Modular)).value)
  {
    var r := Prestige.Reboot(Modular, s, confirmed);
    Prestige.RebootRaisesLevel(Modular, s, confirmed);
    Storage.SaveThenLoad(Modular, r, t, now);
    Storage.ReloadKeepsProgress(Modular, r, t, now);
    SpentDefined(s.skills, SkillTree(Modular));
  }

  /** More than a minute after a save at t, script.js's offline block pays the rate for every second away. */
  lemma OfflineCredit(s: State, t: int, now: int)
    requires t != 0 && now - t > 60000 && s.lastSaveTime == t
    ensures s.gps > 0.0 ==> OfflineBundle(s, now).bits == s.bits + ((now - t) as real / 1000.0) * s.gps
  {}

  lemma ReloadedBundle(s: State, t: int, now: int)
    requires t != 0
    ensures Storage.Reloaded(Bundle, s, t, now).bits == s.bits
    ensures Storage.Reloaded(Bundle, s, t, now).lastSaveTime == t
  {}

  /** script.js's credit is linear in the time away: no cap. */
  lemma BundleOfflineUncapped(s: State, now: int, later: int)
    requires s.lastSaveTime != 0 && s.gps > 0.0 && OfflineSeconds(s, now) > 60.0 && later >= now
    ensures OfflineBundle(s, later).bits - OfflineBundle(s, now).bits ==
      ((later - now) as real / 1000.0) * s.gps
  {
    var a := OfflineSeconds(s, later);
    var b := OfflineSeconds(s, now);
    assert a - b == (later - now) as real / 1000.0;
    Distribute(a, b, s.gps);
  }

  lemma Distribute(a: real, b: real, g: real)
    ensures a * g - b * g == (a - b) * g
  {}

  // ---------------------------------------------------------------
  // The hack button

  /**
   * A click: the module build credits the click power and then counts the
   * click; script.js counts first; the backup build only credits.
   */
  function Click(rev: Revision, s: State): (r: State)
    ensures r.bits == s.bits + s.clickPower && r.gps == s.gps && r.upgrades == s.upgrades
    ensures r.statistics.totalClicks == if rev == Backup then s.statistics.totalClicks else s.statistics.totalClicks + 1
  {
    match rev
    case Modular =>
      var t := Ledger.AddBits(rev, s, s.clickPower);
      t.(statistics := t.statistics.(totalClicks := t.statistics.totalClicks + 1))
    case Bundle =>
      var counted := s.(statistics := s.statistics.(totalClicks := s.statistics.totalClicks + 1));
      Ledger.AddBits(rev, counted, counted.clickPower)
    case Backup => Ledger.AddBits(rev, s, s.clickPower)
  }

  /** A click in a valid state keeps it valid: the click power is positive. */
  lemma ClickKeepsValid(rev: Revision, s: State)
    requires Valid(rev, s)
    ensures Valid(rev, Click(rev, s))
  {
    if rev == Modular {
      Ledger.AddBitsKeepsValid(rev, s, s.clickPower);
    } else if rev == Bundle {
      var counted := s.(statistics := s.statistics.(totalClicks := s.statistics.totalClicks + 1));
      Ledger.AddBitsKeepsValid(rev, counted, counted.clickPower);
    } else {
      Ledger.AddBitsKeepsValid(rev, s, s.clickPower);
    }
  }

  /**
   * The click order shows in the achievement pass: for a locked click
   * achievement that this very click reaches, the module build's pass still
   * sees the old count and leaves it locked, script.js's pass unlocks it.
   */
  lemma ClickOrdering(rev: Revision, s: State, k: nat)
    requires rev != Backup && k < |s.achievements| && !s.achievements[k].unlocked
    requires s.achievements[k].condition == ClicksAtLeast(s.statistics.totalClicks + 1)
    ensures rev == Modular ==> !Click(rev, s).achievements[k].unlocked
    ensures rev == Bundle ==> Click(rev, s).achievements[k].unlocked
  {
    if rev == Modular {
      Ledger.AddBitsClickAchievement(rev, s, s.clickPower, k);
    } else {
      var counted := s.(statistics := s.statistics.(totalClicks := s.statistics.totalClicks + 1));
      Ledger.AddBitsClickAchievement(rev, counted, counted.clickPower, k);
    }
  }

  // ---------------------------------------------------------------
  // The accrual loop

  /** The state and the loop's remembered timestamp. */
  datatype Clocked = Clocked(state: State, last: real)

  /**
   * One animation frame at time t. The module build takes the first frame
   * (remembered time 0) as its own start and credits even a zero rate;
   * script.js starts from the time `init()` ran and credits only a positive rate.
   */
  function Frame(rev: Revision, s: State, last: real, t: real): (r: Clocked)
    requires rev != Backup
    ensures r.last == t && r.state.gps == s.gps
    ensures rev == Modular ==> r.state.bits == s.bits + s.gps * ((t - (if last == 0.0 then t else last)) / 1000.0)
    ensures rev == Bundle ==> r.state.bits == s.bits + (if s.gps > 0.0 then s.gps * ((t - last) / 1000.0) else 0.0)
  {
    if rev == Modular then
      var from := if last == 0.0 then t else last;
      Clocked(Ledger.AddBits(rev, s, Accrued(s.gps, from, t)), t)
    else
      Clocked(if s.gps > 0.0 then Ledger.AddBits(rev, s, Accrued(s.gps, last, t)) else s, t)
  }

  /** `gps * delta`, with `delta` the seconds from `from` to `t` (both in ms). */
  function Accrued(gps: real, from: real, t: real): real
  {
    gps * ((t - from) / 1000.0)
  }

  /** A run of frames at the given times. */
  function Frames(rev: Revision, s: State, last: real, ts: seq<real>): Clocked
    requires rev != Backup
    decreases |ts|
  {
    if ts == [] then Clocked(s, last)
    else
      var f := Frame(rev, s, last, ts[0]);
      Frames(rev, f.state, f.last, ts[1..])
  }

  /** What the loop pays for the time from `from` to `to` at a constant rate. */
  function Paid(rev: Revision, gps: real, from: real, to: real): real
  {
    if rev == Bundle && gps <= 0.0 then 0.0 else Accrued(gps, from, to)
  }

  /** The time the first frame counts from. */
  function Origin(rev: Revision, last: real, first: real): real
  {
    if rev == Modular && last == 0.0 then first else last
  }

  lemma FramePays(rev: Revision, s: State, last: real, t: real)
    requires rev != Backup
    ensures Frame(rev, s, last, t).state.bits == s.bits + Paid(rev, s.gps, Origin(rev, last, t), t)
  {
    if rev == Modular {
      assert Origin(rev, last, t) == if last == 0.0 then t else last;
    } else {
      assert Origin(rev, last, t) == last;
    }
  }

  lemma PaidSplit(rev: Revision, g: real, a: real, b: real, c: real)
    ensures Paid(rev, g, a, b) + Paid(rev, g, b, c) == Paid(rev, g, a, c)
  {
    assert g * ((b - a) / 1000.0) + g * ((c - b) / 1000.0) == g * ((c - a) / 1000.0);
  }

  /**
   * The frame credits telescope: over frames at nonzero times t0..tn the
   * bits grow by the rate times the time from the start (t0 in the module
   * build when nothing was remembered, else the remembered time) to tn.
   */
  lemma {:induction false} FramesTelescope(rev: Revision, s: State, last: real, ts: seq<real>)
    requires rev != Backup && ts != [] && forall i | 0 <= i < |ts| :: ts[i] != 0.0
    ensures Frames(rev, s, last, ts).state.bits == s.bits + Paid(rev, s.gps, Origin(rev, last, ts[0]), ts[|ts| - 1])
    ensures Frames(rev, s, last, ts).state.gps == s.gps && Frames(rev, s, last, ts).last == ts[|ts| - 1]
    decreases |ts|
  {
    var f := Frame(rev, s, last, ts[0]);
    FramePays(rev, s, last, ts[0]);
    var rest := ts[1..];
    assert Frames(rev, s, last, ts) == Frames(rev, f.state, f.last, rest);
    if rest != [] {
      assert forall i | 0 <= i < |rest| :: rest[i] != 0.0 by {
        forall i | 0 <= i < |rest| ensures rest[i] != 0.0 { assert rest[i] == ts[i + 1]; }
      }
      FramesTelescope(rev, f.state, f.last, rest);
      assert Origin(rev, f.last, rest[0]) == ts[0];
      assert rest[|rest| - 1] == ts[|ts| - 1];
      PaidSplit(rev, s.gps, Origin(rev, last, ts[0]), ts[0], ts[|ts| - 1]);
    }
  }

  /** What one 100 ms step of the backup build pays: a tenth of the rate, when positive. */
  function TickPay(s: State): (p: real)
    ensures s.gps > 0.0 ==> p * 10.0 == s.gps
    ensures s.gps <= 0.0 ==> p == 0.0
  {
    if s.gps > 0.0 then s.gps / 10.0 else 0.0
  }

  /** The backup build's fixed step. */
  function Tick(s: State): (r: State)
    ensures r.gps == s.gps
    ensures r.bits == s.bits + TickPay(s)
  {
    if s.gps > 0.0 then Ledger.AddBits(Backup, s, s.gps / 10.0) else s
  }

  function Ticks(s: State, n: nat): State
    decreases n
  {
    if n == 0 then s else Tick(Ticks(s, n - 1))
  }

  /** n ticks pay n times one tick's pay, at a rate they leave unchanged. */
  lemma {:induction false} TicksPay(s: State, n: nat)
    ensures Ticks(s, n).gps == s.gps
    ensures Ticks(s, n).bits == s.bits + Repeat(TickPay(s), n)
    decreases n
  {
    if n > 0 {
      TicksPay(s, n - 1);
      assert TickPay(Ticks(s, n - 1)) == TickPay(s);
    }
  }

  /** p added up n times. */
  function Repeat(p: real, n: nat): real
  {
    if n == 0 then 0.0 else Repeat(p, n - 1) + p
  }

  lemma {:induction false} RepeatIsProduct(p: real, n: nat)
    ensures Repeat(p, n) == (n as real) * p
  {
    if n > 0 {
      RepeatIsProduct(p, n - 1);
    }
  }

  /** Ten ticks are one second of output. */
  lemma TenTicksPayOneSecond(s: State)
    requires s.gps > 0.0
    ensures Ticks(s, 10).bits == s.bits + s.gps
  {
    TicksPay(s, 10);
    RepeatIsProduct(TickPay(s), 10);
  }
}
