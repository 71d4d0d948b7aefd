// The firewall penalty and the glitch bonus (spawnFirewall,
// checkFirewallInput, handleKeypadInput, clearFirewall and
// handleGlitchClick in js/game.js and script.js, the keydown listeners in
// js/main.js and script.js, and handleGlitchClick in backup/js/game.js).
// The backup build has no firewall.
module Firewall {
  import opened Wrappers
  import opened Constants
  import opened GameState
  import Ledger
  import Rates

  /** The game state together with the text of the firewall input box. */
  datatype Console = Console(state: State, input: string)

  const HexDigits := "0123456789ABCDEF"
  const InputLimit := 4
  /** Five minutes of GPS, in seconds: the reward for breaching a firewall. */
  const BreachSeconds := 300

  /** `toUpperCase()` on ASCII letters; every other character is kept. */
  function Upper(s: string): (r: string)
    ensures |r| == |s|
    ensures forall i | 0 <= i < |s| :: ('a' <= s[i] <= 'z' ==> r[i] == s[i] - 'a' + 'A')
    ensures forall i | 0 <= i < |s| :: !('a' <= s[i] <= 'z') ==> r[i] == s[i]
  {
    if s == [] then [] else [UpperChar(s[0])] + Upper(s[1..])
  }

  function UpperChar(c: char): char
  {
    if 'a' <= c <= 'z' then c - 'a' + 'A' else c
  }

  /** `text.includes(part)`: part occurs somewhere in text. */
  predicate Includes(text: string, part: string)
  {
    exists i, j | 0 <= i <= j <= |text| :: text[i..j] == part
  }

  /** A single upper-case hex digit passes the `includes` test. */
  lemma HexDigitIncluded(c: char)
    requires c in HexDigits
    ensures Includes(HexDigits, [c])
  {
    var i :| 0 <= i < |HexDigits| && HexDigits[i] == c;
    assert HexDigits[i..i + 1] == [c];
  }

  // ---------------------------------------------------------------
  // spawnFirewall

  /**
   * `spawnFirewall()` with the random code passed in: nothing while one
   * is active; otherwise the firewall goes up, is counted, the input box
   * is emptied and GPS is recomputed with the penalty.
   */
  function Spawn(rev: Revision, c: Console, code: string, now: int): (r: Console)
    requires rev != Backup
    ensures c.state.firewallActive ==> r == c
    ensures !c.state.firewallActive ==>
      r.input == "" && r.state.firewallActive && r.state.firewallCode == code &&
      r.state.statistics == c.state.statistics.(firewallsEncountered := c.state.statistics.firewallsEncountered + 1) &&
      r.state.gps == Rates.ComputeGps(rev, r.state, now)
    ensures Valid(rev, c.state) ==> Valid(rev, r.state)
  {
    var s := c.state;
    if s.firewallActive then c
    else
      var up := s.(firewallActive := true, firewallCode := code,
                   statistics := s.statistics.(firewallsEncountered := s.statistics.firewallsEncountered + 1));
      assert Valid(rev, s) ==> Valid(rev, up) by {
        if Valid(rev, s) { CountersKeepValid(rev, s, up); }
      }
      var g := Rates.RecalcGps(rev, up, now);
      Rates.RecalcGpsStable(rev, up, now);
      Console(g, "")
  }

  /** The firewall flag, its code and the counters are free of the validity invariant outside the backup build. */
  lemma CountersKeepValid(rev: Revision, s: State, t: State)
    requires rev != Backup && Valid(rev, s)
    requires t == s.(firewallActive := t.firewallActive, firewallCode := t.firewallCode, statistics := t.statistics)
    ensures Valid(rev, t)
  {}

  /** An active firewall halves the rate the same state would have without it. */
  lemma FirewallHalvesGps(rev: Revision, s: State, now: int)
    requires rev != Backup
    ensures Rates.ComputeGps(rev, s.(firewallActive := true), now)
      == 0.5 * Rates.ComputeGps(rev, s.(firewallActive := false), now)
  {}

  // ---------------------------------------------------------------
  // clearFirewall and checkFirewallInput

  /**
   * `clearFirewall()`: the firewall drops, is counted as cleared, GPS is
   * recomputed without the penalty and 300 seconds of it are credited.
   */
  function Clear(rev: Revision, s: State, now: int): (r: State)
    requires rev != Backup
    ensures !r.firewallActive
    ensures r.statistics.firewallsCleared == s.statistics.firewallsCleared + 1
    ensures r.statistics.firewallsEncountered == s.statistics.firewallsEncountered
    ensures var unhalved := Rates.ComputeGps(rev, s.(firewallActive := false), now);
      r.gps == unhalved && r.bits == s.bits + unhalved * BreachSeconds as real
    ensures Valid(rev, s) ==> Valid(rev, r)
  {
    Breach(rev, Lower(rev, s, now))
  }

  /** The firewall drops and is counted as cleared; GPS is recomputed without the penalty. */
  function Lower(rev: Revision, s: State, now: int): (r: State)
    requires rev != Backup
    ensures !r.firewallActive && r.bits == s.bits
    ensures r.statistics == s.statistics.(firewallsCleared := s.statistics.firewallsCleared + 1)
    ensures r.gps == Rates.ComputeGps(rev, s.(firewallActive := false), now)
    ensures Valid(rev, s) ==> Valid(rev, r)
  {
    var down := s.(firewallActive := false,
                   statistics := s.statistics.(firewallsCleared := s.statistics.firewallsCleared + 1));
    assert Valid(rev, s) ==> Valid(rev, down) by {
      if Valid(rev, s) { CountersKeepValid(rev, s, down); }
    }
    Rates.ComputeGpsReads(rev, s.(firewallActive := false), down, now);
    Rates.RecalcGps(rev, down, now)
  }

  /** The reward for a breach: 300 seconds of the current rate. */
  function Breach(rev: Revision, s: State): (r: State)
    ensures r.bits == s.bits + s.gps * BreachSeconds as real && r.gps == s.gps
    ensures Valid(rev, s) ==> Valid(rev, r)
  {
    Ledger.AddBitsKeepsValid(rev, s, s.gps * BreachSeconds as real);
    Ledger.AddBits(rev, s, s.gps * BreachSeconds as real)
  }

  /**
   * `checkFirewallInput()`: with a firewall up, an input whose upper-case
   * form is the code clears it and empties the box; anything else changes nothing.
   */
  function Check(rev: Revision, c: Console, now: int): (r: Console)
    requires rev != Backup
    ensures c.state.firewallActive && Upper(c.input) == c.state.firewallCode ==>
      r == Console(Clear(rev, c.state, now), "")
    ensures !(c.state.firewallActive && Upper(c.input) == c.state.firewallCode) ==> r == c
    ensures Valid(rev, c.state) ==> Valid(rev, r.state)
  {
    if c.state.firewallActive && Upper(c.input) == c.state.firewallCode then
      Console(Clear(rev, c.state, now), "")
    else c
  }

  // ---------------------------------------------------------------
  // The on-screen keypad and the keyboard

  /**
   * `handleKeypadInput(key)`: CLR empties the box, OK checks it, any other
   * button appends its label while the box is shorter than four and checks.
   */
  function Keypad(rev: Revision, c: Console, key: string, now: int): (r: Console)
    requires rev != Backup
    ensures key == "CLR" ==> r == c.(input := "")
    ensures key == "OK" ==> r == Check(rev, c, now)
    ensures key != "CLR" && key != "OK" && |c.input| >= InputLimit ==> r == c
    ensures key != "CLR" && key != "OK" && |c.input| < InputLimit ==>
      r == Check(rev, c.(input := c.input + key), now)
  {
    if key == "CLR" then c.(input := "")
    else if key == "OK" then Check(rev, c, now)
    else if |c.input| < InputLimit then Check(rev, c.(input := c.input + key), now)
    else c
  }

  /**
   * The keydown listener. The module build tests the hex digits first
   * (`includes`, so any substring of them passes), then Backspace, then
   * Enter; script.js tests Backspace and Enter first and accepts only a
   * single hex character. Keys do nothing while no firewall is up.
   */
  function KeyDown(rev: Revision, c: Console, key: string, now: int): (r: Console)
    requires rev != Backup
    ensures !c.state.firewallActive ==> r == c
  {
    if !c.state.firewallActive then c
    else
      var up := Upper(key);
      if rev == Modular then
        if Includes(HexDigits, up) && |c.input| < InputLimit then Check(rev, c.(input := c.input + up), now)
        else if key == "Backspace" then c.(input := DropLast(c.input))
        else if key == "Enter" then Check(rev, c, now)
        else c
      else
        if key == "Backspace" then c.(input := DropLast(c.input))
        else if key == "Enter" then Check(rev, c, now)
        else if Includes(HexDigits, up) && |up| == 1 && |c.input| < InputLimit then
          Check(rev, c.(input := c.input + up), now)
        else c
  }

  /** `value.slice(0, -1)`. */
  function DropLast(s: string): (r: string)
    ensures s == [] ==> r == []
    ensures s != [] ==> s == r + [s[|s| - 1]]
  {
    if s == [] then [] else s[..|s| - 1]
  }

  /** Keypad buttons carry one character or a command: the box never holds more than four characters. */
  lemma KeypadKeepsLimit(rev: Revision, c: Console, key: string, now: int)
    requires rev != Backup && |c.input| <= InputLimit && (|key| <= 1 || key == "CLR" || key == "OK")
    ensures |Keypad(rev, c, key, now).input| <= InputLimit
    ensures Valid(rev, c.state) ==> Valid(rev, Keypad(rev, c, key, now).state)
  {}

  /**
   * Every keyboard key the browser reports is one character or a named key,
   * and no named key upper-cases to a run of hex digits: the box never
   * holds more than four characters.
   */
  lemma KeyDownKeepsLimit(rev: Revision, c: Console, key: string, now: int)
    requires rev != Backup && |c.input| <= InputLimit
    requires |key| <= 1 || !Includes(HexDigits, Upper(key))
    ensures |KeyDown(rev, c, key, now).input| <= InputLimit
    ensures Valid(rev, c.state) ==> Valid(rev, KeyDown(rev, c, key, now).state)
  {}

  /** Typing the code in lower case on the keyboard clears the firewall on the fourth key. */
  lemma TypingCodeClears(rev: Revision, s: State, now: int, k: char)
    requires rev != Backup && s.firewallActive && |s.firewallCode| == 4
    requires s.firewallCode[..3] == Upper(s.firewallCode[..3])
    requires 'a' <= k <= 'z' && s.firewallCode[3] == k - 'a' + 'A' && s.firewallCode[3] in HexDigits
    ensures KeyDown(rev, Console(s, s.firewallCode[..3]), [k], now) == Console(Clear(rev, s, now), "")
  {
    var c := Console(s, s.firewallCode[..3]);
    var up := Upper([k]);
    assert up == [s.firewallCode[3]];
    HexDigitIncluded(s.firewallCode[3]);
    var code := s.firewallCode;
    assert c.input + up == code;
    assert Upper(code) == code by {
      assert code == code[..3] + [code[3]];
      UpperAppend(code[..3], [code[3]]);
    }
  }

  lemma {:induction false} UpperAppend(a: string, b: string)
    ensures Upper(a + b) == Upper(a) + Upper(b)
  {
    if a == [] {
      assert a + b == b;
    } else {
      assert (a + b)[0] == a[0] && (a + b)[1..] == a[1..] + b;
      UpperAppend(a[1..], b);
      calc {
        Upper(a + b);
        [UpperChar(a[0])] + Upper(a[1..] + b);
        [UpperChar(a[0])] + (Upper(a[1..]) + Upper(b));
        ([UpperChar(a[0])] + Upper(a[1..])) + Upper(b);
      }
    }
  }

  // ---------------------------------------------------------------
  // handleGlitchClick

  /** The reward a glitch pays before skills: 1 to 5 cryptos. */
  predicate GlitchRoll(base: int)
  {
    GlitchMinReward <= base <= GlitchMaxReward
  }

  /**
   * `handleGlitchClick()` with the random roll passed in; the module build
   * adds the crypto_magnet level (`skills.crypto_magnet || 0`).
   */
  function Glitch(rev: Revision, s: State, base: int): (r: State)
    requires GlitchRoll(base)
    ensures r == s.(cryptos := r.cryptos)
    ensures rev != Modular ==> r.cryptos == s.cryptos + base
    ensures rev == Modular ==> r.cryptos == s.cryptos + base + SkillLookup(s.skills, "crypto_magnet").GetOr(0)
  {
    var bonus := if rev == Modular then SkillLookup(s.skills, "crypto_magnet").GetOr(0) else 0;
    s.(cryptos := s.cryptos + base + bonus)
  }

  /** A glitch in a valid state pays between 1 and 5 + 3 cryptos and keeps the state valid. */
  lemma GlitchPays(rev: Revision, s: State, base: int)
    requires Valid(rev, s) && GlitchRoll(base)
    ensures var r := Glitch(rev, s, base);
      Valid(rev, r) && s.cryptos + 1 <= r.cryptos <= s.cryptos + 8
  {
    MagnetBound(rev, s.skills);
  }

  /** An aligned skill map holds crypto_magnet at a level from 0 to its maximum 3. */
  lemma MagnetBound(rev: Revision, skills: seq<SkillLevel>)
    requires SkillsAligned(rev, skills)
    ensures 0 <= SkillLookup(skills, "crypto_magnet").GetOr(0) <= 3
  {
    if SkillLookup(skills, "crypto_magnet").Some? {
      var i := Find(SkillKeys(skills), "crypto_magnet").value;
      assert SkillIds(SkillTree(rev))[i] == "crypto_magnet";
      assert SkillTree(rev)[i].maxLevel == 3;
    }
  }
}
