// Earning bits and the passes that follow every credit (addBits,
// checkUnlocks and checkStoryEvents in js/game.js, script.js and
// backup/js/game.js).
module Ledger {
  import opened Constants
  import opened GameState

  // ---------------------------------------------------------------
  // checkUnlocks

  /** Achievement i's turn: a locked one whose condition holds of the current state unlocks and pays its reward. */
  function UnlockStep(rev: Revision, s: State, i: nat): State
    requires i < |s.achievements|
  {
    var a := s.achievements[i];
    if !a.unlocked && Holds(rev, a.condition, s) then
      s.(achievements := s.achievements[i := a.(unlocked := true)], cryptos := s.cryptos + a.reward)
    else s
  }

  /** The total reward of the achievements locked in `before` and unlocked in `after`. */
  function Gained(before: seq<Achievement>, after: seq<Achievement>): (g: int)
    requires |before| == |after|
    ensures g >= 0
  {
    if before == [] then 0
    else (if !before[0].unlocked && after[0].unlocked then after[0].reward else 0) + Gained(before[1..], after[1..])
  }

  /** Two lists of the same achievements where `b` only adds unlocks to `a`. */
  ghost predicate OnlyUnlocks(a: seq<Achievement>, b: seq<Achievement>)
  {
    |a| == |b| &&
    forall k | 0 <= k < |a| :: b[k] == a[k].(unlocked := b[k].unlocked) && (a[k].unlocked ==> b[k].unlocked)
  }

  lemma OnlyUnlocksChain(a: seq<Achievement>, b: seq<Achievement>, c: seq<Achievement>)
    requires OnlyUnlocks(a, b) && OnlyUnlocks(b, c)
    ensures OnlyUnlocks(a, c)
  {}

  lemma {:induction false} GainedChain(a: seq<Achievement>, b: seq<Achievement>, c: seq<Achievement>)
    requires OnlyUnlocks(a, b) && OnlyUnlocks(b, c)
    ensures Gained(a, c) == Gained(a, b) + Gained(b, c)
  {
    if a != [] {
      assert OnlyUnlocks(a[1..], b[1..]) && OnlyUnlocks(b[1..], c[1..]);
      GainedChain(a[1..], b[1..], c[1..]);
    }
  }

  lemma {:induction false} GainedOne(a: seq<Achievement>, i: nat)
    requires i < |a| && !a[i].unlocked
    ensures Gained(a, a[i := a[i].(unlocked := true)]) == a[i].reward
  {
    var b := a[i := a[i].(unlocked := true)];
    if i > 0 {
      assert b[1..] == a[1..][i - 1 := a[i].(unlocked := true)];
      GainedOne(a[1..], i - 1);
    } else {
      assert b[1..] == a[1..];
      GainedNone(a[1..]);
    }
  }

  lemma {:induction false} GainedNone(a: seq<Achievement>)
    ensures Gained(a, a) == 0
  {
    if a != [] { GainedNone(a[1..]); }
  }

  /** The state differs from `s` at most in its achievement flags and its cryptos. */
  ghost predicate SameButAchievements(s: State, r: State)
  {
    r == s.(achievements := r.achievements, cryptos := r.cryptos)
  }

  /**
   * Conditions other than a crypto threshold read neither the flags nor
   * the cryptos, so their truth survives an unlock pass.
   */
  lemma HoldsIgnoresUnlocks(rev: Revision, c: Condition, s: State, r: State)
    requires SameButAchievements(s, r) && !c.CryptosAtLeast?
    ensures Holds(rev, c, s) == Holds(rev, c, r)
  {}

  lemma UnlockStepGain(rev: Revision, s: State, i: nat)
    requires i < |s.achievements|
    ensures var t := UnlockStep(rev, s, i);
      SameButAchievements(s, t) && OnlyUnlocks(s.achievements, t.achievements) &&
      t.cryptos == s.cryptos + Gained(s.achievements, t.achievements) &&
      forall k | 0 <= k < |s.achievements| && k != i :: t.achievements[k] == s.achievements[k]
  {
    if UnlockStep(rev, s, i) != s { GainedOne(s.achievements, i); } else { GainedNone(s.achievements); }
  }

  /** `achievements.forEach(...)` from position i on. */
  function UnlockFrom(rev: Revision, s: State, i: nat): (r: State)
    requires i <= |s.achievements|
    // only flags and cryptos change; flags only go from locked to unlocked
    ensures SameButAchievements(s, r) && OnlyUnlocks(s.achievements, r.achievements)
    ensures forall k | 0 <= k < i :: r.achievements[k] == s.achievements[k]
    // the cryptos grow by exactly the rewards of what was unlocked
    ensures r.cryptos == s.cryptos + Gained(s.achievements, r.achievements)
    decreases |s.achievements| - i
  {
    if i == |s.achievements| then
      GainedNone(s.achievements);
      s
    else
      var t := UnlockStep(rev, s, i);
      var r := UnlockFrom(rev, t, i + 1);
      UnlockStepGain(rev, s, i);
      GainedChain(s.achievements, t.achievements, r.achievements);
      r
  }

  /** Every achievement a pass unlocks has its condition true of the state the pass ends in. */
  lemma {:induction false} UnlockSound(rev: Revision, s: State, i: nat, k: nat)
    requires i <= k < |s.achievements|
    requires !s.achievements[k].unlocked && UnlockFrom(rev, s, i).achievements[k].unlocked
    ensures Holds(rev, s.achievements[k].condition, UnlockFrom(rev, s, i))
    decreases |s.achievements| - i
  {
    var t := UnlockStep(rev, s, i);
    var r := UnlockFrom(rev, t, i + 1);
    var c := s.achievements[k].condition;
    if k == i {
      assert t.achievements[k].unlocked;
      if c.CryptosAtLeast? {
        assert t.cryptos <= r.cryptos;
      } else {
        HoldsIgnoresUnlocks(rev, c, t, r);
      }
    } else {
      assert t.achievements[k] == s.achievements[k];
      UnlockSound(rev, t, i + 1, k);
    }
  }

  /**
   * Every achievement a pass leaves locked, unless it tests the cryptos,
   * has its condition false of the state the pass ends in.
   */
  lemma {:induction false} UnlockComplete(rev: Revision, s: State, i: nat, k: nat)
    requires i <= k < |s.achievements|
    requires !UnlockFrom(rev, s, i).achievements[k].unlocked
    requires !s.achievements[k].condition.CryptosAtLeast?
    ensures !Holds(rev, s.achievements[k].condition, UnlockFrom(rev, s, i))
    decreases |s.achievements| - i
  {
    var t := UnlockStep(rev, s, i);
    var r := UnlockFrom(rev, t, i + 1);
    if k == i {
      assert !t.achievements[k].unlocked;
      HoldsIgnoresUnlocks(rev, s.achievements[k].condition, s, r);
    } else {
      assert t.achievements[k] == s.achievements[k];
      UnlockComplete(rev, t, i + 1, k);
    }
  }

  function CheckUnlocks(rev: Revision, s: State): (r: State)
    ensures SameButAchievements(s, r) && OnlyUnlocks(s.achievements, r.achievements)
    ensures r.cryptos == s.cryptos + Gained(s.achievements, r.achievements)
  {
    UnlockFrom(rev, s, 0)
  }

  // ---------------------------------------------------------------
  // checkStoryEvents

  function StoryStep(rev: Revision, s: State, i: nat): State
    requires i < |s.storyEvents|
  {
    var e := s.storyEvents[i];
    if !e.triggered && Holds(rev, e.condition, s) then
      s.(storyEvents := s.storyEvents[i := e.(triggered := true)])
    else s
  }

  ghost predicate SameButStory(s: State, r: State)
  {
    r == s.(storyEvents := r.storyEvents) && |r.storyEvents| == |s.storyEvents| &&
    forall k | 0 <= k < |s.storyEvents| ::
      r.storyEvents[k] == s.storyEvents[k].(triggered := r.storyEvents[k].triggered) &&
      (s.storyEvents[k].triggered ==> r.storyEvents[k].triggered)
  }

  lemma HoldsIgnoresStory(rev: Revision, c: Condition, s: State, r: State)
    requires r == s.(storyEvents := r.storyEvents)
    ensures Holds(rev, c, s) == Holds(rev, c, r)
  {}

  /** `storyEvents.forEach(...)` from position i on: an event fires exactly when its condition holds. */
  function StoryFrom(rev: Revision, s: State, i: nat): (r: State)
    requires i <= |s.storyEvents|
    ensures SameButStory(s, r)
    ensures forall k | 0 <= k < i :: r.storyEvents[k] == s.storyEvents[k]
    ensures forall k | i <= k < |s.storyEvents| ::
      r.storyEvents[k].triggered == (s.storyEvents[k].triggered || Holds(rev, s.storyEvents[k].condition, s))
    decreases |s.storyEvents| - i
  {
    if i == |s.storyEvents| then s
    else
      var t := StoryStep(rev, s, i);
      HoldsIgnoresStoryAll(rev, s, t);
      StoryStepFacts(rev, s, i);
      var r := StoryFrom(rev, t, i + 1);
      SameButStoryChain(s, t, r);
      r
  }

  lemma StoryStepFacts(rev: Revision, s: State, i: nat)
    requires i < |s.storyEvents|
    ensures var t := StoryStep(rev, s, i);
      SameButStory(s, t) &&
      (forall k | 0 <= k < |s.storyEvents| && k != i :: t.storyEvents[k] == s.storyEvents[k]) &&
      t.storyEvents[i].triggered == (s.storyEvents[i].triggered || Holds(rev, s.storyEvents[i].condition, s))
  {}

  lemma SameButStoryChain(a: State, b: State, c: State)
    requires SameButStory(a, b) && SameButStory(b, c)
    ensures SameButStory(a, c)
  {}

  lemma HoldsIgnoresStoryAll(rev: Revision, s: State, r: State)
    requires r == s.(storyEvents := r.storyEvents)
    ensures forall c :: Holds(rev, c, s) == Holds(rev, c, r)
  {
    forall c { HoldsIgnoresStory(rev, c, s, r); }
  }

  function CheckStoryEvents(rev: Revision, s: State): (r: State)
    ensures SameButStory(s, r)
    ensures forall k | 0 <= k < |s.storyEvents| ::
      r.storyEvents[k].triggered == (s.storyEvents[k].triggered || Holds(rev, s.storyEvents[k].condition, s))
  {
    StoryFrom(rev, s, 0)
  }

  /** A second story pass right after the first fires nothing. */
  lemma StoryIdempotent(rev: Revision, s: State)
    ensures CheckStoryEvents(rev, CheckStoryEvents(rev, s)) == CheckStoryEvents(rev, s)
  {
    var r := CheckStoryEvents(rev, s);
    var r2 := CheckStoryEvents(rev, r);
    HoldsIgnoresStoryAll(rev, s, r);
    assert r2.storyEvents == r.storyEvents;
  }

  // ---------------------------------------------------------------
  // addBits

  /** The first half of `addBits`: the balance, the lifetime total and, outside the backup build, the statistic grow by the amount. */
  function Credit(rev: Revision, s: State, amount: real): State
  {
    s.(bits := s.bits + amount, lifetimeBits := s.lifetimeBits + amount,
       statistics := if rev == Backup then s.statistics
                     else s.statistics.(totalBitsEarned := s.statistics.totalBitsEarned + amount))
  }

  /**
   * `addBits(amount)`: the credit, then the achievement pass and, in the
   * module build, the story pass. Backup keeps no statistics.
   */
  function AddBits(rev: Revision, s: State, amount: real): (r: State)
    ensures r.bits == s.bits + amount && r.lifetimeBits == s.lifetimeBits + amount
    ensures r.statistics.totalBitsEarned ==
      if rev == Backup then s.statistics.totalBitsEarned else s.statistics.totalBitsEarned + amount
    ensures r.cryptos >= s.cryptos && OnlyUnlocks(s.achievements, r.achievements)
    ensures r.gps == s.gps && r.upgrades == s.upgrades && r.rootAccessLevel == s.rootAccessLevel
    ensures r.skills == s.skills && r.activeBoosts == s.activeBoosts && r.firewallActive == s.firewallActive
    ensures r.statistics == s.statistics.(totalBitsEarned := r.statistics.totalBitsEarned)
  {
    var unlocked := CheckUnlocks(rev, Credit(rev, s, amount));
    if rev == Modular then CheckStoryEvents(rev, unlocked) else unlocked
  }

  /** Crediting a non-negative amount keeps a valid state valid. */
  lemma AddBitsKeepsValid(rev: Revision, s: State, amount: real)
    ensures Valid(rev, s) && amount >= 0.0 ==> Valid(rev, AddBits(rev, s, amount))
  {
    if Valid(rev, s) && amount >= 0.0 {
      var u := CheckUnlocks(rev, Credit(rev, s, amount));
      UnlocksKeepAligned(rev, s.achievements, u.achievements);
      if rev == Modular {
        StoryKeepsAligned(rev, u, CheckStoryEvents(rev, u));
      }
    }
  }

  lemma UnlocksKeepAligned(rev: Revision, a: seq<Achievement>, b: seq<Achievement>)
    requires AchievementsAligned(rev, a) && OnlyUnlocks(a, b)
    ensures AchievementsAligned(rev, b)
  {}

  lemma StoryKeepsAligned(rev: Revision, s: State, r: State)
    requires StoryAligned(rev, s.storyEvents) && SameButStory(s, r)
    ensures StoryAligned(rev, r.storyEvents)
  {}

  /**
   * A locked click achievement unlocks during `addBits` exactly when the
   * click count has already reached it: the credit does not count clicks.
   */
  lemma AddBitsClickAchievement(rev: Revision, s: State, amount: real, k: nat)
    requires k < |s.achievements| && !s.achievements[k].unlocked && s.achievements[k].condition.ClicksAtLeast?
    ensures AddBits(rev, s, amount).achievements[k].unlocked <==>
      s.statistics.totalClicks >= s.achievements[k].condition.clicks
  {
    var credited := Credit(rev, s, amount);
    assert credited.statistics.totalClicks == s.statistics.totalClicks;
    var u := CheckUnlocks(rev, credited);
    assert AddBits(rev, s, amount).achievements == u.achievements;
    if u.achievements[k].unlocked {
      UnlockSound(rev, credited, 0, k);
    } else {
      UnlockComplete(rev, credited, 0, k);
    }
  }
}
