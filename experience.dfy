/**
 * The experience and levelling state machine of the player character
 * (ATAM_CWCharacter), as values. Every operation of the character that
 * touches progression is a function from the old state to the new one;
 * the class in character.dfy is proved to perform exactly these updates.
 *
 * Floats are modelled by `real`. A float quotient whose divisor is zero is
 * not a number in the reals, so the one cached quotient (ExpPercentage) is
 * a `Quotient` that is either finite or non-finite (IEEE inf or NaN).
 */
module Experience {

  /** Result of a float division `n / d`: a real when `d != 0`, otherwise inf or NaN. */
  datatype Quotient = Finite(value: real) | NonFinite

  function Divide(n: real, d: real): (q: Quotient)
    ensures q.Finite? <==> d != 0.0
    ensures q.Finite? ==> q.value * d == n
  {
    if d == 0.0 then NonFinite else Finite(n / d)
  }

  /** C's `round`: the nearest integer, halfway cases rounded away from zero. */
  function Round(x: real): (r: int)
    ensures x >= 0.0 ==> r as real - 0.5 <= x < r as real + 0.5
    ensures x < 0.0 ==> r as real - 0.5 < x <= r as real + 0.5
  {
    if x >= 0.0 then (x + 0.5).Floor else -((-x + 0.5).Floor)
  }

  /** The two bounds of Round determine its value: it is the one half-away-from-zero rounding. */
  lemma RoundIsUnique(x: real, n: int)
    requires x >= 0.0 ==> n as real - 0.5 <= x < n as real + 0.5
    requires x < 0.0 ==> n as real - 0.5 < x <= n as real + 0.5
    ensures n == Round(x)
  {
  }

  function Pow(b: real, n: nat): (p: real)
  {
    if n == 0 then 1.0 else b * Pow(b, n - 1)
  }

  /** Experience granted by the debug action AddExp. */
  const DebugExp: real := 20.0
  /** Experience granted by a pickup on overlap (PickUp.cpp). */
  const PickUpExp: real := 30.0

  /** The one save slot: ExpProgressData = [exp, maxExp], LevelProgressData = [level, skillPoints]. */
  datatype Snapshot = Snapshot(exp: real, maxExp: real, level: int, skillPoints: int)

  /**
   * The progression fields of the character. `levelUpTimers` counts the
   * times a level-up has armed the one-shot "Level Up!" message timer.
   */
  datatype CharacterState = CharacterState(
    currentLevel: int,
    skillPoints: int,
    levelCap: int,
    currentExp: real,
    maxExp: real,
    expGrowth: real,
    expLeft: real,
    expPercentage: Quotient,
    expOverflow: real,
    previousCurrentExp: real,
    saved: Snapshot,
    hasSaved: bool,
    levelUpTimers: nat)

  /**
   * The invariant every operation keeps: the level lies between 1 and the
   * cap; the growth factor is at least 1; below the cap the threshold is
   * positive and the cached ExpLeft and ExpPercentage agree with CurrentExp
   * and MaxExp; and a filled save slot holds a state of the same kind.
   */
  predicate Valid(c: CharacterState)
  {
    && 1 <= c.currentLevel <= c.levelCap
    && c.expGrowth >= 1.0
    && (c.currentLevel < c.levelCap ==>
          && c.maxExp > 0.0
          && c.expLeft == c.maxExp - c.currentExp
          && c.expPercentage == Divide(c.currentExp, c.maxExp))
    && (c.hasSaved ==>
          && 1 <= c.saved.level <= c.levelCap
          && (c.saved.level < c.levelCap ==> c.saved.maxExp > 0.0))
  }

  /** The state BeginPlay leaves: an empty, zeroed save slot and no timer armed yet. */
  function Initial(): (c: CharacterState)
    ensures Valid(c)
    ensures c.currentLevel == 1 && c.skillPoints == 0 && c.levelCap == 100
    ensures c.maxExp == 100.0 && c.currentExp == 0.0 && c.expGrowth == 1.2
    ensures c.expLeft == c.maxExp && c.expPercentage == Finite(0.0)
    ensures c.previousCurrentExp == 0.0 && c.expOverflow == 0.0 && c.levelUpTimers == 0
    ensures !c.hasSaved && c.saved == Snapshot(0.0, 0.0, 0, 0)
  {
    CharacterState(1, 0, 100, 0.0, 100.0, 1.2, 100.0, Finite(0.0), 0.0, 0.0,
                   Snapshot(0.0, 0.0, 0, 0), false, 0)
  }

  // ---------------------------------------------------------------------
  // Operations

  /** Grants `delta` experience unless the cap is reached. */
  function UpdateExp(c: CharacterState, delta: real): (r: CharacterState)
    ensures c.currentLevel >= c.levelCap ==> r == c
    ensures c.currentLevel < c.levelCap ==>
              && r.previousCurrentExp == c.currentExp
              && r.currentExp == c.currentExp + delta
              && r.expLeft == r.maxExp - r.currentExp
              && r.expPercentage == Divide(r.currentExp, r.maxExp)
              && r == c.(previousCurrentExp := r.previousCurrentExp, currentExp := r.currentExp,
                         expLeft := r.expLeft, expPercentage := r.expPercentage)
  {
    if c.currentLevel < c.levelCap then
      var exp := c.currentExp + delta;
      c.(previousCurrentExp := c.currentExp, currentExp := exp,
         expLeft := c.maxExp - exp, expPercentage := Divide(exp, c.maxExp))
    else
      c
  }

  /** The debug action: a grant of 20, with the same cap guard. */
  function AddExp(c: CharacterState): (r: CharacterState)
    ensures c.currentLevel >= c.levelCap ==> r == c
    ensures c.currentLevel < c.levelCap ==>
              && r.currentExp == c.currentExp + 20.0
              && r.previousCurrentExp == c.currentExp
              && r.expLeft == r.maxExp - r.currentExp
              && r.expPercentage == Divide(r.currentExp, r.maxExp)
              && r == c.(previousCurrentExp := r.previousCurrentExp, currentExp := r.currentExp,
                         expLeft := r.expLeft, expPercentage := r.expPercentage)
  {
    UpdateExp(c, DebugExp)
  }

  /**
   * Carries the experience beyond the threshold into the next level,
   * rounded, and sets ExpLeft against the threshold the level-up is about
   * to grow to. Over the reals the equality branch is the rounded excess
   * too: the carried experience is always round(CurrentExp - MaxExp), within
   * half a point of the true excess.
   */
  function BufferExp(c: CharacterState): (r: CharacterState)
    ensures r.currentExp == Round(c.currentExp - c.maxExp) as real
    ensures -0.5 <= r.currentExp - (c.currentExp - c.maxExp) <= 0.5
    ensures r.expLeft == c.maxExp * c.expGrowth - r.currentExp
    ensures r.expOverflow == if c.currentExp != c.maxExp then 0.0 else c.expOverflow
    ensures r == c.(currentExp := r.currentExp, expLeft := r.expLeft, expOverflow := r.expOverflow)
  {
    var carried :=
      if c.currentExp != c.maxExp then
        c.(currentExp := Round(c.currentExp - c.maxExp) as real, expOverflow := 0.0)
      else
        c.(currentExp := 0.0);
    carried.(expLeft := c.maxExp * c.expGrowth - carried.currentExp)
  }

  function LevelUp(c: CharacterState): (r: CharacterState)
    ensures r.currentLevel == c.currentLevel + 1
    ensures r.skillPoints == c.skillPoints + 1
    ensures r.maxExp == c.maxExp * c.expGrowth
    ensures r.currentExp == Round(c.currentExp - c.maxExp) as real
    ensures r.expLeft == r.maxExp - r.currentExp
    ensures r.expPercentage == Divide(r.currentExp, r.maxExp)
    ensures r.levelUpTimers == c.levelUpTimers + 1
    ensures r.levelCap == c.levelCap && r.expGrowth == c.expGrowth
    ensures r.saved == c.saved && r.hasSaved == c.hasSaved
    ensures r.previousCurrentExp == c.previousCurrentExp
    ensures r.expOverflow == if c.currentExp != c.maxExp then 0.0 else c.expOverflow
  {
    GrowThreshold(BufferExp(RaiseLevel(c)))
  }

  /** The first two statements of LevelUp: one more level and one more skill point. */
  function RaiseLevel(c: CharacterState): (r: CharacterState)
  {
    c.(currentLevel := c.currentLevel + 1, skillPoints := c.skillPoints + 1)
  }

  /** The statements of LevelUp after BufferExp: grow the threshold, refresh the bar, arm the timer. */
  function GrowThreshold(c: CharacterState): (r: CharacterState)
  {
    var grown := c.maxExp * c.expGrowth;
    c.(maxExp := grown, expPercentage := Divide(c.currentExp, grown), levelUpTimers := c.levelUpTimers + 1)
  }

  /**
   * Freezes the threshold at the current experience at the cap. ExpPercentage
   * is not refreshed, so the bar keeps the fraction it last had.
   */
  function LevelCapped(c: CharacterState): (r: CharacterState)
    ensures r.maxExp == c.currentExp && r.expOverflow == c.currentExp
    ensures r == c.(maxExp := r.maxExp, expOverflow := r.expOverflow)
  {
    c.(maxExp := c.currentExp, expOverflow := c.currentExp)
  }

  /**
   * One engine frame: at most one level-up, exactly when the threshold is
   * reached below the cap, then the cap check, which freezes the threshold.
   */
  function Tick(c: CharacterState): (r: CharacterState)
    ensures c.currentLevel <= r.currentLevel <= c.currentLevel + 1
    ensures r.currentLevel == c.currentLevel + 1 <==> c.currentExp >= c.maxExp && c.currentLevel < c.levelCap
    ensures r.skillPoints - c.skillPoints == r.currentLevel - c.currentLevel
    ensures r.levelUpTimers - c.levelUpTimers == r.currentLevel - c.currentLevel
    ensures c.currentLevel >= c.levelCap ==> r == LevelCapped(c)
    ensures c.currentLevel < c.levelCap && c.currentExp < c.maxExp ==> r == c
    ensures c.currentExp >= c.maxExp && c.currentLevel + 1 < c.levelCap ==> r == LevelUp(c)
    ensures c.currentExp >= c.maxExp && c.currentLevel + 1 == c.levelCap ==> r == LevelCapped(LevelUp(c))
    ensures r.currentLevel >= r.levelCap ==> r.maxExp == r.currentExp
    ensures r.levelCap == c.levelCap && r.expGrowth == c.expGrowth
    ensures r.saved == c.saved && r.hasSaved == c.hasSaved
  {
    var levelled := if c.currentExp >= c.maxExp && c.currentLevel < c.levelCap then LevelUp(c) else c;
    if levelled.currentLevel >= levelled.levelCap then LevelCapped(levelled) else levelled
  }

  function SaveData(c: CharacterState, exp: real, maxExp: real, level: int, skillPoints: int): (r: CharacterState)
    ensures r.saved == Snapshot(exp, maxExp, level, skillPoints)
    ensures r == c.(saved := r.saved)
  {
    c.(saved := Snapshot(exp, maxExp, level, skillPoints))
  }

  function SaveGame(c: CharacterState): (r: CharacterState)
    ensures r.hasSaved
    ensures r.saved.exp == c.currentExp && r.saved.maxExp == c.maxExp
    ensures r.saved.level == c.currentLevel && r.saved.skillPoints == c.skillPoints
    ensures r == c.(saved := r.saved, hasSaved := true)
  {
    SaveData(c, c.currentExp, c.maxExp, c.currentLevel, c.skillPoints).(hasSaved := true)
  }

  function LoadData(c: CharacterState): (r: CharacterState)
    ensures !c.hasSaved ==> r == c
    ensures c.hasSaved ==>
              && r.currentExp == c.saved.exp && r.maxExp == c.saved.maxExp
              && r.currentLevel == c.saved.level && r.skillPoints == c.saved.skillPoints
              && r.expLeft == r.maxExp - r.currentExp
              && r.expPercentage == Divide(r.currentExp, r.maxExp)
              && r == c.(currentExp := r.currentExp, maxExp := r.maxExp, currentLevel := r.currentLevel,
                         skillPoints := r.skillPoints, expLeft := r.expLeft, expPercentage := r.expPercentage)
  {
    if c.hasSaved then
      var s := c.saved;
      c.(currentExp := s.exp, maxExp := s.maxExp, currentLevel := s.level, skillPoints := s.skillPoints,
         expPercentage := Divide(s.exp, s.maxExp), expLeft := s.maxExp - s.exp)
    else
      c
  }

  /** Charges `cost` points when any are left; the amount itself is not checked. */
  function SkillPointsCost(c: CharacterState, cost: int): (r: CharacterState)
    ensures c.skillPoints > 0 ==> r.skillPoints == c.skillPoints - cost
    ensures c.skillPoints <= 0 ==> r == c
    ensures r == c.(skillPoints := r.skillPoints)
  {
    if c.skillPoints > 0 then c.(skillPoints := c.skillPoints - cost) else c
  }

  /** Charges one point when any are left. */
  function SpendSkillPoints(c: CharacterState): (r: CharacterState)
    ensures c.skillPoints > 0 ==> r.skillPoints == c.skillPoints - 1
    ensures c.skillPoints <= 0 ==> r == c
    ensures r == c.(skillPoints := r.skillPoints)
  {
    SkillPointsCost(c, 1)
  }

  // ---------------------------------------------------------------------
  // Event sequences: what the bound inputs and the engine loop can do

  datatype Event =
    | ExpGained(amount: real)          // UpdateExp, from pickups and other game code
    | AddExpPressed                    // the AddExp debug action
    | Ticked                           // one frame of the engine loop
    | SavePressed                      // the SaveExp action (SaveGame)
    | LoadPressed                      // the LoadExp action (LoadData)
    | SkillPointsCharged(cost: int)    // SkillPointsCost
    | SkillPointSpent                  // SpendSkillPoints

  function Step(c: CharacterState, e: Event): (r: CharacterState)
  {
    match e
    case ExpGained(amount) => UpdateExp(c, amount)
    case AddExpPressed => AddExp(c)
    case Ticked => Tick(c)
    case SavePressed => SaveGame(c)
    case LoadPressed => LoadData(c)
    case SkillPointsCharged(cost) => SkillPointsCost(c, cost)
    case SkillPointSpent => SpendSkillPoints(c)
  }

  function Run(c: CharacterState, events: seq<Event>): (r: CharacterState)
    decreases |events|
  {
    if events == [] then c else Run(Step(c, events[0]), events[1..])
  }

  /** Only experience gains and frames: the events that drive progression. */
  predicate ProgressOnly(events: seq<Event>)
  {
    forall i :: 0 <= i < |events| ==> events[i].ExpGained? || events[i].AddExpPressed? || events[i].Ticked?
  }

  predicate NoSave(events: seq<Event>)
  {
    forall i :: 0 <= i < |events| ==> !events[i].SavePressed?
  }

  // ---------------------------------------------------------------------
  // Properties

  /**
   * A surplus worth more than one level is not lost: the rounded overflow
   * stays in CurrentExp, so the next frame levels up again as long as it
   * still reaches the grown threshold below the cap.
   */
  lemma SurplusCarriesToNextTick(c: CharacterState)
    requires c.currentExp >= c.maxExp && c.currentLevel + 1 < c.levelCap
    ensures var t := Tick(c);
      t.currentLevel == c.currentLevel + 1 &&
      (Tick(t).currentLevel == c.currentLevel + 2 <==> Round(c.currentExp - c.maxExp) as real >= c.maxExp * c.expGrowth)
  {
    var t := Tick(c);
    assert t == LevelUp(c);
    assert t.currentExp == Round(c.currentExp - c.maxExp) as real && t.maxExp == c.maxExp * c.expGrowth;
    assert t.currentLevel < t.levelCap;
  }

  /** At the cap Tick only freezes the threshold, and doing so twice is the same as once. */
  lemma TickAtCapFreezes(c: CharacterState)
    requires c.currentLevel >= c.levelCap
    ensures Tick(c) == LevelCapped(c)
    ensures LevelCapped(LevelCapped(c)) == LevelCapped(c)
    ensures Tick(Tick(c)) == Tick(c)
  {
  }

  lemma StepPreservesValid(c: CharacterState, e: Event)
    requires Valid(c)
    ensures Valid(Step(c, e))
  {
  }

  lemma {:induction false} RunPreservesValid(c: CharacterState, events: seq<Event>)
    requires Valid(c)
    ensures Valid(Run(c, events))
    decreases |events|
  {
    if events != [] {
      StepPreservesValid(c, events[0]);
      RunPreservesValid(Step(c, events[0]), events[1..]);
    }
  }

  /**
   * `r` is reachable from `c` by progression alone: the level has not gone
   * down and stays within the cap, each level gained brought exactly one
   * skill point and one level-up message, and below the cap the threshold
   * has grown by the growth factor once per level gained.
   */
  predicate Progressed(c: CharacterState, r: CharacterState)
  {
    && Valid(r)
    && c.currentLevel <= r.currentLevel <= r.levelCap
    && r.levelCap == c.levelCap && r.expGrowth == c.expGrowth
    && r.skillPoints - c.skillPoints == r.currentLevel - c.currentLevel
    && r.levelUpTimers - c.levelUpTimers == r.currentLevel - c.currentLevel
    && (r.currentLevel < r.levelCap ==>
          r.maxExp == c.maxExp * Pow(c.expGrowth, (r.currentLevel - c.currentLevel) as nat))
  }

  lemma ProgressedTransitive(a: CharacterState, b: CharacterState, c: CharacterState)
    requires Progressed(a, b) && Progressed(b, c)
    ensures Progressed(a, c)
  {
    if c.currentLevel < c.levelCap {
      var i := (b.currentLevel - a.currentLevel) as nat;
      var j := (c.currentLevel - b.currentLevel) as nat;
      assert i + j == (c.currentLevel - a.currentLevel) as nat;
      GrowthChains(a.maxExp, b.maxExp, c.maxExp, a.expGrowth, i, j);
    }
  }

  /** Growing by g^i and then by g^j is growing by g^(i+j). */
  lemma GrowthChains(m0: real, m1: real, m2: real, g: real, i: nat, j: nat)
    requires m1 == m0 * Pow(g, i) && m2 == m1 * Pow(g, j)
    ensures m2 == m0 * Pow(g, i + j)
  {
    PowAdds(g, i, j);
    calc {
      m2;
      (m0 * Pow(g, i)) * Pow(g, j);
      m0 * (Pow(g, i) * Pow(g, j));
    }
  }

  lemma {:induction false} PowAdds(g: real, i: nat, j: nat)
    ensures Pow(g, i) * Pow(g, j) == Pow(g, i + j)
    decreases i
  {
    if i > 0 {
      PowAdds(g, i - 1, j);
      calc {
        Pow(g, i) * Pow(g, j);
        (g * Pow(g, i - 1)) * Pow(g, j);
        g * (Pow(g, i - 1) * Pow(g, j));
        g * Pow(g, i - 1 + j);
      }
    }
  }

  /** One gain or one frame is a progression step. */
  lemma ProgressStep(c: CharacterState, e: Event)
    requires Valid(c)
    requires e.ExpGained? || e.AddExpPressed? || e.Ticked?
    ensures Progressed(c, Step(c, e))
  {
    StepPreservesValid(c, e);
    var s := Step(c, e);
    if e.Ticked? {
      if s.currentLevel < s.levelCap && s.currentLevel != c.currentLevel {
        assert s == LevelUp(c);
        assert Pow(c.expGrowth, 1) == c.expGrowth;
      }
    } else {
      assert s == UpdateExp(c, if e.ExpGained? then e.amount else DebugExp);
    }
  }

  lemma ProgressedReflexive(c: CharacterState)
    requires Valid(c)
    ensures Progressed(c, c)
  {
  }

  /**
   * Any sequence of experience gains and frames is a progression: the level
   * stays within the cap and never goes down, and skill points, level-up
   * messages and the threshold follow the levels gained.
   */
  lemma {:induction false} ProgressRun(c: CharacterState, events: seq<Event>)
    requires Valid(c) && ProgressOnly(events)
    ensures Progressed(c, Run(c, events))
    decreases |events|
  {
    if events == [] {
      ProgressedReflexive(c);
    } else {
      var s := Step(c, events[0]);
      ProgressStep(c, events[0]);
      assert ProgressOnly(events[1..]) by {
        forall i | 0 <= i < |events[1..]|
          ensures events[1..][i].ExpGained? || events[1..][i].AddExpPressed? || events[1..][i].Ticked?
        {
          assert events[1..][i] == events[i + 1];
        }
      }
      ProgressRun(s, events[1..]);
      ProgressedTransitive(c, s, Run(s, events[1..]));
    }
  }

  /**
   * Once the cap is reached, gains and frames change neither the level, nor
   * the skill points, nor the experience; the whole state is either kept or
   * re-frozen at the current experience.
   */
  lemma {:induction false} CapFreezes(c: CharacterState, events: seq<Event>)
    requires c.currentLevel >= c.levelCap && ProgressOnly(events)
    ensures var r := Run(c, events);
      && r.currentLevel == c.currentLevel && r.skillPoints == c.skillPoints
      && r.currentExp == c.currentExp && r.levelUpTimers == c.levelUpTimers
      && r.levelCap == c.levelCap
      && (r.maxExp == c.maxExp || r.maxExp == c.currentExp)
    ensures Run(c, events) == c || Run(c, events) == LevelCapped(c)
    decreases |events|
  {
    if events != [] {
      var s := Step(c, events[0]);
      assert ProgressOnly(events[1..]) by {
        forall i | 0 <= i < |events[1..]|
          ensures events[1..][i].ExpGained? || events[1..][i].AddExpPressed? || events[1..][i].Ticked?
        {
          assert events[1..][i] == events[i + 1];
        }
      }
      assert s == c || s == LevelCapped(c);
      CapFreezes(s, events[1..]);
    }
  }

  /** Nothing but SaveGame writes the save slot or the has-saved flag. */
  lemma {:induction false} RunKeepsSnapshot(c: CharacterState, events: seq<Event>)
    requires NoSave(events)
    ensures Run(c, events).saved == c.saved && Run(c, events).hasSaved == c.hasSaved
    decreases |events|
  {
    if events != [] {
      assert !events[0].SavePressed?;
      assert NoSave(events[1..]) by {
        forall i | 0 <= i < |events[1..]| ensures !events[1..][i].SavePressed? {
          assert events[1..][i] == events[i + 1];
        }
      }
      RunKeepsSnapshot(Step(c, events[0]), events[1..]);
    }
  }

  /**
   * SaveGame, then any events that do not save again, then LoadData brings
   * back the four saved fields and recomputes ExpLeft and ExpPercentage from them.
   */
  lemma SaveThenLoadRestores(c: CharacterState, events: seq<Event>)
    requires NoSave(events)
    ensures var r := LoadData(Run(SaveGame(c), events));
      && r.currentExp == c.currentExp && r.maxExp == c.maxExp
      && r.currentLevel == c.currentLevel && r.skillPoints == c.skillPoints
      && r.expLeft == c.maxExp - c.currentExp
      && r.expPercentage == Divide(c.currentExp, c.maxExp)
  {
    RunKeepsSnapshot(SaveGame(c), events);
  }

  lemma LoadWithoutSaveIsNoop(c: CharacterState)
    requires !c.hasSaved
    ensures LoadData(c) == c
  {
  }

  /** From BeginPlay, LoadData changes nothing until the first SaveGame. */
  lemma LoadBeforeFirstSaveIsNoop(events: seq<Event>)
    requires NoSave(events)
    ensures LoadData(Run(Initial(), events)) == Run(Initial(), events)
  {
    RunKeepsSnapshot(Initial(), events);
  }

  /** Spending one point never takes a non-negative balance below zero, and fails exactly when none are left. */
  lemma SpendSkillPointsStaysNonNegative(c: CharacterState)
    requires c.skillPoints >= 0
    ensures SpendSkillPoints(c).skillPoints >= 0
    ensures SpendSkillPoints(c) == c <==> c.skillPoints == 0
  {
  }

  /** SkillPointsCost does not check the cost against the balance: one point, cost two, leaves minus one. */
  lemma SkillPointsCostCanOverspend(c: CharacterState)
    requires c.skillPoints == 1
    ensures SkillPointsCost(c, 2).skillPoints == -1
  {
  }

  /** Pickup (30), then 80 more and one frame: level 2, one skill point, 10 carried, threshold 120. */
  lemma PickUpThenLevelUp()
    ensures var r := Run(Initial(), [ExpGained(PickUpExp), Ticked, ExpGained(80.0), Ticked]);
      && r.currentLevel == 2 && r.skillPoints == 1
      && r.currentExp == 10.0 && r.maxExp == 120.0 && r.expLeft == 110.0
  {
    var c0 := Initial();
    var c1 := Step(c0, ExpGained(PickUpExp));
    assert c1.currentExp == 30.0;
    var c2 := Step(c1, Ticked);
    assert c2 == c1;
    var c3 := Step(c2, ExpGained(80.0));
    assert c3.currentExp == 110.0;
    var c4 := Step(c3, Ticked);
    assert Round(10.0) == 10;
    assert c4.currentLevel == 2 && c4.currentExp == 10.0 && c4.maxExp == 120.0;
    assert Run(c0, [ExpGained(PickUpExp), Ticked, ExpGained(80.0), Ticked]) == c4 by {
      var es := [ExpGained(PickUpExp), Ticked, ExpGained(80.0), Ticked];
      assert Run(c0, es) == Run(c1, es[1..]);
      assert es[1..] == [Ticked, ExpGained(80.0), Ticked];
      assert Run(c1, es[1..]) == Run(c2, es[2..]);
      assert es[2..] == [ExpGained(80.0), Ticked];
      assert Run(c2, es[2..]) == Run(c3, es[3..]);
      assert es[3..] == [Ticked];
      assert Run(c3, es[3..]) == Run(c4, []);
    }
  }
}
