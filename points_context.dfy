/**
 * The points ledger of PointsContext: session points, levels, the cumulative race statistics
 * and the achievements unlocked by crossing a threshold.
 */
module PointsContext {
  import opened Wrappers
  import opened Numeric
  import opened Session

  // ---------------------------------------------------------------------------------------
  // Session points

  /** Base points for taking part: a completed session or at least one correct character. */
  function ParticipationPoints(r: SessionResult): nat
  {
    if r.completed || r.correctChars > 0 then 10 else 0
  }

  /** The accuracy bonus family: only the highest tier reached counts. */
  function AccuracyTier(accuracy: int): nat
  {
    if accuracy >= 95 then 50
    else if accuracy >= 90 then 30
    else if accuracy >= 80 then 15
    else if accuracy >= 70 then 5
    else 0
  }

  /** The speed bonus family: only the highest tier reached counts. */
  function SpeedTier(wpm: int): nat
  {
    if wpm >= 80 then 40
    else if wpm >= 60 then 25
    else if wpm >= 40 then 10
    else 0
  }

  function PerfectBonus(accuracy: int, wpm: int): nat
  {
    if accuracy == 100 && wpm >= 40 then 100 else 0
  }

  function CompletionBonus(completed: bool): nat
  {
    if completed then 25 else 0
  }

  /**
   * The points formula: participation, one point per WPM (wpm is already a whole number, so
   * Math.floor leaves it as it is), the two tier bonuses, the perfect and the completion
   * bonus; Math.max keeps the sum from going below zero.
   */
  function SessionPoints(r: SessionResult): (p: int)
    ensures p >= 0
    ensures r.wpm >= 0 ==> p >= ParticipationPoints(r) + r.wpm + CompletionBonus(r.completed)
  {
    Max(ParticipationPoints(r) + r.wpm + AccuracyTier(r.accuracy) + SpeedTier(r.wpm)
        + PerfectBonus(r.accuracy, r.wpm) + CompletionBonus(r.completed), 0)
  }

  /** calculatePoints, accumulating into points step by step as the source does. */
  method CalculatePoints(r: SessionResult) returns (points: int)
    ensures points == SessionPoints(r)
    ensures points >= 0
  {
    points := 0;
    if r.completed || r.correctChars > 0 {
      points := points + 10;
    }
    points := points + r.wpm;
    if r.accuracy >= 95 { points := points + 50; }
    else if r.accuracy >= 90 { points := points + 30; }
    else if r.accuracy >= 80 { points := points + 15; }
    else if r.accuracy >= 70 { points := points + 5; }
    if r.wpm >= 80 { points := points + 40; }
    else if r.wpm >= 60 { points := points + 25; }
    else if r.wpm >= 40 { points := points + 10; }
    if r.accuracy == 100 && r.wpm >= 40 { points := points + 100; }
    if r.completed { points := points + 25; }
    points := Max(points, 0);
  }

  /**
   * The bounds of one session's points for a non-negative wpm: at least wpm, and at most
   * wpm + 225 for an accuracy of at most 100. The first clause, that the clamp is inactive
   * so the points are the plain sum of the bonuses, is the step both bounds rest on.
   */
  lemma PointsBounds(r: SessionResult)
    requires r.wpm >= 0
    ensures SessionPoints(r) == ParticipationPoints(r) + r.wpm + AccuracyTier(r.accuracy)
              + SpeedTier(r.wpm) + PerfectBonus(r.accuracy, r.wpm) + CompletionBonus(r.completed)
    ensures r.wpm <= SessionPoints(r)
    ensures r.accuracy <= 100 ==> SessionPoints(r) <= r.wpm + 225
  {
  }

  /**
   * More speed and more accuracy never earn fewer points, for sessions that agree on
   * completion and on whether a character was typed correctly.
   */
  lemma PointsMonotone(r: SessionResult, s: SessionResult)
    requires r.completed == s.completed && (r.correctChars > 0 <==> s.correctChars > 0)
    requires r.wpm <= s.wpm && r.accuracy <= s.accuracy <= 100
    ensures SessionPoints(r) <= SessionPoints(s)
  {
  }

  /** A 25-character snippet typed without error in 30 seconds earns 95 points. */
  lemma PerfectSlowSessionExample()
    ensures SessionPoints(SessionResult(25, 0, 25, 100, 10, 30000, "", "", [], true, 30, 60)) == 95
  {
  }

  // ---------------------------------------------------------------------------------------
  // Levels

  /** getPointsForNextLevel: 50 points times the square of the level. */
  function PointsForNextLevel(level: int): (p: int)
    ensures p >= 0 && p % 50 == 0
  {
    level * level * 50
  }

  /**
   * calculateLevel: Math.floor(Math.sqrt(totalPoints / 50)) + 1, that is one more than the
   * largest k with 50 k^2 <= totalPoints.
   */
  function Level(totalPoints: nat): (level: nat)
    ensures level >= 1
    ensures PointsForNextLevel(level - 1) <= totalPoints < PointsForNextLevel(level)
  {
    var q := totalPoints / 50;
    var k := Isqrt(q);
    assert 50 * (k * k) <= totalPoints by { MulMonotone(50, k * k, q); }
    assert totalPoints < 50 * ((k + 1) * (k + 1)) by { MulMonotone(50, q + 1, (k + 1) * (k + 1)); }
    k + 1
  }

  /** The characterisation of Level determines it. */
  lemma LevelUnique(totalPoints: nat, level: nat)
    requires level >= 1
    requires PointsForNextLevel(level - 1) <= totalPoints < PointsForNextLevel(level)
    ensures Level(totalPoints) == level
  {
    var l := Level(totalPoints);
    if l < level {
      SquareMonotone(l, level - 1);
    } else if l > level {
      SquareMonotone(level, l - 1);
    }
  }

  /** More points never mean a lower level. */
  lemma LevelMonotone(p: nat, q: nat)
    requires p <= q
    ensures Level(p) <= Level(q)
  {
    var lp, lq := Level(p), Level(q);
    SquareLess(lp - 1, lq);
  }

  /** The threshold of a level is the first total with that level. */
  lemma LevelOfThreshold(level: nat)
    requires level >= 1
    ensures Level(PointsForNextLevel(level - 1)) == level
    ensures level >= 2 ==> Level(PointsForNextLevel(level - 1) - 1) == level - 1
  {
    var a: nat := level - 1;
    var t := PointsForNextLevel(a);
    SquareSucc(a);
    assert t < PointsForNextLevel(level);
    LevelUnique(t, level);
    if level >= 2 {
      var b: nat := a - 1;
      SquareSucc(b);
      assert PointsForNextLevel(b) <= t - 1;
      LevelUnique(t - 1, a);
    }
  }

  /** The points at which the current level began (currentLevelPoints). */
  function CurrentLevelPoints(totalPoints: nat): int
  {
    PointsForNextLevel(Level(totalPoints) - 1)
  }

  /** The points at which the next level begins (nextLevelPoints). */
  function NextLevelPoints(totalPoints: nat): int
  {
    PointsForNextLevel(Level(totalPoints))
  }

  /** progressToNextLevel: the percentage of the current level already earned, in [0, 100). */
  function ProgressToNextLevel(totalPoints: nat): (progress: real)
    ensures 0.0 <= progress < 100.0
  {
    var low, high := CurrentLevelPoints(totalPoints), NextLevelPoints(totalPoints);
    var num, den := (totalPoints - low) as real, (high - low) as real;
    assert 0.0 <= num < den;
    FractionBelowOne(num, den);
    (num / den) * 100.0
  }

  lemma FractionBelowOne(num: real, den: real)
    requires 0.0 <= num < den
    ensures 0.0 <= num / den < 1.0
  {
  }

  // ---------------------------------------------------------------------------------------
  // Statistics

  datatype Achievement = Achievement(id: string, name: string, description: string, points: nat)

  /** The stats object; totalTime is kept in milliseconds and a calendar day is an integer. */
  datatype Stats = Stats(
    totalRaces: nat,
    totalWords: nat,
    totalTimeMs: int,
    bestWPM: int,
    bestAccuracy: int,
    perfectRaces: nat,
    streak: nat,
    lastRaceDate: Option<int>,
    achievements: seq<Achievement>)

  /** The initial and the reset statistics. */
  const ZeroStats := Stats(0, 0, 0, 0, 0, 0, 0, None, [])

  /**
   * newStats of addPoints before the achievements are checked: one more race, the words of
   * the correct characters, the best values so far, one more perfect race for 100% accuracy,
   * and one more streak day whenever the last race was not today.
   */
  function RecordRace(s: Stats, r: SessionResult, today: int): (n: Stats)
    ensures n.totalRaces == s.totalRaces + 1
    ensures n.totalWords == s.totalWords + r.correctChars / 5
    ensures n.totalTimeMs == s.totalTimeMs + r.timeElapsedMs
    ensures n.bestWPM >= s.bestWPM && n.bestWPM >= r.wpm && (n.bestWPM == s.bestWPM || n.bestWPM == r.wpm)
    ensures n.bestAccuracy >= s.bestAccuracy && n.bestAccuracy >= r.accuracy
    ensures n.bestAccuracy == s.bestAccuracy || n.bestAccuracy == r.accuracy
    ensures n.perfectRaces == s.perfectRaces + 1 <==> r.accuracy == 100
    ensures n.perfectRaces == s.perfectRaces <==> r.accuracy != 100
    ensures n.streak == s.streak <==> s.lastRaceDate == Some(today)
    ensures n.streak == s.streak + 1 <==> s.lastRaceDate != Some(today)
    ensures n.lastRaceDate == Some(today) && n.achievements == s.achievements
  {
    var isNewDay := s.lastRaceDate != Some(today);
    Stats(
      s.totalRaces + 1,
      s.totalWords + r.correctChars / 5,
      s.totalTimeMs + r.timeElapsedMs,
      Max(s.bestWPM, r.wpm),
      Max(s.bestAccuracy, r.accuracy),
      if r.accuracy == 100 then s.perfectRaces + 1 else s.perfectRaces,
      if isNewDay then s.streak + 1 else s.streak,
      Some(today),
      s.achievements)
  }

  /** The streak never resets: a race after a gap of any number of days still extends it. */
  lemma StreakNeverResets(s: Stats, r: SessionResult, today: int)
    requires s.lastRaceDate.Some? && s.lastRaceDate.value < today - 1
    ensures RecordRace(s, r, today).streak == s.streak + 1
  {
  }

  // ---------------------------------------------------------------------------------------
  // Achievements

  /** The statistic an achievement watches and the value it must reach. */
  datatype Trigger = Races(n: nat, oldBelow: bool) | FirstPerfect | BestWpm(n: nat) | Streak(n: nat)

  datatype Rule = Rule(achievement: Achievement, trigger: Trigger)

  /** The achievement catalog of checkAchievements, in the order it is checked. */
  const Catalog: seq<Rule> := [
    Rule(Achievement("first_race", "First Steps", "Complete your first race", 50), Races(1, false)),
    Rule(Achievement("ten_races", "Getting Started", "Complete 10 races", 100), Races(10, true)),
    Rule(Achievement("fifty_races", "Dedicated Typer", "Complete 50 races", 250), Races(50, true)),
    Rule(Achievement("perfect", "Perfectionist", "100% accuracy in a race", 150), FirstPerfect),
    Rule(Achievement("speed_demon", "Speed Demon", "Reach 60 WPM", 200), BestWpm(60)),
    Rule(Achievement("week_streak", "Week Warrior", "7 day streak", 300), Streak(7))
  ]

  /** The condition checkAchievements tests for one rule. */
  predicate Fires(t: Trigger, newStats: Stats, oldStats: Stats)
  {
    match t
    case Races(n, oldBelow) => newStats.totalRaces == n && (oldBelow ==> oldStats.totalRaces < n)
    case FirstPerfect => newStats.perfectRaces == 1 && oldStats.perfectRaces == 0
    case BestWpm(n) => newStats.bestWPM >= n && oldStats.bestWPM < n
    case Streak(n) => newStats.streak == n && oldStats.streak < n
  }

  /** The one-element contribution of a rule to Unlocked. */
  function FiredOf(rule: Rule, newStats: Stats, oldStats: Stats): seq<Achievement>
  {
    if Fires(rule.trigger, newStats, oldStats) then [rule.achievement] else []
  }

  /** The achievements of the rules that fire, in rule order. */
  function Unlocked(rules: seq<Rule>, newStats: Stats, oldStats: Stats): (a: seq<Achievement>)
    ensures |a| <= |rules|
  {
    if rules == [] then []
    else Unlocked(rules[..|rules| - 1], newStats, oldStats) + FiredOf(rules[|rules| - 1], newStats, oldStats)
  }

  /** Exactly the achievements of firing rules are unlocked. */
  lemma {:induction false} UnlockedMembers(rules: seq<Rule>, newStats: Stats, oldStats: Stats, x: Achievement)
    ensures x in Unlocked(rules, newStats, oldStats) <==>
            exists k :: 0 <= k < |rules| && rules[k].achievement == x && Fires(rules[k].trigger, newStats, oldStats)
  {
    if rules != [] {
      var p := rules[..|rules| - 1];
      UnlockedMembers(p, newStats, oldStats, x);
      if x in Unlocked(p, newStats, oldStats) {
        var k :| 0 <= k < |p| && p[k].achievement == x && Fires(p[k].trigger, newStats, oldStats);
        assert rules[k] == p[k];
      }
      if exists k :: 0 <= k < |rules| && rules[k].achievement == x && Fires(rules[k].trigger, newStats, oldStats) {
        var k :| 0 <= k < |rules| && rules[k].achievement == x && Fires(rules[k].trigger, newStats, oldStats);
        if k < |p| {
          assert p[k] == rules[k];
        }
      }
    }
  }

  /** checkAchievements: the six tests in catalog order, each pushing its achievement. */
  method CheckAchievements(newStats: Stats, oldStats: Stats) returns (earned: seq<Achievement>)
    ensures earned == Unlocked(Catalog, newStats, oldStats)
  {
    var c := Catalog;
    ghost var n, o := newStats, oldStats;
    earned := [];
    assert c[..0] == [];
    if newStats.totalRaces == 1 {
      earned := earned + [c[0].achievement];
    }
    assert earned == Unlocked(c[..1], n, o) by { assert c[..1][..0] == c[..0]; }
    if newStats.totalRaces == 10 && oldStats.totalRaces < 10 {
      earned := earned + [c[1].achievement];
    }
    assert earned == Unlocked(c[..2], n, o) by { assert c[..2][..1] == c[..1]; }
    if newStats.totalRaces == 50 && oldStats.totalRaces < 50 {
      earned := earned + [c[2].achievement];
    }
    assert earned == Unlocked(c[..3], n, o) by { assert c[..3][..2] == c[..2]; }
    if newStats.perfectRaces == 1 && oldStats.perfectRaces == 0 {
      earned := earned + [c[3].achievement];
    }
    assert earned == Unlocked(c[..4], n, o) by { assert c[..4][..3] == c[..3]; }
    if newStats.bestWPM >= 60 && oldStats.bestWPM < 60 {
      earned := earned + [c[4].achievement];
    }
    assert earned == Unlocked(c[..5], n, o) by { assert c[..5][..4] == c[..4]; }
    if newStats.streak == 7 && oldStats.streak < 7 {
      earned := earned + [c[5].achievement];
    }
    assert earned == Unlocked(c[..6], n, o) by { assert c[..6][..5] == c[..5]; }
    assert c[..6] == c;
  }

  /** The statistic a trigger watches. */
  function Watched(t: Trigger, s: Stats): int
  {
    match t
    case Races(_, _) => s.totalRaces
    case FirstPerfect => s.perfectRaces
    case BestWpm(_) => s.bestWPM
    case Streak(_) => s.streak
  }

  /** The value a trigger waits for. */
  function Threshold(t: Trigger): int
  {
    match t
    case Races(n, _) => n
    case FirstPerfect => 1
    case BestWpm(n) => n
    case Streak(n) => n
  }

  /**
   * Over one recorded race, every catalog achievement fires exactly when its statistic
   * crosses its threshold: below it before the race, at or above it afterwards.
   */
  lemma FiresIffCrossing(s: Stats, r: SessionResult, today: int, k: nat)
    requires k < |Catalog|
    ensures var t, n := Catalog[k].trigger, RecordRace(s, r, today);
            Fires(t, n, s) <==> Watched(t, s) < Threshold(t) <= Watched(t, n)
  {
  }

  // ---------------------------------------------------------------------------------------
  // The provider's state

  /** What addPoints returns. */
  datatype AddPointsOutcome = AddPointsOutcome(
    earnedPoints: int, newTotalPoints: int, level: nat, newAchievements: seq<Achievement>)

  /** The PointsProvider state: totalPoints and stats, replaced by addPoints and resetProgress. */
  class PointsProvider {
    var totalPoints: nat
    var stats: Stats

    constructor ()
      ensures totalPoints == 0 && stats == ZeroStats
    {
      totalPoints := 0;
      stats := ZeroStats;
    }

    /**
     * addPoints: folds one session into the statistics, appends the newly unlocked
     * achievements after the existing ones, and adds the session points (and only those:
     * achievement points are not added) to the total.
     */
    method AddPoints(results: SessionResult, today: int) returns (outcome: AddPointsOutcome)
      modifies this
      ensures totalPoints == old(totalPoints) + SessionPoints(results)
      ensures var n := RecordRace(old(stats), results, today);
              stats == n.(achievements := old(stats).achievements + Unlocked(Catalog, n, old(stats)))
      ensures outcome == AddPointsOutcome(SessionPoints(results), totalPoints, Level(totalPoints),
                                          Unlocked(Catalog, RecordRace(old(stats), results, today), old(stats)))
    {
      var earnedPoints := CalculatePoints(results);
      var newTotalPoints := totalPoints + earnedPoints;
      var newStats := RecordRace(stats, results, today);
      var newAchievements := CheckAchievements(newStats, stats);
      if |newAchievements| > 0 {
        newStats := newStats.(achievements := stats.achievements + newAchievements);
      }
      totalPoints := newTotalPoints;
      stats := newStats;
      outcome := AddPointsOutcome(earnedPoints, newTotalPoints, Level(newTotalPoints), newAchievements);
    }

    /** resetProgress: everything back to the zero state. */
    method ResetProgress()
      modifies this
      ensures totalPoints == 0 && stats == ZeroStats
    {
      totalPoints := 0;
      stats := ZeroStats;
    }

    /** The level the provider exposes: the one whose threshold band holds the total points. */
    function CurrentLevel(): (level: nat)
      reads this
      ensures level >= 1
      ensures PointsForNextLevel(level - 1) <= totalPoints < PointsForNextLevel(level)
    {
      Level(totalPoints)
    }
  }
}
