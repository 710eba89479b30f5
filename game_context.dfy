/**
 * The game ledger of GameContext: its own level formula, the achievement list guarded by the
 * catalog, per-type daily streaks and the recommendation rules.
 */
module GameContext {
  import opened Wrappers
  import opened Numeric

  // ---------------------------------------------------------------------------------------
  // Levels

  /** getXPForLevel: the experience at which a level begins, 100 (level - 1)^2. */
  function XPForLevel(level: int): (xp: int)
    ensures xp >= 0 && xp % 100 == 0
    ensures level == 1 ==> xp == 0
  {
    (level - 1) * (level - 1) * 100
  }

  /** calculateLevel: Math.floor(Math.sqrt(xp / 100)) + 1. */
  function Level(xp: nat): (level: nat)
    ensures level >= 1
    ensures XPForLevel(level) <= xp < XPForLevel(level + 1)
  {
    var q := xp / 100;
    var k := Isqrt(q);
    assert 100 * (k * k) <= xp by { MulMonotone(100, k * k, q); }
    assert xp < 100 * ((k + 1) * (k + 1)) by { MulMonotone(100, q + 1, (k + 1) * (k + 1)); }
    k + 1
  }

  /** Each level's threshold has exactly that level, and one point less has the level below. */
  lemma LevelOfXPForLevel(level: nat)
    requires level >= 1
    ensures Level(XPForLevel(level)) == level
    ensures level >= 2 ==> Level(XPForLevel(level) - 1) == level - 1
  {
    var a: nat := level - 1;
    var t := XPForLevel(level);
    SquareSucc(a);
    LevelUniqueAt(t, level);
    if level >= 2 {
      var b: nat := a - 1;
      SquareSucc(b);
      LevelUniqueAt(t - 1, a);
    }
  }

  lemma LevelUniqueAt(xp: nat, level: nat)
    requires level >= 1
    requires XPForLevel(level) <= xp < XPForLevel(level + 1)
    ensures Level(xp) == level
  {
    var l := Level(xp);
    if l < level {
      SquareMonotone(l, level - 1);
    } else if l > level {
      SquareMonotone(level, l - 1);
    }
  }

  // ---------------------------------------------------------------------------------------
  // Achievements

  datatype AchievementDef = AchievementDef(id: string, name: string, description: string, icon: string, xp: nat)

  /** A catalog entry spread into a record with the unlocking time and the user's id. */
  datatype UnlockedAchievement = UnlockedAchievement(
    id: string, name: string, description: string, icon: string, xp: nat, unlockedAt: int, userId: string)

  /** ACHIEVEMENTS, keyed by upper-case names whose records carry lower-case ids. */
  const Achievements: map<string, AchievementDef> := map[
    "FIRST_SESSION" := AchievementDef("first_session", "Getting Started", "Complete your first typing session", "🎯", 25),
    "SPEED_DEMON" := AchievementDef("speed_demon", "Speed Demon", "Type at 60+ WPM", "⚡", 100),
    "PERFECTIONIST" := AchievementDef("perfectionist", "Perfectionist", "Achieve 100% accuracy", "💎", 75),
    "STREAK_7" := AchievementDef("streak_7", "Week Warrior", "7 day streak", "🔥", 150),
    "POLYGLOT" := AchievementDef("polyglot", "Code Polyglot", "Practice 5 different languages", "🌍", 200),
    "MARATHON" := AchievementDef("marathon", "Code Marathon", "Type for 30+ minutes in one session", "🏃", 300),
    "SYNTAX_SAVANT" := AchievementDef("syntax_savant", "Syntax Savant", "Complete 50 sessions", "🧠", 500)
  ]

  function Unlock(def: AchievementDef, unlockedAt: int, userId: string): UnlockedAchievement
  {
    UnlockedAchievement(def.id, def.name, def.description, def.icon, def.xp, unlockedAt, userId)
  }

  /** The guard of addAchievement as written: it looks for a stored record whose id is the key. */
  predicate StoredWithId(achievements: seq<UnlockedAchievement>, key: string)
  {
    exists i :: 0 <= i < |achievements| && achievements[i].id == key
  }

  /** The ids the catalog hands out. */
  predicate IsCatalogId(id: string)
  {
    exists key :: key in Achievements && Achievements[key].id == id
  }

  /**
   * No catalog key is the id of a catalog entry, so when every stored record came from the
   * catalog the duplicate guard never stops a catalog key: addAchievement does not deduplicate.
   */
  lemma DuplicateGuardNeverFires(achievements: seq<UnlockedAchievement>, key: string)
    requires forall i :: 0 <= i < |achievements| ==> IsCatalogId(achievements[i].id)
    requires key in Achievements
    ensures !StoredWithId(achievements, key)
  {
  }

  // ---------------------------------------------------------------------------------------
  // Streaks

  /** One entry of the streaks table; calendar days are integers. */
  datatype StreakEntry = StreakEntry(count: int, lastDate: Option<int>)

  const NoStreak := StreakEntry(0, None)

  /**
   * The count updateStreak computes: one more if the last day was yesterday, the same if it
   * was today, otherwise a fresh streak of 1.
   */
  function NextCount(current: StreakEntry, today: int): int
  {
    if current.lastDate == Some(today - 1) then current.count + 1
    else if current.lastDate == Some(today) then current.count
    else 1
  }

  /** The entry after a session on day today: unchanged on the same day, else a new count dated today. */
  function StreakStep(current: StreakEntry, today: int): (e: StreakEntry)
    ensures current.lastDate == Some(today) ==> e == current
    ensures current.lastDate != Some(today) ==> e.lastDate == Some(today)
    ensures current.lastDate == Some(today - 1) ==> e.count == current.count + 1
    ensures current.lastDate != Some(today - 1) && current.lastDate != Some(today) ==> e.count == 1
  {
    if current.lastDate == Some(today) then current else StreakEntry(NextCount(current, today), Some(today))
  }

  /** Sessions on the given days, one after another. */
  function StreakAfter(start: StreakEntry, days: seq<int>): StreakEntry
  {
    if days == [] then start else StreakStep(StreakAfter(start, days[..|days| - 1]), days[|days| - 1])
  }

  /** The days first, first + 1, ..., first + k - 1. */
  function ConsecutiveDays(first: int, k: nat): (days: seq<int>)
    ensures |days| == k && forall i :: 0 <= i < k ==> days[i] == first + i
  {
    if k == 0 then [] else ConsecutiveDays(first, k - 1) + [first + k - 1]
  }

  /**
   * Sessions on k consecutive days, starting from no streak or from a streak broken for at
   * least a day, give a streak of k dated the last of those days.
   */
  lemma {:induction false} ConsecutiveDaysStreak(start: StreakEntry, first: int, k: nat)
    requires start.lastDate.None? || start.lastDate.value < first - 1
    requires k >= 1
    ensures StreakAfter(start, ConsecutiveDays(first, k)) == StreakEntry(k, Some(first + k - 1))
  {
    var days := ConsecutiveDays(first, k);
    assert days[..k - 1] == ConsecutiveDays(first, k - 1);
    if k > 1 {
      ConsecutiveDaysStreak(start, first, k - 1);
    }
  }

  /** A second session on the same day leaves the streak as the first left it. */
  lemma SameDayTwice(start: StreakEntry, day: int)
    ensures StreakAfter(start, [day, day]) == StreakAfter(start, [day])
  {
    assert [day, day][..1] == [day];
    assert [day][..0] == [];
  }

  // ---------------------------------------------------------------------------------------
  // Recommendations

  /** The user object GameProvider receives; averages are JavaScript numbers. */
  datatype GameUser = GameUser(id: string, xp: nat, avgAccuracy: real, avgWpm: real, languages: Option<seq<string>>)

  datatype Recommendation = Recommendation(kind: string, title: string, description: string, action: string)

  const Improvement := Recommendation("improvement", "Focus on Accuracy", "Try easier snippets to build muscle memory", "practice_accuracy")
  const Speed := Recommendation("speed", "Speed Training", "Practice common code patterns", "speed_drills")
  const TryTypeScript := Recommendation("language", "Try TypeScript", "Expand your skills with static typing", "learn_typescript")

  /** preferences.languages?.includes('typescript'), false when the list is missing. */
  predicate PrefersTypeScript(u: GameUser)
  {
    u.languages.Some? && "typescript" in u.languages.value
  }

  /** Position of a recommendation in the order getRecommendations emits them. */
  function Rank(r: Recommendation): nat
  {
    if r == Improvement then 0 else if r == Speed then 1 else 2
  }

  // ---------------------------------------------------------------------------------------
  // The provider's state

  /** GameProvider: the user it was given, and its achievements and streaks state. */
  class GameProvider {
    const user: Option<GameUser>
    var achievements: seq<UnlockedAchievement>
    var streaks: map<string, StreakEntry>

    constructor (user: Option<GameUser>)
      ensures this.user == user && achievements == [] && streaks == map[]
    {
      this.user := user;
      achievements := [];
      streaks := map[];
    }

    /** Whether addAchievement returns without a change. */
    predicate AddBlocked(key: string)
      reads this
    {
      user.None? || StoredWithId(achievements, key) || key !in Achievements
    }

    /**
     * addAchievement: nothing without a user, for a key already stored as an id, or for a key
     * outside the catalog; otherwise it appends one record with the catalog fields, the
     * unlocking time and the user's id.
     */
    method AddAchievement(key: string, now: int) returns (added: Option<UnlockedAchievement>)
      modifies this
      ensures streaks == old(streaks)
      ensures old(AddBlocked(key)) ==> added == None && achievements == old(achievements)
      ensures !old(AddBlocked(key)) ==>
                added == Some(Unlock(Achievements[key], now, user.value.id))
                && achievements == old(achievements) + [added.value]
    {
      if user.None? || (exists i :: 0 <= i < |achievements| && achievements[i].id == key) {
        return None;
      }
      if key !in Achievements {
        return None;
      }
      var achievement := Achievements[key];
      var newAchievement := Unlock(achievement, now, user.value.id);
      achievements := achievements + [newAchievement];
      added := Some(newAchievement);
    }

    /** The entry updateStreak starts from: the stored one or a zero count with no date. */
    function CurrentStreak(kind: string): StreakEntry
      reads this
    {
      if kind in streaks then streaks[kind] else NoStreak
    }

    /**
     * updateStreak: without a user nothing; on a day already counted the stored count and no
     * change; otherwise only the entry of this streak type becomes StreakStep of it, and a
     * count of 7 unlocks STREAK_7.
     */
    method UpdateStreak(kind: string, today: int, now: int) returns (count: Option<int>)
      modifies this
      ensures user.None? ==> count == None && streaks == old(streaks) && achievements == old(achievements)
      ensures user.Some? && old(CurrentStreak(kind)).lastDate == Some(today) ==>
                count == Some(old(CurrentStreak(kind)).count)
                && streaks == old(streaks) && achievements == old(achievements)
      ensures user.Some? && old(CurrentStreak(kind)).lastDate != Some(today) ==>
                var n := NextCount(old(CurrentStreak(kind)), today);
                && count == Some(n)
                && streaks == old(streaks)[kind := StreakStep(old(CurrentStreak(kind)), today)]
                && (n == 7 && !old(AddBlocked("STREAK_7")) ==>
                      achievements == old(achievements) + [Unlock(Achievements["STREAK_7"], now, user.value.id)])
                && (n != 7 || old(AddBlocked("STREAK_7")) ==> achievements == old(achievements))
    {
      if user.None? {
        return None;
      }
      var currentStreak := CurrentStreak(kind);
      var newCount := 1;
      if currentStreak.lastDate == Some(today - 1) {
        newCount := currentStreak.count + 1;
      } else if currentStreak.lastDate == Some(today) {
        return Some(currentStreak.count);
      }
      streaks := streaks[kind := StreakEntry(newCount, Some(today))];
      if newCount == 7 {
        var _ := AddAchievement("STREAK_7", now);
      }
      count := Some(newCount);
    }

    /** getLevel: the level of the user's experience, 1 without a user. */
    function GetLevel(): (level: nat)
      ensures user.None? ==> level == 1
      ensures user.Some? ==> XPForLevel(level) <= user.value.xp < XPForLevel(level + 1)
    {
      if user.Some? then Level(user.value.xp) else 1
    }

    /**
     * getXPForNextLevel: the threshold of the next level, above the user's experience: the
     * least experience that has the next level.
     */
    function GetXPForNextLevel(): (xp: int)
      ensures user.None? ==> xp == 100
      ensures user.Some? ==> user.value.xp < xp
      ensures xp >= 100 && Level(xp) == GetLevel() + 1 && Level(xp - 1) == GetLevel()
    {
      LevelOfXPForLevel(GetLevel() + 1);
      XPForLevel(GetLevel() + 1)
    }

    /**
     * getRecommendations: nothing without a user; otherwise accuracy advice below 85%, speed
     * advice below 40 WPM, and TypeScript from level 3 for users who do not list it, in that order.
     */
    method GetRecommendations() returns (recs: seq<Recommendation>)
      ensures user.None? ==> recs == []
      ensures Improvement in recs <==> user.Some? && user.value.avgAccuracy < 85.0
      ensures Speed in recs <==> user.Some? && user.value.avgWpm < 40.0
      ensures TryTypeScript in recs <==> user.Some? && GetLevel() >= 3 && !PrefersTypeScript(user.value)
      ensures forall i :: 0 <= i < |recs| ==> recs[i] in {Improvement, Speed, TryTypeScript}
      ensures forall i, j :: 0 <= i < j < |recs| ==> Rank(recs[i]) < Rank(recs[j])
    {
      if user.None? {
        return [];
      }
      var u := user.value;
      var userLevel := GetLevel();
      recs := [];
      if u.avgAccuracy < 85.0 {
        recs := recs + [Improvement];
      }
      if u.avgWpm < 40.0 {
        recs := recs + [Speed];
      }
      if userLevel >= 3 && !(u.languages.Some? && "typescript" in u.languages.value) {
        recs := recs + [TryTypeScript];
      }
    }
  }

  /** Two unlocks of STREAK_7 for the same user store two records: the guard does not deduplicate. */
  method DoubleUnlockExample() returns (stored: nat)
    ensures stored == 2
  {
    var g := new GameProvider(Some(GameUser("u1", 0, 90.0, 50.0, None)));
    var first := g.AddAchievement("STREAK_7", 1000);
    DuplicateGuardNeverFires(g.achievements, "STREAK_7");
    var second := g.AddAchievement("STREAK_7", 2000);
    stored := |g.achievements|;
  }
}
