/**
 * TypingContext: the shared typing session of the app, holding the live statistics, the
 * input, whether a session is active and when it started.
 */
module TypingContext {
  import opened Wrappers
  import opened Numeric
  import opened Session

  /** The context's statistics; timeElapsed is in whole seconds. */
  datatype TypingStats = TypingStats(wpm: int, accuracy: int, timeElapsed: int, errorCount: nat, correctChars: nat, totalChars: nat)

  const ResetStats := TypingStats(0, 100, 0, 0, 0, 0)

  /**
   * The statistics for input against target given the current ones: the current statistics
   * stand when either text is empty; otherwise the counts are recomputed, timeElapsed is kept
   * and wpm is 0 until a positive number of seconds has elapsed.
   */
  function StatsOf(current: TypingStats, input: string, target: string): (s: TypingStats)
    ensures (|input| == 0 || |target| == 0) ==> s == current
    ensures |input| > 0 && |target| > 0 ==>
              && s.correctChars == MatchCount(input, target)
              && s.correctChars + s.errorCount == s.totalChars == |input|
              && 0 <= s.accuracy <= 100
              && s.accuracy == Percent(s.correctChars, |input|)
              && s.timeElapsed == current.timeElapsed
              && (current.timeElapsed <= 0 ==> s.wpm == 0)
              && (current.timeElapsed > 0 ==>
                   2 * s.timeElapsed * s.wpm <= 24 * s.correctChars + s.timeElapsed < 2 * s.timeElapsed * (s.wpm + 1))
  {
    if |input| == 0 || |target| == 0 then current
    else
      var correct := MatchCount(input, target);
      var wpm := if current.timeElapsed > 0 then RoundRatio(12 * correct, current.timeElapsed) else 0;
      TypingStats(wpm, Percent(correct, |input|), current.timeElapsed, |input| - correct, correct, |input|)
  }

  /** calculateStats: the comparison loop, which computes StatsOf. */
  method CalculateStats(current: TypingStats, input: string, target: string) returns (s: TypingStats)
    ensures s == StatsOf(current, input, target)
  {
    if |target| == 0 || |input| == 0 {
      return current;
    }
    var totalChars := |input|;
    var correctChars := 0;
    var errorCount := 0;
    var i := 0;
    while i < |input|
      invariant 0 <= i <= |input|
      invariant correctChars == MatchCount(input[..i], target)
      invariant errorCount == i - correctChars
    {
      assert input[..i + 1][..i] == input[..i];
      if i < |target| && input[i] == target[i] {
        correctChars := correctChars + 1;
      } else {
        errorCount := errorCount + 1;
      }
      i := i + 1;
    }
    assert input[..i] == input;
    var accuracy := Percent(correctChars, totalChars);
    var wpm := if current.timeElapsed > 0 then RoundRatio(12 * correctChars, current.timeElapsed) else 0;
    s := TypingStats(wpm, accuracy, current.timeElapsed, errorCount, correctChars, totalChars);
  }

  /** Characters typed past the end of the target are all counted as errors. */
  lemma {:induction false} OverflowIsError(input: string, target: string)
    requires |input| >= |target|
    ensures MatchCount(input, target) == MatchCount(input[..|target|], target)
    decreases |input|
  {
    if |input| > |target| {
      var n := |input| - 1;
      OverflowIsError(input[..n], target);
      assert input[..n][..|target|] == input[..|target|];
    } else {
      assert input[..|target|] == input;
    }
  }

  /**
   * The context's state. captured is the statistics object that the current calculateStats
   * closure was created with: the callback depends on stats.timeElapsed only, so it is
   * re-created, capturing the statistics of that render, exactly when timeElapsed changes.
   */
  class Provider {
    var stats: TypingStats
    var captured: TypingStats
    var isActive: bool
    var userInput: string
    var startTime: Option<int>

    /** The closure always sees the current timeElapsed, though not the current counters. */
    predicate Valid()
      reads this
    {
      captured.timeElapsed == stats.timeElapsed
    }

    constructor ()
      ensures Valid()
      ensures stats == ResetStats && captured == ResetStats && !isActive && userInput == "" && startTime == None
    {
      stats := ResetStats;
      captured := ResetStats;
      isActive := false;
      userInput := "";
      startTime := None;
    }

    /**
     * updateStats: the statistics become those calculateStats computes from the captured
     * statistics, so an empty input or target brings back the captured object, not the
     * current one. timeElapsed is kept, so the closure is not re-created.
     */
    method UpdateStats(input: string, target: string)
      requires Valid()
      modifies this
      ensures Valid()
      ensures stats == StatsOf(old(captured), input, target) && captured == old(captured)
      ensures isActive == old(isActive) && userInput == old(userInput) && startTime == old(startTime)
    {
      var newStats := CalculateStats(captured, input, target);
      stats := newStats;
    }

    /** startSession: activate and record the start time. */
    method StartSession(now: int)
      modifies this
      ensures isActive && startTime == Some(now)
      ensures stats == old(stats) && captured == old(captured) && userInput == old(userInput)
    {
      isActive := true;
      startTime := Some(now);
    }

    /**
     * resetSession: empty input, inactive, no start time, zero counters and accuracy 100; the
     * closure is re-created only if timeElapsed was not already 0.
     */
    method ResetSession()
      requires Valid()
      modifies this
      ensures Valid()
      ensures userInput == "" && !isActive && startTime == None && stats == ResetStats
      ensures captured == if old(captured).timeElapsed == 0 then old(captured) else ResetStats
    {
      userInput := "";
      isActive := false;
      startTime := None;
      stats := ResetStats;
      if captured.timeElapsed != stats.timeElapsed {
        captured := stats;
      }
    }

    /** setIsActive, exposed to consumers as is. */
    method SetIsActive(active: bool)
      modifies this
      ensures isActive == active
      ensures stats == old(stats) && captured == old(captured)
      ensures userInput == old(userInput) && startTime == old(startTime)
    {
      isActive := active;
    }

    /** setUserInput, exposed to consumers as is. */
    method SetUserInput(input: string)
      modifies this
      ensures userInput == input
      ensures stats == old(stats) && captured == old(captured)
      ensures isActive == old(isActive) && startTime == old(startTime)
    {
      userInput := input;
    }

    /**
     * The one-second timer while active: timeElapsed becomes the whole seconds since the
     * start, and a changed value re-creates the closure over the new statistics.
     */
    method Tick(now: int)
      requires Valid()
      modifies this
      ensures Valid()
      ensures isActive && startTime.Some? ==>
                stats == old(stats).(timeElapsed := (now - startTime.value) / 1000)
      ensures !(isActive && startTime.Some?) ==> stats == old(stats)
      ensures captured == if stats.timeElapsed == old(captured).timeElapsed then old(captured) else stats
      ensures isActive == old(isActive) && userInput == old(userInput) && startTime == old(startTime)
    {
      if isActive && startTime.Some? {
        stats := stats.(timeElapsed := (now - startTime.value) / 1000);
        if captured.timeElapsed != stats.timeElapsed {
          captured := stats;
        }
      }
    }
  }

  /**
   * The stale closure at work: after one typed character, clearing the input brings back the
   * statistics captured at mount instead of keeping the current ones.
   */
  method StaleStatsExample() returns (before: TypingStats, after: TypingStats)
    ensures before.totalChars == 1 && before.correctChars == 1
    ensures after == ResetStats
  {
    var p := new Provider();
    p.UpdateStats("a", "a");
    before := p.stats;
    p.UpdateStats("", "a");
    after := p.stats;
  }
}
