/**
 * TypingScreen: the configured typing session. Its clock starts when the screen mounts, its
 * statistics are recomputed on every accepted keystroke, and it completes as soon as the
 * input equals the snippet.
 */
module TypingScreen {
  import opened Wrappers
  import opened Numeric
  import opened Session

  /** The live statistics object of the screen. */
  datatype LiveStats = LiveStats(correctChars: nat, incorrectChars: nat, totalChars: nat, accuracy: int, wpm: int)

  const InitialStats := LiveStats(0, 0, 0, 100, 0)

  /**
   * The statistics of input against target at time now: accuracy is 100 for empty input,
   * and wpm is 0 until some time has passed since the start.
   */
  function StatsOf(input: string, target: string, startTime: Option<int>, now: int): (s: LiveStats)
    ensures s.correctChars == MatchCount(input, target)
    ensures s.correctChars + s.incorrectChars == s.totalChars == |input|
    ensures 0 <= s.accuracy <= 100 && s.wpm >= 0
    ensures |input| == 0 ==> s.accuracy == 100
    ensures s.totalChars > 0 && s.incorrectChars == 0 ==> s.accuracy == 100
    ensures |input| > 0 ==> s.accuracy == Percent(s.correctChars, |input|)
    ensures (startTime.None? || now - startTime.value <= 0) ==> s.wpm == 0
    ensures startTime.Some? && now - startTime.value > 0 ==>
              var ms := now - startTime.value;
              2 * ms * s.wpm <= 24000 * s.correctChars + ms < 2 * ms * (s.wpm + 1)
  {
    var correct := MatchCount(input, target);
    var accuracy := if |input| > 0 then Percent(correct, |input|) else 100;
    var wpm := if startTime.Some? && now - startTime.value > 0 then WordsPerMinute(correct, now - startTime.value) else 0;
    LiveStats(correct, |input| - correct, |input|, accuracy, wpm)
  }

  /** calculateStats: the counting loop, which computes StatsOf. */
  method CalculateStats(input: string, target: string, startTime: Option<int>, now: int) returns (s: LiveStats)
    ensures s == StatsOf(input, target, startTime, now)
  {
    var correctChars := 0;
    var incorrectChars := 0;
    var i := 0;
    while i < |input|
      invariant 0 <= i <= |input|
      invariant correctChars == MatchCount(input[..i], target)
      invariant incorrectChars == i - correctChars
    {
      assert input[..i + 1][..i] == input[..i];
      if i < |target| && input[i] == target[i] {
        correctChars := correctChars + 1;
      } else {
        incorrectChars := incorrectChars + 1;
      }
      i := i + 1;
    }
    assert input[..i] == input;
    var totalChars := |input|;
    var accuracy := if totalChars > 0 then Percent(correctChars, totalChars) else 100;
    var wpm := if startTime.Some? && now - startTime.value > 0 then WordsPerMinute(correctChars, now - startTime.value) else 0;
    s := LiveStats(correctChars, incorrectChars, totalChars, accuracy, wpm);
  }

  /**
   * A typed prefix of the target has no incorrect characters, and the exact target is
   * scored 100% accurate.
   */
  lemma PrefixHasNoErrors(input: string, target: string, startTime: Option<int>, now: int)
    ensures StatsOf(input, target, startTime, now).incorrectChars == 0 <==> input <= target
    ensures input == target && |target| > 0 ==> StatsOf(input, target, startTime, now).accuracy == 100
  {
    MatchCountAllIffPrefix(input, target);
  }

  /** The results handleComplete reports; the elapsed time is the whole duration if never started. */
  function CompletionResult(target: string, userInput: string, startTime: Option<int>, timeLeft: int,
                            duration: nat, now: int): (r: SessionResult)
    ensures r.completed <==> userInput == target
    ensures r.correctChars == MatchCount(userInput, target) && r.totalChars == |userInput|
    ensures r.incorrectChars == |userInput| - r.correctChars
    ensures var s := StatsOf(userInput, target, startTime, now); r.accuracy == s.accuracy && r.wpm == s.wpm
    ensures r.timeElapsedMs == if startTime.Some? then now - startTime.value else duration * 1000
    ensures r.targetText == target && r.userInput == userInput && r.charStats == []
    ensures r.timeLeft == timeLeft && r.originalDuration == duration
  {
    var s := StatsOf(userInput, target, startTime, now);
    var elapsedMs := if startTime.Some? then now - startTime.value else duration * 1000;
    SessionResult(s.correctChars, s.incorrectChars, s.totalChars, s.accuracy, s.wpm, elapsedMs,
                  target, userInput, [], userInput == target, timeLeft, duration)
  }

  /** The screen's state for one configured snippet and duration (in seconds). */
  class Screen {
    const targetText: string
    const duration: nat
    var userInput: string
    var timeLeft: int
    var startTime: Option<int>
    var isActive: bool
    var stats: LiveStats

    /** The state before the mount effect runs. */
    constructor (targetText: string, duration: nat)
      ensures this.targetText == targetText && this.duration == duration
      ensures userInput == "" && timeLeft == duration && startTime == None && !isActive && stats == InitialStats
    {
      this.targetText := targetText;
      this.duration := duration;
      userInput := "";
      timeLeft := duration;
      startTime := None;
      isActive := false;
      stats := InitialStats;
    }

    /** The mount effect: record the start time and activate the session. */
    method Start(now: int)
      modifies this
      ensures startTime == Some(now) && isActive
      ensures userInput == old(userInput) && timeLeft == old(timeLeft) && stats == old(stats)
    {
      startTime := Some(now);
      isActive := true;
    }

    /** handleComplete: deactivate and report the CompletionResult of the current input. */
    method HandleComplete(now: int) returns (result: SessionResult)
      modifies this
      ensures !isActive
      ensures userInput == old(userInput) && timeLeft == old(timeLeft) && startTime == old(startTime) && stats == old(stats)
      ensures result == CompletionResult(targetText, userInput, startTime, timeLeft, duration, now)
    {
      isActive := false;
      result := CompletionResult(targetText, userInput, startTime, timeLeft, duration, now);
    }

    /**
     * handleInputChange: a value longer than the target is rejected with nothing changed;
     * otherwise it becomes the input with fresh statistics. When the value equals the target
     * the session completes through the handleComplete of the render in which the change
     * arrived, whose closure still holds the previous input: the result describes that
     * previous input, so a run finished by typing is reported as not completed.
     */
    method HandleInputChange(value: string, now: int) returns (result: Option<SessionResult>)
      modifies this
      ensures timeLeft == old(timeLeft) && startTime == old(startTime)
      ensures |value| > |targetText| ==>
                result == None && userInput == old(userInput) && stats == old(stats) && isActive == old(isActive)
      ensures |value| <= |targetText| ==> userInput == value && stats == StatsOf(value, targetText, startTime, now)
      ensures result.Some? <==> value == targetText
      ensures value == targetText ==>
                && !isActive
                && result == Some(CompletionResult(targetText, old(userInput), startTime, timeLeft, duration, now))
                && (result.value.completed <==> old(userInput) == targetText)
      ensures value != targetText ==> isActive == old(isActive)
    {
      result := None;
      if |value| <= |targetText| {
        var previous := userInput;
        userInput := value;
        var newStats := CalculateStats(value, targetText, startTime, now);
        stats := newStats;
        if value == targetText {
          isActive := false;
          result := Some(CompletionResult(targetText, previous, startTime, timeLeft, duration, now));
        }
      }
    }

    /** One second of the countdown while active, completing at one second or less left. */
    method Tick(now: int) returns (result: Option<SessionResult>)
      modifies this
      ensures userInput == old(userInput) && startTime == old(startTime) && stats == old(stats)
      ensures !(old(isActive) && old(timeLeft) > 0) ==> result == None && timeLeft == old(timeLeft) && isActive == old(isActive)
      ensures old(isActive) && 1 < old(timeLeft) ==> result == None && timeLeft == old(timeLeft) - 1 && isActive
      ensures old(isActive) && 0 < old(timeLeft) <= 1 ==>
                && result == Some(CompletionResult(targetText, userInput, startTime, old(timeLeft), duration, now))
                && timeLeft == 0 && !isActive
    {
      result := None;
      if isActive && timeLeft > 0 {
        if timeLeft <= 1 {
          var r := HandleComplete(now);
          result := Some(r);
          timeLeft := 0;
        } else {
          timeLeft := timeLeft - 1;
        }
      }
    }

    /**
     * renderCharacter over the target: the position after the input is marked current
     * whether or not the session is active, and the correct marks are the live correct count.
     */
    function Rendered(): (r: seq<CharClass>)
      requires |userInput| <= |targetText|
      reads this
      ensures |r| == |targetText|
      ensures forall i :: 0 <= i < |targetText| ==> (r[i] == Current <==> i == |userInput|)
      ensures CountClass(r, Correct) == MatchCount(userInput, targetText)
    {
      OverlayCounts(userInput, targetText, true);
      Overlay(userInput, targetText, true)
    }
  }
}
