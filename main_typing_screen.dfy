/**
 * MainTypingScreen: the timed typing screen. It starts its clock on the first keystroke,
 * keeps one charStats entry per typed character, ignores input longer than the snippet and
 * turns the final state into a SessionResult.
 */
module MainTypingScreen {
  import opened Wrappers
  import opened Numeric
  import opened Session
  import SnippetService

  /**
   * stats is the charStats list for value typed against code: one entry per typed character,
   * entry i holding code[i], value[i] and whether they agree.
   */
  predicate Records(stats: seq<CharStat>, value: string, code: string)
  {
    && |stats| == |value| <= |code|
    && forall i :: 0 <= i < |stats| ==>
         stats[i].expected == code[i] && stats[i].typed == value[i] && stats[i].correct == (value[i] == code[i])
  }

  /** Records, with every entry stamped with the same time now. */
  predicate RecordsAt(stats: seq<CharStat>, value: string, code: string, now: int)
  {
    Records(stats, value, code) && forall i :: 0 <= i < |stats| ==> stats[i].timestamp == now
  }

  /** The charStats loop of handleInputChange. */
  method BuildCharStats(value: string, code: string, now: int) returns (stats: seq<CharStat>)
    requires |value| <= |code|
    ensures RecordsAt(stats, value, code, now)
  {
    stats := [];
    var i := 0;
    while i < |value|
      invariant 0 <= i <= |value|
      invariant RecordsAt(stats, value[..i], code, now)
    {
      stats := stats + [CharStat(code[i], value[i], value[i] == code[i], now)];
      i := i + 1;
    }
    assert value[..i] == value;
  }

  /** The correct entries of a charStats list are the correctly typed characters. */
  lemma {:induction false} RecordsCountMatches(stats: seq<CharStat>, value: string, code: string)
    requires Records(stats, value, code)
    ensures CountWhere(stats, true) == MatchCount(value, code)
    ensures CountWhere(stats, false) == |value| - MatchCount(value, code)
  {
    CountWherePartition(stats);
    if stats != [] {
      var n := |stats| - 1;
      assert Records(stats[..n], value[..n], code);
      RecordsCountMatches(stats[..n], value[..n], code);
      assert stats[n].correct == Matches(value, code, n);
    }
  }

  /**
   * The results handleComplete reports. The elapsed time is the time since the first
   * keystroke but at least one second, or the whole duration when typing never started;
   * accuracy and wpm are 0 for an empty charStats list.
   */
  function CompletionResult(code: string, userInput: string, charStats: seq<CharStat>, startTime: Option<int>,
                            timeLeft: int, duration: nat, now: int): (r: SessionResult)
    requires duration > 0
    ensures r.correctChars + r.incorrectChars == r.totalChars == |charStats|
    ensures r.correctChars == CountWhere(charStats, true)
    ensures 0 <= r.accuracy <= 100 && r.wpm >= 0
    ensures r.totalChars == 0 ==> r.accuracy == 0 && r.wpm == 0
    ensures r.totalChars > 0 && r.incorrectChars == 0 ==> r.accuracy == 100
    ensures r.totalChars > 0 ==> r.accuracy == Percent(r.correctChars, r.totalChars)
    ensures r.timeElapsedMs >= 1000
    ensures r.totalChars > 0 ==>
              2 * r.timeElapsedMs * r.wpm <= 24000 * r.correctChars + r.timeElapsedMs < 2 * r.timeElapsedMs * (r.wpm + 1)
    ensures r.completed <==> |userInput| == |code|
    ensures r.targetText == code && r.userInput == userInput && r.charStats == charStats
    ensures r.timeLeft == timeLeft && r.originalDuration == duration
  {
    CountWherePartition(charStats);
    var elapsedMs := if startTime.Some? then Max(now - startTime.value, 1000) else duration * 1000;
    var correct := CountWhere(charStats, true);
    var incorrect := CountWhere(charStats, false);
    var total := |charStats|;
    var accuracy := if total > 0 then Percent(correct, total) else 0;
    var wpm := if total > 0 then WordsPerMinute(correct, elapsedMs) else 0;
    SessionResult(correct, incorrect, total, accuracy, wpm, elapsedMs, code, userInput, charStats,
                  |userInput| == |code|, timeLeft, duration)
  }

  /**
   * For a charStats list that records userInput, the result counts exactly the correctly
   * typed characters, and a complete, error-free run is reported completed with accuracy 100.
   */
  lemma CompletionCountsMatches(code: string, userInput: string, charStats: seq<CharStat>, startTime: Option<int>,
                                timeLeft: int, duration: nat, now: int)
    requires duration > 0 && Records(charStats, userInput, code)
    ensures var r := CompletionResult(code, userInput, charStats, startTime, timeLeft, duration, now);
            && r.correctChars == MatchCount(userInput, code)
            && (r.incorrectChars == 0 <==> userInput <= code)
            && (userInput == code && |code| > 0 ==> r.completed && r.accuracy == 100)
  {
    RecordsCountMatches(charStats, userInput, code);
    MatchCountAllIffPrefix(userInput, code);
  }

  /** The screen's state for one snippet and one duration setting (in seconds). */
  class Screen {
    const duration: nat
    var code: string
    var userInput: string
    var isTyping: bool
    var startTime: Option<int>
    var timeLeft: int
    var charStats: seq<CharStat>

    /** A positive duration, and a charStats list that records the accepted input. */
    predicate Valid()
      reads this
    {
      duration > 0 && Records(charStats, userInput, code)
    }

    /** The initial state, with a snippet already loaded. */
    constructor (duration: nat, code: string)
      requires duration > 0
      ensures Valid()
      ensures this.duration == duration && this.code == code
      ensures userInput == "" && !isTyping && startTime == None && timeLeft == duration && charStats == []
    {
      this.duration := duration;
      this.code := code;
      userInput := "";
      isTyping := false;
      startTime := None;
      timeLeft := duration;
      charStats := [];
    }

    /** resetSession: clear the input, the clock and the character statistics. */
    method ResetSession()
      requires Valid()
      modifies this
      ensures Valid() && code == old(code)
      ensures userInput == "" && !isTyping && startTime == None && timeLeft == duration && charStats == []
    {
      userInput := "";
      isTyping := false;
      startTime := None;
      timeLeft := duration;
      charStats := [];
    }

    /**
     * loadNewSnippet: with a non-empty bucket, take the snippet at the Math.random() index
     * and reset the session; with an empty one, change nothing.
     */
    method LoadNewSnippet(snippets: seq<SnippetService.Snippet>, random: real)
      requires Valid() && 0.0 <= random < 1.0
      modifies this
      ensures Valid()
      ensures |snippets| == 0 ==> code == old(code) && userInput == old(userInput) && isTyping == old(isTyping)
                                  && startTime == old(startTime) && timeLeft == old(timeLeft) && charStats == old(charStats)
      ensures |snippets| > 0 ==>
                && code == snippets[SnippetService.PickIndex(random, |snippets|)].code
                && userInput == "" && !isTyping && startTime == None && timeLeft == duration && charStats == []
    {
      if |snippets| > 0 {
        code := snippets[SnippetService.PickIndex(random, |snippets|)].code;
        charStats := [];
        userInput := "";
        ResetSession();
      }
    }

    /**
     * handleInputChange: the first non-empty value starts the clock, even when it is then
     * rejected for being longer than the snippet. An accepted value replaces the input and
     * rebuilds charStats; the result says whether completion is scheduled (all characters typed).
     */
    method HandleInputChange(value: string, now: int) returns (scheduleComplete: bool)
      requires Valid()
      modifies this
      ensures Valid() && code == old(code) && timeLeft == old(timeLeft)
      ensures isTyping == (old(isTyping) || |value| > 0)
      ensures startTime == if !old(isTyping) && |value| > 0 then Some(now) else old(startTime)
      ensures |value| <= |code| ==> userInput == value && RecordsAt(charStats, value, code, now)
      ensures |value| > |code| ==> userInput == old(userInput) && charStats == old(charStats)
      ensures scheduleComplete <==> |value| == |code|
    {
      if !isTyping && |value| > 0 {
        isTyping := true;
        startTime := Some(now);
      }
      scheduleComplete := false;
      if |value| <= |code| {
        userInput := value;
        var newCharStats := BuildCharStats(value, code, now);
        charStats := newCharStats;
        if |value| == |code| {
          scheduleComplete := true;
        }
      }
    }

    /** handleComplete: stop typing and report the CompletionResult of the current state. */
    method HandleComplete(now: int) returns (result: SessionResult)
      requires Valid()
      modifies this
      ensures Valid() && !isTyping
      ensures code == old(code) && userInput == old(userInput) && startTime == old(startTime)
      ensures timeLeft == old(timeLeft) && charStats == old(charStats)
      ensures result == CompletionResult(code, userInput, charStats, startTime, timeLeft, duration, now)
    {
      isTyping := false;
      result := CompletionResult(code, userInput, charStats, startTime, timeLeft, duration, now);
    }

    /**
     * One second of the countdown while typing: at one second or less left the session
     * completes and the clock shows 0, otherwise it goes down by one.
     */
    method Tick(now: int) returns (result: Option<SessionResult>)
      requires Valid()
      modifies this
      ensures Valid() && code == old(code) && userInput == old(userInput) && charStats == old(charStats)
      ensures startTime == old(startTime)
      ensures !(old(isTyping) && old(timeLeft) > 0) ==>
                result == None && timeLeft == old(timeLeft) && isTyping == old(isTyping)
      ensures old(isTyping) && 1 < old(timeLeft) ==> result == None && timeLeft == old(timeLeft) - 1 && isTyping
      ensures old(isTyping) && 0 < old(timeLeft) <= 1 ==>
                && result == Some(CompletionResult(code, userInput, charStats, startTime, old(timeLeft), duration, now))
                && timeLeft == 0 && !isTyping
    {
      result := None;
      if isTyping && timeLeft > 0 {
        if timeLeft <= 1 {
          var r := HandleComplete(now);
          result := Some(r);
          timeLeft := 0;
        } else {
          timeLeft := timeLeft - 1;
        }
      }
    }

    /**
     * renderCharacter over the whole snippet: the cursor shows only while typing, and the
     * characters marked correct are exactly the correct charStats entries.
     */
    function Rendered(): (r: seq<CharClass>)
      requires Valid()
      reads this
      ensures |r| == |code|
      ensures CountClass(r, Correct) == CountWhere(charStats, true)
      ensures CountClass(r, Incorrect) == CountWhere(charStats, false)
      ensures forall i :: 0 <= i < |code| ==> (r[i] == Current <==> isTyping && i == |userInput|)
    {
      OverlayCounts(userInput, code, isTyping);
      RecordsCountMatches(charStats, userInput, code);
      Overlay(userInput, code, isTyping)
    }
  }
}
