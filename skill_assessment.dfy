/**
 * SkillAssessment: the onboarding test. The user types a fixed snippet for at most thirty
 * seconds, is classified beginner, intermediate or advanced, and picks preferences and goals.
 */
module SkillAssessment {
  import opened Wrappers
  import opened Numeric
  import opened Session

  /** The snippet typed in the assessment. */
  const AssessmentCode: string :=
    "function fibonacci(n) {\n  if (n <= 1) return n;\n  return fibonacci(n - 1) + fibonacci(n - 2);\n}\n\nconst result = fibonacci(10);\nconsole.log(result);"

  /** The length of the test in seconds. */
  const TestSeconds := 30

  datatype SkillLevel = Beginner | Intermediate | Advanced

  /** The skill level: advanced, else intermediate, else beginner, by wpm and accuracy thresholds. */
  function SkillLevelOf(wpm: int, accuracy: int): (level: SkillLevel)
    ensures level == Advanced <==> wpm >= 40 && accuracy >= 90
    ensures level == Intermediate <==> !(wpm >= 40 && accuracy >= 90) && wpm >= 25 && accuracy >= 80
    ensures level == Beginner <==> wpm < 25 || accuracy < 80
  {
    if wpm >= 40 && accuracy >= 90 then Advanced
    else if wpm >= 25 && accuracy >= 80 then Intermediate
    else Beginner
  }

  function LevelRank(level: SkillLevel): nat
  {
    match level
    case Beginner => 0
    case Intermediate => 1
    case Advanced => 2
  }

  /** Faster and more accurate never classifies lower. */
  lemma SkillLevelMonotone(wpm: int, accuracy: int, wpm': int, accuracy': int)
    requires wpm <= wpm' && accuracy <= accuracy'
    ensures LevelRank(SkillLevelOf(wpm, accuracy)) <= LevelRank(SkillLevelOf(wpm', accuracy'))
  {
  }

  /**
   * The milliseconds used for wpm: the time since the start, capped at thirty seconds, or the
   * full thirty seconds when the test never started.
   */
  function ActualMs(startTime: Option<int>, now: int): (ms: int)
    requires startTime.None? || now > startTime.value
    ensures 0 < ms <= TestSeconds * 1000
    ensures startTime.Some? && now - startTime.value < TestSeconds * 1000 ==> ms == now - startTime.value
    ensures startTime.None? || now - startTime.value >= TestSeconds * 1000 ==> ms == TestSeconds * 1000
  {
    if startTime.Some? then Min(now - startTime.value, TestSeconds * 1000) else TestSeconds * 1000
  }

  datatype AssessmentResult = AssessmentResult(wpm: int, accuracy: int, level: SkillLevel, correctChars: nat, totalChars: nat)

  /**
   * calculateResults as a value: the correct characters are those matching the snippet,
   * accuracy is 0 for empty input, wpm is rounded over the capped time, and the level is
   * classified from the two.
   */
  function ResultOf(userInput: string, startTime: Option<int>, now: int): (r: AssessmentResult)
    requires startTime.None? || now > startTime.value
    ensures r.correctChars == MatchCount(userInput, AssessmentCode)
    ensures r.correctChars <= r.totalChars == |userInput|
    ensures |userInput| == 0 ==> r.accuracy == 0
    ensures |userInput| > 0 ==> r.accuracy == Percent(r.correctChars, |userInput|)
    ensures 0 <= r.accuracy <= 100 && r.wpm >= 0
    ensures var ms := ActualMs(startTime, now);
            2 * ms * r.wpm <= 24000 * r.correctChars + ms < 2 * ms * (r.wpm + 1)
    ensures r.level == SkillLevelOf(r.wpm, r.accuracy)
  {
    var correct := MatchCount(userInput, AssessmentCode);
    var accuracy := if |userInput| > 0 then Percent(correct, |userInput|) else 0;
    var wpm := WordsPerMinute(correct, ActualMs(startTime, now));
    AssessmentResult(wpm, accuracy, SkillLevelOf(wpm, accuracy), correct, |userInput|)
  }

  /** calculateResults: the counting loop, which computes ResultOf. */
  method CalculateResults(userInput: string, startTime: Option<int>, now: int) returns (r: AssessmentResult)
    requires startTime.None? || now > startTime.value
    ensures r == ResultOf(userInput, startTime, now)
  {
    var actualMs := ActualMs(startTime, now);
    var correctChars := 0;
    var i := 0;
    while i < |userInput|
      invariant 0 <= i <= |userInput|
      invariant correctChars == MatchCount(userInput[..i], AssessmentCode)
    {
      assert userInput[..i + 1][..i] == userInput[..i];
      if i < |AssessmentCode| && userInput[i] == AssessmentCode[i] {
        correctChars := correctChars + 1;
      }
      i := i + 1;
    }
    assert userInput[..i] == userInput;
    var accuracy := if |userInput| > 0 then Percent(correctChars, |userInput|) else 0;
    var wpm := WordsPerMinute(correctChars, actualMs);
    r := AssessmentResult(wpm, accuracy, SkillLevelOf(wpm, accuracy), correctChars, |userInput|);
  }

  /** Typing the snippet exactly scores every character correct with accuracy 100. */
  lemma ExactRunIsAccurate(startTime: Option<int>, now: int)
    requires startTime.None? || now > startTime.value
    ensures ResultOf(AssessmentCode, startTime, now).correctChars == |AssessmentCode|
    ensures ResultOf(AssessmentCode, startTime, now).accuracy == 100
  {
    MatchCountAllIffPrefix(AssessmentCode, AssessmentCode);
  }

  /** goals.filter(g => g !== id) */
  function RemoveGoal(goals: seq<string>, id: string): (r: seq<string>)
    ensures forall g :: g in r <==> g in goals && g != id
  {
    if goals == [] then []
    else
      var p := goals[..|goals| - 1];
      var last := goals[|goals| - 1];
      assert goals == p + [last];
      RemoveGoal(p, id) + (if last != id then [last] else [])
  }

  /** The goal toggle: remove every copy of a selected goal, append an unselected one. */
  function ToggleGoal(goals: seq<string>, id: string): (r: seq<string>)
    ensures id in goals ==> id !in r && forall g :: g != id ==> (g in r <==> g in goals)
    ensures id !in goals ==> r == goals + [id]
  {
    if id in goals then RemoveGoal(goals, id) else goals + [id]
  }

  /** Removing a goal that is not selected changes nothing. */
  lemma {:induction false} RemoveAbsentGoal(goals: seq<string>, id: string)
    requires id !in goals
    ensures RemoveGoal(goals, id) == goals
  {
    if goals != [] {
      var p := goals[..|goals| - 1];
      assert goals == p + [goals[|goals| - 1]];
      RemoveAbsentGoal(p, id);
    }
  }

  /**
   * Toggling twice restores which goals are selected, and restores the list itself when the
   * goal was not selected.
   */
  lemma ToggleTwice(goals: seq<string>, id: string)
    ensures forall g :: g in ToggleGoal(ToggleGoal(goals, id), id) <==> g in goals
    ensures id !in goals ==> ToggleGoal(ToggleGoal(goals, id), id) == goals
  {
    if id !in goals {
      var once := goals + [id];
      assert id in once;
      RemoveGoalAppended(goals, id);
    }
  }

  lemma RemoveGoalAppended(goals: seq<string>, id: string)
    requires id !in goals
    ensures RemoveGoal(goals + [id], id) == goals
  {
    assert (goals + [id])[..|goals|] == goals;
    RemoveAbsentGoal(goals, id);
  }

  datatype Preferences = Preferences(language: string, experience: string, goals: seq<string>)

  const DefaultPreferences := Preferences("javascript", "intermediate", [])

  /** The assessment screen's state. step 0 is the intro, 1 the test, 2 the preferences. */
  class Assessment {
    var step: nat
    var testStarted: bool
    var userInput: string
    var timeLeft: int
    var startTime: Option<int>
    var preferences: Preferences

    predicate Valid()
      reads this
    {
      |userInput| <= |AssessmentCode|
    }

    constructor ()
      ensures Valid()
      ensures step == 0 && !testStarted && userInput == "" && timeLeft == TestSeconds
      ensures startTime == None && preferences == DefaultPreferences
    {
      step := 0;
      testStarted := false;
      userInput := "";
      timeLeft := TestSeconds;
      startTime := None;
      preferences := DefaultPreferences;
    }

    /** handleStartTest: step 1 with the test running from now. */
    method HandleStartTest(now: int)
      modifies this
      ensures step == 1 && testStarted && startTime == Some(now)
      ensures userInput == old(userInput) && timeLeft == old(timeLeft) && preferences == old(preferences)
    {
      testStarted := true;
      startTime := Some(now);
      step := 1;
    }

    /** handleTestComplete: step 2 with the test stopped. */
    method HandleTestComplete()
      modifies this
      ensures step == 2 && !testStarted
      ensures userInput == old(userInput) && timeLeft == old(timeLeft) && startTime == old(startTime)
      ensures preferences == old(preferences)
    {
      testStarted := false;
      step := 2;
    }

    /**
     * handleInputChange: a value longer than the snippet is ignored; otherwise it becomes the
     * input, and typing the snippet exactly ends the test.
     */
    method HandleInputChange(value: string)
      requires Valid()
      modifies this
      ensures Valid()
      ensures timeLeft == old(timeLeft) && startTime == old(startTime) && preferences == old(preferences)
      ensures |value| > |AssessmentCode| ==> userInput == old(userInput) && step == old(step) && testStarted == old(testStarted)
      ensures |value| <= |AssessmentCode| ==> userInput == value
      ensures value == AssessmentCode ==> step == 2 && !testStarted
      ensures value != AssessmentCode ==> step == old(step) && testStarted == old(testStarted)
    {
      if |value| <= |AssessmentCode| {
        userInput := value;
        if value == AssessmentCode {
          HandleTestComplete();
        }
      }
    }

    /** One second of the countdown while the test runs, ending it at one second or less left. */
    method Tick()
      modifies this
      ensures userInput == old(userInput) && startTime == old(startTime) && preferences == old(preferences)
      ensures !(old(testStarted) && old(timeLeft) > 0) ==>
                timeLeft == old(timeLeft) && step == old(step) && testStarted == old(testStarted)
      ensures old(testStarted) && 1 < old(timeLeft) ==> timeLeft == old(timeLeft) - 1 && step == old(step) && testStarted
      ensures old(testStarted) && 0 < old(timeLeft) <= 1 ==> timeLeft == 0 && step == 2 && !testStarted
    {
      if testStarted && timeLeft > 0 {
        if timeLeft <= 1 {
          HandleTestComplete();
          timeLeft := 0;
        } else {
          timeLeft := timeLeft - 1;
        }
      }
    }

    /** The goal buttons: toggle one goal in the preferences. */
    method ToggleGoalPreference(id: string)
      modifies this
      ensures preferences == old(preferences).(goals := ToggleGoal(old(preferences).goals, id))
      ensures step == old(step) && testStarted == old(testStarted) && userInput == old(userInput)
      ensures timeLeft == old(timeLeft) && startTime == old(startTime)
    {
      preferences := preferences.(goals := ToggleGoal(preferences.goals, id));
    }

    /** The language and experience buttons. */
    method SetLanguage(language: string)
      modifies this
      ensures preferences == old(preferences).(language := language)
      ensures step == old(step) && testStarted == old(testStarted) && userInput == old(userInput)
      ensures timeLeft == old(timeLeft) && startTime == old(startTime)
    {
      preferences := preferences.(language := language);
    }

    method SetExperience(experience: string)
      modifies this
      ensures preferences == old(preferences).(experience := experience)
      ensures step == old(step) && testStarted == old(testStarted) && userInput == old(userInput)
      ensures timeLeft == old(timeLeft) && startTime == old(startTime)
    {
      preferences := preferences.(experience := experience);
    }

    /** handleComplete: the results of the test together with the chosen preferences. */
    method HandleComplete(now: int) returns (results: AssessmentResult, prefs: Preferences)
      requires Valid()
      requires startTime.None? || now > startTime.value
      ensures results == ResultOf(userInput, startTime, now) && prefs == preferences
    {
      results := CalculateResults(userInput, startTime, now);
      prefs := preferences;
    }
  }
}
