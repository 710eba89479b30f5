/** The values the typing screens produce and the ledgers consume. */
module Session {

  /** One typed character, as recorded by MainTypingScreen in its charStats list. */
  datatype CharStat = CharStat(expected: char, typed: char, correct: bool, timestamp: int)

  /**
   * The results object a typing screen hands on when a session ends. Times are integer
   * milliseconds (timeElapsedMs) or whole seconds (timeLeft, originalDuration).
   */
  datatype SessionResult = SessionResult(
    correctChars: nat,
    incorrectChars: nat,
    totalChars: nat,
    accuracy: int,
    wpm: int,
    timeElapsedMs: int,
    targetText: string,
    userInput: string,
    charStats: seq<CharStat>,
    completed: bool,
    timeLeft: int,
    originalDuration: int)

  /**
   * The character-by-character comparison every scorer performs: the number of positions
   * i < |input| where the target has a character and input[i] equals it.
   */
  function MatchCount(input: string, target: string): (n: nat)
    ensures n <= |input|
    decreases |input|
  {
    if input == [] then 0
    else MatchCount(input[..|input| - 1], target) + (if Matches(input, target, |input| - 1) then 1 else 0)
  }

  /** Position i of input is typed correctly against target. */
  predicate Matches(input: string, target: string, i: nat)
    requires i < |input|
  {
    i < |target| && input[i] == target[i]
  }

  /** Every typed character is correct exactly when the input is a prefix of the target. */
  lemma {:induction false} MatchCountAllIffPrefix(input: string, target: string)
    ensures MatchCount(input, target) == |input| <==> input <= target
    decreases |input|
  {
    if input != [] {
      var n := |input| - 1;
      var p := input[..n];
      MatchCountAllIffPrefix(p, target);
      assert input == p + [input[n]];
      if input <= target {
        assert p <= target by { assert target[..n] == input[..n]; }
        assert Matches(input, target, n) by { assert target[n] == input[n]; }
      }
      if MatchCount(input, target) == |input| {
        assert MatchCount(p, target) == |p| && Matches(input, target, n);
        assert target[..|input|] == target[..n] + [target[n]];
      }
    }
  }

  /** Number of charStats entries whose correct flag is b (a filter(...).length). */
  function CountWhere(stats: seq<CharStat>, b: bool): (n: nat)
    ensures n <= |stats|
  {
    if stats == [] then 0
    else CountWhere(stats[..|stats| - 1], b) + (if stats[|stats| - 1].correct == b then 1 else 0)
  }

  /** Each entry is either correct or incorrect, so the two filters partition the list. */
  lemma {:induction false} CountWherePartition(stats: seq<CharStat>)
    ensures CountWhere(stats, true) + CountWhere(stats, false) == |stats|
  {
    if stats != [] {
      CountWherePartition(stats[..|stats| - 1]);
    }
  }

  /** The class a rendered target character gets: char-correct, -incorrect, -current or -pending. */
  datatype CharClass = Correct | Incorrect | Current | Pending

  /**
   * The class of target position index against the typed input. Typed positions are correct
   * or incorrect by match; the position right after the input is current only when the
   * screen shows a cursor there; everything else is pending.
   */
  function Classify(input: string, target: string, index: nat, cursor: bool): CharClass
    requires index < |target|
  {
    if index < |input| then (if input[index] == target[index] then Correct else Incorrect)
    else if index == |input| && cursor then Current
    else Pending
  }

  /** One class per target character, in order (the map over the target's characters). */
  function Overlay(input: string, target: string, cursor: bool): (r: seq<CharClass>)
    ensures |r| == |target|
    ensures forall i :: 0 <= i < |target| ==> (r[i] == Current <==> cursor && i == |input|)
    ensures forall i :: 0 <= i < |target| ==> (r[i] == Pending <==> |input| <= i && !(cursor && i == |input|))
    ensures forall i :: 0 <= i < |target| && i < |input| ==> (r[i] == Correct <==> Matches(input, target, i))
  {
    seq(|target|, i requires 0 <= i < |target| => Classify(input, target, i, cursor))
  }

  /** Number of entries of cs equal to c. */
  function CountClass(cs: seq<CharClass>, c: CharClass): (n: nat)
    ensures n <= |cs|
  {
    if cs == [] then 0
    else CountClass(cs[..|cs| - 1], c) + (if cs[|cs| - 1] == c then 1 else 0)
  }

  /**
   * The first k rendered characters mark as correct exactly the correctly typed characters
   * among the first k typed ones.
   */
  lemma {:induction false} OverlayPrefixCorrect(input: string, target: string, cursor: bool, k: nat)
    requires |input| <= |target| && k <= |target|
    ensures CountClass(Overlay(input, target, cursor)[..k], Correct)
            == MatchCount(input[..if k < |input| then k else |input|], target)
  {
    var ov := Overlay(input, target, cursor);
    if k > 0 {
      OverlayPrefixCorrect(input, target, cursor, k - 1);
      assert ov[..k][..k - 1] == ov[..k - 1];
      if k <= |input| {
        var q := input[..k];
        assert q[..k - 1] == input[..k - 1];
        assert (ov[k - 1] == Correct) == Matches(q, target, k - 1);
      } else {
        assert ov[k - 1] != Correct;
      }
    }
  }

  /**
   * Over the whole target, the correct marks number exactly MatchCount and the incorrect
   * marks the rest of the typed characters (for input no longer than the target).
   */
  lemma OverlayCounts(input: string, target: string, cursor: bool)
    requires |input| <= |target|
    ensures CountClass(Overlay(input, target, cursor), Correct) == MatchCount(input, target)
    ensures CountClass(Overlay(input, target, cursor), Incorrect) == |input| - MatchCount(input, target)
  {
    var ov := Overlay(input, target, cursor);
    OverlayPrefixCorrect(input, target, cursor, |target|);
    assert ov[..|target|] == ov;
    assert input[..|input|] == input;
    OverlayPrefixIncorrect(input, target, cursor, |target|);
  }

  lemma {:induction false} OverlayPrefixIncorrect(input: string, target: string, cursor: bool, k: nat)
    requires |input| <= |target| && k <= |target|
    ensures var m := if k < |input| then k else |input|;
            CountClass(Overlay(input, target, cursor)[..k], Incorrect) == m - MatchCount(input[..m], target)
  {
    var ov := Overlay(input, target, cursor);
    if k > 0 {
      OverlayPrefixIncorrect(input, target, cursor, k - 1);
      assert ov[..k][..k - 1] == ov[..k - 1];
      if k <= |input| {
        var q := input[..k];
        assert q[..k - 1] == input[..k - 1];
        assert (ov[k - 1] == Incorrect) == !Matches(q, target, k - 1);
      } else {
        assert ov[k - 1] != Incorrect;
      }
    }
  }
}
