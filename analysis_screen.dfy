/**
 * AnalysisScreen: the results page. It breaks the recorded characters down by category,
 * rates the session, lines the input up against the target and credits the session's points
 * once per visit.
 */
module AnalysisScreen {
  import opened Wrappers
  import opened Numeric
  import opened Session
  import PointsContext

  /** Correct and total counts of one character category. */
  datatype Tally = Tally(correct: nat, total: nat)

  datatype Breakdown = Breakdown(letters: Tally, numbers: Tally, symbols: Tally, whitespace: Tally)

  datatype Category = Letters | Numbers | Symbols | Whitespace

  const EmptyBreakdown := Breakdown(Tally(0, 0), Tally(0, 0), Tally(0, 0), Tally(0, 0))

  /** /[a-zA-Z]/ */
  predicate IsLetter(c: char)
  {
    ('a' <= c <= 'z') || ('A' <= c <= 'Z')
  }

  /** /[0-9]/ */
  predicate IsNumber(c: char)
  {
    '0' <= c <= '9'
  }

  /** /\s/: the ECMAScript white space and line terminator characters. */
  predicate IsWhitespace(c: char)
  {
    c == '\t' || c == '\n' || c == '\U{B}' || c == '\U{C}' || c == '\r' || c == ' '
    || c == '\U{A0}' || c == '\U{1680}' || ('\U{2000}' <= c <= '\U{200A}') || c == '\U{2028}' || c == '\U{2029}'
    || c == '\U{202F}' || c == '\U{205F}' || c == '\U{3000}' || c == '\U{FEFF}'
  }

  /** The category of an expected character: letters first, then digits, whitespace, symbols. */
  function CategoryOf(c: char): Category
  {
    if IsLetter(c) then Letters
    else if IsNumber(c) then Numbers
    else if IsWhitespace(c) then Whitespace
    else Symbols
  }

  function TallyOf(b: Breakdown, cat: Category): Tally
  {
    match cat
    case Letters => b.letters
    case Numbers => b.numbers
    case Symbols => b.symbols
    case Whitespace => b.whitespace
  }

  /** Count one entry into its category. */
  function Add(b: Breakdown, stat: CharStat): Breakdown
  {
    var t := TallyOf(b, CategoryOf(stat.expected));
    var t' := Tally(t.correct + (if stat.correct then 1 else 0), t.total + 1);
    match CategoryOf(stat.expected)
    case Letters => b.(letters := t')
    case Numbers => b.(numbers := t')
    case Symbols => b.(symbols := t')
    case Whitespace => b.(whitespace := t')
  }

  predicate Consistent(t: Tally)
  {
    t.correct <= t.total
  }

  function TotalOf(b: Breakdown): nat
  {
    b.letters.total + b.numbers.total + b.symbols.total + b.whitespace.total
  }

  function CorrectOf(b: Breakdown): nat
  {
    b.letters.correct + b.numbers.correct + b.symbols.correct + b.whitespace.correct
  }

  /** TallyOf reads back the category Add counted into, and Add leaves the others alone. */
  lemma AddCounts(b: Breakdown, stat: CharStat, cat: Category)
    ensures TallyOf(Add(b, stat), cat) ==
              if cat == CategoryOf(stat.expected)
              then Tally(TallyOf(b, cat).correct + (if stat.correct then 1 else 0), TallyOf(b, cat).total + 1)
              else TallyOf(b, cat)
  {
  }

  /** getCharacterAccuracyBreakdown as a value: the entries counted in one by one. */
  function BreakdownOf(stats: seq<CharStat>): Breakdown
  {
    if stats == [] then EmptyBreakdown
    else Add(BreakdownOf(stats[..|stats| - 1]), stats[|stats| - 1])
  }

  /**
   * Every entry lands in exactly one category, so the totals add up to the number of entries
   * and the corrects to the number of correct ones, with no category more correct than total.
   */
  lemma {:induction false} BreakdownSums(stats: seq<CharStat>)
    ensures var b := BreakdownOf(stats);
            && TotalOf(b) == |stats|
            && CorrectOf(b) == CountWhere(stats, true)
            && Consistent(b.letters) && Consistent(b.numbers) && Consistent(b.symbols) && Consistent(b.whitespace)
  {
    if stats != [] {
      BreakdownSums(stats[..|stats| - 1]);
    }
  }

  /** A category's total counts exactly the entries whose expected character belongs to it. */
  function CountIn(stats: seq<CharStat>, cat: Category): nat
  {
    if stats == [] then 0
    else CountIn(stats[..|stats| - 1], cat) + (if CategoryOf(stats[|stats| - 1].expected) == cat then 1 else 0)
  }

  lemma {:induction false} BreakdownCountsCategory(stats: seq<CharStat>, cat: Category)
    ensures TallyOf(BreakdownOf(stats), cat).total == CountIn(stats, cat)
  {
    if stats != [] {
      var p := stats[..|stats| - 1];
      BreakdownCountsCategory(p, cat);
      AddCounts(BreakdownOf(p), stats[|stats| - 1], cat);
    }
  }

  /** The forEach loop of getCharacterAccuracyBreakdown. */
  method GetCharacterAccuracyBreakdown(charStats: seq<CharStat>) returns (breakdown: Breakdown)
    ensures breakdown == BreakdownOf(charStats)
  {
    breakdown := EmptyBreakdown;
    var i := 0;
    while i < |charStats|
      invariant 0 <= i <= |charStats|
      invariant breakdown == BreakdownOf(charStats[..i])
    {
      assert charStats[..i + 1][..i] == charStats[..i];
      var stat := charStats[i];
      ghost var before := breakdown;
      var t := TallyOf(breakdown, CategoryOf(stat.expected));
      var t' := Tally(t.correct + (if stat.correct then 1 else 0), t.total + 1);
      match CategoryOf(stat.expected) {
        case Letters => breakdown := breakdown.(letters := t');
        case Numbers => breakdown := breakdown.(numbers := t');
        case Symbols => breakdown := breakdown.(symbols := t');
        case Whitespace => breakdown := breakdown.(whitespace := t');
      }
      assert breakdown == Add(before, stat);
      i := i + 1;
    }
    assert charStats[..i] == charStats;
  }

  /** The per-category percentage: 0 for an empty category, otherwise rounded correct/total. */
  function CategoryAccuracy(t: Tally): (p: nat)
    ensures Consistent(t) ==> p <= 100
    ensures t.total > 0 && t.correct == t.total ==> p == 100
    ensures t.correct == 0 ==> p == 0
    ensures t.total > 0 ==> 2 * t.total * p <= 200 * t.correct + t.total < 2 * t.total * (p + 1)
  {
    if t.total > 0 then Percent(t.correct, t.total) else 0
  }

  datatype Rating = Excellent | Good | Average | KeepPracticing

  /** getPerformanceRating: the first of the three thresholds the session meets. */
  function PerformanceRating(wpm: int, accuracy: int): (r: Rating)
    ensures r == Excellent <==> wpm >= 60 && accuracy >= 95
    ensures r == Good <==> !(wpm >= 60 && accuracy >= 95) && wpm >= 40 && accuracy >= 90
    ensures r == Average <==> !(wpm >= 40 && accuracy >= 90) && wpm >= 25 && accuracy >= 80
    ensures r == KeepPracticing <==> wpm < 25 || accuracy < 80
  {
    if wpm >= 60 && accuracy >= 95 then Excellent
    else if wpm >= 40 && accuracy >= 90 then Good
    else if wpm >= 25 && accuracy >= 80 then Average
    else KeepPracticing
  }

  function RatingRank(r: Rating): nat
  {
    match r
    case KeepPracticing => 0
    case Average => 1
    case Good => 2
    case Excellent => 3
  }

  /** A session that is no slower and no less accurate is rated at least as well. */
  lemma RatingMonotone(wpm: int, accuracy: int, wpm': int, accuracy': int)
    requires wpm <= wpm' && accuracy <= accuracy'
    ensures RatingRank(PerformanceRating(wpm, accuracy)) <= RatingRank(PerformanceRating(wpm', accuracy'))
  {
  }

  /** wordsTyped: whole words of five correct characters. */
  function WordsTyped(correctChars: nat): (w: nat)
    ensures 5 * w <= correctChars < 5 * (w + 1)
  {
    correctChars / 5
  }

  datatype Status = Missing | CharCorrect | CharIncorrect

  /** One comparison entry; target and user are one character, or empty past the text's end. */
  datatype ComparisonChar = ComparisonChar(index: nat, target: string, user: string, status: Status)

  /** text[i] || '' */
  function CharAt(text: string, i: nat): (s: string)
    ensures |s| <= 1
    ensures i < |text| ==> s == [text[i]]
    ensures i >= |text| ==> s == ""
  {
    if i < |text| then [text[i]] else ""
  }

  /** The entry renderComparison makes for position i. */
  function ComparisonAt(targetText: string, userInput: string, i: nat): ComparisonChar
  {
    var targetChar := CharAt(targetText, i);
    var userChar := CharAt(userInput, i);
    var status := if i >= |userInput| then Missing else if userChar == targetChar then CharCorrect else CharIncorrect;
    ComparisonChar(i, targetChar, userChar, status)
  }

  /**
   * renderComparison's loop: one entry per position up to the longer text; a position past the
   * input is missing, and a typed one is correct exactly when it matches the target there
   * (so characters typed past the target's end are incorrect).
   */
  method RenderComparison(targetText: string, userInput: string) returns (chars: seq<ComparisonChar>)
    ensures |chars| == Max(|targetText|, |userInput|)
    ensures forall i :: 0 <= i < |chars| ==> chars[i] == ComparisonAt(targetText, userInput, i)
    ensures forall i :: 0 <= i < |chars| ==> chars[i].index == i
    ensures forall i :: 0 <= i < |chars| ==> (chars[i].status == Missing <==> i >= |userInput|)
    ensures forall i :: 0 <= i < |chars| && i < |userInput| ==>
              (chars[i].status == CharCorrect <==> Matches(userInput, targetText, i))
  {
    var maxLength := Max(|targetText|, |userInput|);
    chars := [];
    var i := 0;
    while i < maxLength
      invariant 0 <= i <= maxLength
      invariant |chars| == i
      invariant forall j :: 0 <= j < i ==> chars[j] == ComparisonAt(targetText, userInput, j)
    {
      chars := chars + [ComparisonAt(targetText, userInput, i)];
      i := i + 1;
    }
  }

  /** The points effect of one mounted results page; pointsAdded is pointsAddedRef. */
  class Page {
    const provider: PointsContext.PointsProvider
    var pointsAdded: bool
    var pointsData: Option<PointsContext.AddPointsOutcome>

    constructor (provider: PointsContext.PointsProvider)
      ensures this.provider == provider && !pointsAdded && pointsData == None
    {
      this.provider := provider;
      pointsAdded := false;
      pointsData := None;
    }

    /**
     * The effect: the first run credits the results through addPoints and raises the flag;
     * every later run leaves the ledger untouched.
     */
    method PointsEffect(results: SessionResult, today: int)
      modifies this, provider
      ensures pointsAdded
      ensures old(pointsAdded) ==> pointsData == old(pointsData)
                                   && provider.totalPoints == old(provider.totalPoints) && provider.stats == old(provider.stats)
      ensures !old(pointsAdded) ==>
                && provider.totalPoints == old(provider.totalPoints) + PointsContext.SessionPoints(results)
                && var n := PointsContext.RecordRace(old(provider.stats), results, today);
                   var earned := PointsContext.Unlocked(PointsContext.Catalog, n, old(provider.stats));
                   && provider.stats == n.(achievements := old(provider.stats).achievements + earned)
                   && pointsData == Some(PointsContext.AddPointsOutcome(PointsContext.SessionPoints(results),
                        provider.totalPoints, PointsContext.Level(provider.totalPoints), earned))
    {
      if !pointsAdded {
        pointsAdded := true;
        var data := provider.AddPoints(results, today);
        pointsData := Some(data);
      }
    }
  }
}
