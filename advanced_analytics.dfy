/**
 * AdvancedAnalytics: per-session error tables built from the recorded characters, the
 * timeframe filter over stored sessions, and the merged table of the most frequent errors.
 */
module AdvancedAnalytics {
  import opened Wrappers
  import opened Numeric
  import opened Session

  /** One { char, count } entry of an error table. */
  datatype ErrorEntry = ErrorEntry(ch: char, count: nat)

  /** The total count recorded for c in a list of entries. */
  function SumFor(es: seq<ErrorEntry>, c: char): nat
  {
    if es == [] then 0 else (if es[0].ch == c then es[0].count else 0) + SumFor(es[1..], c)
  }

  lemma {:induction false} SumForAppend(a: seq<ErrorEntry>, b: seq<ErrorEntry>, d: char)
    ensures SumFor(a + b, d) == SumFor(a, d) + SumFor(b, d)
  {
    if a == [] {
      assert a + b == b;
    } else {
      assert (a + b)[1..] == a[1..] + b;
      SumForAppend(a[1..], b, d);
    }
  }

  /** Some entry of the table has key c. */
  predicate HasKey(t: seq<ErrorEntry>, c: char)
  {
    t != [] && (t[0].ch == c || HasKey(t[1..], c))
  }

  /** No key occurs twice in the table. */
  predicate Distinct(t: seq<ErrorEntry>)
  {
    t == [] || (!HasKey(t[1..], t[0].ch) && Distinct(t[1..]))
  }

  /** Every entry counts at least one occurrence. */
  predicate Positive(t: seq<ErrorEntry>)
  {
    forall i :: 0 <= i < |t| ==> t[i].count >= 1
  }

  lemma {:induction false} HasKeyIffMember(t: seq<ErrorEntry>, c: char)
    ensures HasKey(t, c) <==> exists e :: e in t && e.ch == c
  {
    if t != [] {
      HasKeyIffMember(t[1..], c);
      assert t == [t[0]] + t[1..];
    }
  }

  lemma {:induction false} NoKeyNoSum(t: seq<ErrorEntry>, c: char)
    requires !HasKey(t, c)
    ensures SumFor(t, c) == 0
  {
    if t != [] {
      NoKeyNoSum(t[1..], c);
    }
  }

  /** In a table with distinct keys, an entry's count is the total recorded for its key. */
  lemma {:induction false} EntryCountIsSum(t: seq<ErrorEntry>, e: ErrorEntry)
    requires Distinct(t) && e in t
    ensures e.count == SumFor(t, e.ch)
  {
    if t[0] == e {
      NoKeyNoSum(t[1..], e.ch);
    } else {
      assert e in t[1..] by { assert t == [t[0]] + t[1..]; }
      HasKeyIffMember(t[1..], e.ch);
      EntryCountIsSum(t[1..], e);
    }
  }

  /** errorMap[c] = (errorMap[c] || 0) + k on a table that keeps its keys in insertion order. */
  function Bump(t: seq<ErrorEntry>, c: char, k: nat): seq<ErrorEntry>
  {
    if t == [] then [ErrorEntry(c, k)]
    else if t[0].ch == c then [ErrorEntry(c, t[0].count + k)] + t[1..]
    else [t[0]] + Bump(t[1..], c, k)
  }

  /** Bumping adds k to c's total and leaves every other key's total alone. */
  lemma {:induction false} BumpSum(t: seq<ErrorEntry>, c: char, k: nat, d: char)
    ensures SumFor(Bump(t, c, k), d) == SumFor(t, d) + (if d == c then k else 0)
  {
    if t != [] && t[0].ch != c {
      BumpSum(t[1..], c, k, d);
      assert ([t[0]] + Bump(t[1..], c, k))[1..] == Bump(t[1..], c, k);
    } else if t != [] {
      assert ([ErrorEntry(c, t[0].count + k)] + t[1..])[1..] == t[1..];
    }
  }

  lemma {:induction false} BumpHasKey(t: seq<ErrorEntry>, c: char, k: nat, d: char)
    ensures HasKey(Bump(t, c, k), d) <==> d == c || HasKey(t, d)
  {
    if t != [] && t[0].ch != c {
      BumpHasKey(t[1..], c, k, d);
      assert ([t[0]] + Bump(t[1..], c, k))[1..] == Bump(t[1..], c, k);
    } else if t != [] {
      assert ([ErrorEntry(c, t[0].count + k)] + t[1..])[1..] == t[1..];
    }
  }

  /** Bumping keeps keys distinct and counts positive (for a positive k). */
  lemma {:induction false} BumpKeeps(t: seq<ErrorEntry>, c: char, k: nat)
    ensures Distinct(t) ==> Distinct(Bump(t, c, k))
    ensures Positive(t) && k >= 1 ==> Positive(Bump(t, c, k))
  {
    if t != [] && t[0].ch != c {
      BumpKeeps(t[1..], c, k);
      BumpHasKey(t[1..], c, k, t[0].ch);
      assert ([t[0]] + Bump(t[1..], c, k))[1..] == Bump(t[1..], c, k);
    } else if t != [] {
      assert ([ErrorEntry(c, t[0].count + k)] + t[1..])[1..] == t[1..];
    }
  }

  /** The table a forEach builds by bumping each entry's key by its count, in order. */
  function Tally(es: seq<ErrorEntry>): seq<ErrorEntry>
  {
    if es == [] then [] else Bump(Tally(es[..|es| - 1]), es[|es| - 1].ch, es[|es| - 1].count)
  }

  /**
   * The tally records, for each key, the sum of the counts listed for it; its keys are
   * distinct, and its counts positive when the listed ones are.
   */
  lemma {:induction false} TallyFacts(es: seq<ErrorEntry>)
    ensures forall d :: SumFor(Tally(es), d) == SumFor(es, d)
    ensures Distinct(Tally(es))
    ensures Positive(es) ==> Positive(Tally(es))
  {
    if es != [] {
      var p := es[..|es| - 1];
      var last := es[|es| - 1];
      assert es == p + [last];
      TallyFacts(p);
      BumpKeeps(Tally(p), last.ch, last.count);
      forall d ensures SumFor(Tally(es), d) == SumFor(es, d) {
        SumForAppend(p, [last], d);
        assert [last][1..] == [];
        BumpSum(Tally(p), last.ch, last.count, d);
      }
    }
  }

  /** The two orders the table is put in: Object.entries order, then count descending. */
  datatype Order = ByKey | ByCountDesc

  /**
   * Object.entries lists integer-like keys (here the digits) first in ascending order, then
   * the other keys in insertion order: a stable sort by this rank.
   */
  function KeyRank(c: char): int
  {
    if '0' <= c <= '9' then c as int - '0' as int else 10
  }

  function KeyOf(o: Order, e: ErrorEntry): int
  {
    match o
    case ByKey => KeyRank(e.ch)
    case ByCountDesc => -(e.count as int)
  }

  predicate Sorted(o: Order, s: seq<ErrorEntry>)
  {
    forall i, j :: 0 <= i < j < |s| ==> KeyOf(o, s[i]) <= KeyOf(o, s[j])
  }

  /** Insert x before the first element whose key is not smaller, keeping equal keys in order. */
  function InsertBy(o: Order, x: ErrorEntry, s: seq<ErrorEntry>): seq<ErrorEntry>
  {
    if s == [] || KeyOf(o, x) <= KeyOf(o, s[0]) then [x] + s
    else [s[0]] + InsertBy(o, x, s[1..])
  }

  lemma {:induction false} InsertByFacts(o: Order, x: ErrorEntry, s: seq<ErrorEntry>)
    ensures multiset(InsertBy(o, x, s)) == multiset(s) + multiset{x}
    ensures forall d :: HasKey(InsertBy(o, x, s), d) <==> d == x.ch || HasKey(s, d)
    ensures Distinct(s) && !HasKey(s, x.ch) ==> Distinct(InsertBy(o, x, s))
  {
    var r := InsertBy(o, x, s);
    if s == [] || KeyOf(o, x) <= KeyOf(o, s[0]) {
      assert r[1..] == s;
    } else {
      var rest := InsertBy(o, x, s[1..]);
      InsertByFacts(o, x, s[1..]);
      assert r[1..] == rest;
      assert s == [s[0]] + s[1..];
    }
  }

  /** Every key of s is at least lo. */
  predicate AllAtLeast(o: Order, s: seq<ErrorEntry>, lo: int)
  {
    forall j :: 0 <= j < |s| ==> lo <= KeyOf(o, s[j])
  }

  lemma {:induction false} InsertByAtLeast(o: Order, x: ErrorEntry, s: seq<ErrorEntry>, lo: int)
    requires AllAtLeast(o, s, lo) && lo <= KeyOf(o, x)
    ensures AllAtLeast(o, InsertBy(o, x, s), lo)
  {
    if s != [] && KeyOf(o, x) > KeyOf(o, s[0]) {
      InsertByAtLeast(o, x, s[1..], lo);
    }
  }

  lemma ConsSorted(o: Order, h: ErrorEntry, rest: seq<ErrorEntry>)
    requires Sorted(o, rest) && AllAtLeast(o, rest, KeyOf(o, h))
    ensures Sorted(o, [h] + rest)
  {
    var r := [h] + rest;
    forall i, j | 0 <= i < j < |r| ensures KeyOf(o, r[i]) <= KeyOf(o, r[j]) {
      assert r[j] == rest[j - 1];
      if i > 0 {
        assert r[i] == rest[i - 1];
      }
    }
  }

  lemma {:induction false} InsertBySorted(o: Order, x: ErrorEntry, s: seq<ErrorEntry>)
    requires Sorted(o, s)
    ensures Sorted(o, InsertBy(o, x, s))
  {
    if s == [] || KeyOf(o, x) <= KeyOf(o, s[0]) {
      ConsSorted(o, x, s);
    } else {
      InsertBySorted(o, x, s[1..]);
      assert AllAtLeast(o, s[1..], KeyOf(o, s[0]));
      InsertByAtLeast(o, x, s[1..], KeyOf(o, s[0]));
      ConsSorted(o, s[0], InsertBy(o, x, s[1..]));
    }
  }

  /** A stable insertion sort by the order's key. */
  function SortBy(o: Order, s: seq<ErrorEntry>): seq<ErrorEntry>
  {
    if s == [] then [] else InsertBy(o, s[0], SortBy(o, s[1..]))
  }

  /** The sort is a sorted permutation, and keeps keys distinct. */
  lemma {:induction false} SortByFacts(o: Order, s: seq<ErrorEntry>)
    ensures multiset(SortBy(o, s)) == multiset(s)
    ensures Sorted(o, SortBy(o, s))
    ensures forall d :: HasKey(SortBy(o, s), d) <==> HasKey(s, d)
    ensures Distinct(s) ==> Distinct(SortBy(o, s))
  {
    if s != [] {
      SortByFacts(o, s[1..]);
      InsertByFacts(o, s[0], SortBy(o, s[1..]));
      InsertBySorted(o, s[0], SortBy(o, s[1..]));
      assert s == [s[0]] + s[1..];
    }
  }

  lemma {:induction false} DistinctPrefix(t: seq<ErrorEntry>, n: nat)
    requires Distinct(t) && n <= |t|
    ensures Distinct(t[..n])
  {
    if n > 0 {
      assert t[..n][1..] == t[1..][..n - 1];
      DistinctPrefix(t[1..], n - 1);
      PrefixHasKey(t[1..], n - 1, t[0].ch);
    }
  }

  lemma {:induction false} PrefixHasKey(t: seq<ErrorEntry>, n: nat, c: char)
    requires n <= |t|
    ensures HasKey(t[..n], c) ==> HasKey(t, c)
  {
    if n > 0 {
      assert t[..n][1..] == t[1..][..n - 1];
      PrefixHasKey(t[1..], n - 1, c);
    }
  }

  /** Object.entries(errorMap), sorted by count descending, first ten. */
  function TopTen(t: seq<ErrorEntry>): (r: seq<ErrorEntry>)
    ensures |r| <= 10
  {
    var full := SortBy(ByCountDesc, SortBy(ByKey, t));
    full[..Min(10, |full|)]
  }

  /**
   * The top ten are at most ten entries of the table, in non-increasing count order, with
   * distinct keys; any entry left out has a count no larger than the tenth one kept.
   */
  lemma TopTenFacts(t: seq<ErrorEntry>)
    requires Distinct(t)
    ensures var r := TopTen(t);
            && |r| == Min(10, |t|)
            && Sorted(ByCountDesc, r) && Distinct(r)
            && (forall e :: e in r ==> e in t)
            && (forall e :: e in t && e !in r ==> |r| == 10 && e.count <= r[9].count)
  {
    var k := SortBy(ByKey, t);
    SortByFacts(ByKey, t);
    SortByFacts(ByCountDesc, k);
    TakeTen(SortBy(ByCountDesc, k), t);
  }

  /** Taking the first ten of a sorted permutation of t. */
  lemma TakeTen(full: seq<ErrorEntry>, t: seq<ErrorEntry>)
    requires multiset(full) == multiset(t) && Sorted(ByCountDesc, full) && Distinct(full)
    ensures var r := full[..Min(10, |full|)];
            && |r| == Min(10, |t|)
            && Sorted(ByCountDesc, r) && Distinct(r)
            && (forall e :: e in r ==> e in t)
            && (forall e :: e in t && e !in r ==> |r| == 10 && e.count <= r[9].count)
  {
    var r := full[..Min(10, |full|)];
    assert |full| == |multiset(full)| == |multiset(t)| == |t|;
    DistinctPrefix(full, Min(10, |full|));
    forall e | e in r ensures e in t {
      assert e in multiset(full);
    }
    forall e | e in t && e !in r ensures |r| == 10 && e.count <= r[9].count {
      assert e in multiset(full);
      var j :| 0 <= j < |full| && full[j] == e;
      assert KeyOf(ByCountDesc, full[9]) <= KeyOf(ByCountDesc, full[j]);
    }
  }

  /** The incorrect entries of a charStats list as { expected, 1 } pairs, in order. */
  function IncorrectEntries(stats: seq<CharStat>): (es: seq<ErrorEntry>)
    ensures Positive(es)
  {
    if stats == [] then []
    else
      var last := stats[|stats| - 1];
      IncorrectEntries(stats[..|stats| - 1]) + (if !last.correct then [ErrorEntry(last.expected, 1)] else [])
  }

  /** How many charStats entries expected c and were typed wrong. */
  function IncorrectCount(stats: seq<CharStat>, c: char): nat
  {
    if stats == [] then 0
    else
      var last := stats[|stats| - 1];
      IncorrectCount(stats[..|stats| - 1], c) + (if !last.correct && last.expected == c then 1 else 0)
  }

  lemma {:induction false} IncorrectEntriesCount(stats: seq<CharStat>)
    ensures forall c :: SumFor(IncorrectEntries(stats), c) == IncorrectCount(stats, c)
  {
    if stats != [] {
      var p := stats[..|stats| - 1];
      var last := stats[|stats| - 1];
      var tail := if !last.correct then [ErrorEntry(last.expected, 1)] else [];
      IncorrectEntriesCount(p);
      forall c ensures SumFor(IncorrectEntries(stats), c) == IncorrectCount(stats, c) {
        SumForAppend(IncorrectEntries(p), tail, c);
        assert tail != [] ==> tail[1..] == [];
      }
    }
  }

  /** generateErrorsFromCharStats as a value. */
  function ErrorsOf(stats: seq<CharStat>): (r: seq<ErrorEntry>)
    ensures |r| <= 10
  {
    TopTen(Tally(IncorrectEntries(stats)))
  }

  /**
   * The error table of a session counts, for each character it lists, exactly the wrongly
   * typed positions that expected it; it lists each character once with a count of at least
   * one, at most ten of them by non-increasing count, and leaves out only characters with
   * no more errors than the tenth.
   */
  lemma ErrorsOfCounts(stats: seq<CharStat>)
    ensures var r := ErrorsOf(stats);
            && |r| <= 10 && Sorted(ByCountDesc, r) && Distinct(r)
            && (forall e :: e in r ==> e.count == IncorrectCount(stats, e.ch) && e.count >= 1)
            && (forall c :: IncorrectCount(stats, c) > 0 && !HasKey(r, c) ==>
                  |r| == 10 && IncorrectCount(stats, c) <= r[9].count)
  {
    var es := IncorrectEntries(stats);
    var t := Tally(es);
    var r := ErrorsOf(stats);
    IncorrectEntriesCount(stats);
    TallyFacts(es);
    TopTenFacts(t);
    forall e | e in r ensures e.count == IncorrectCount(stats, e.ch) && e.count >= 1 {
      EntryCountIsSum(t, e);
      var i :| 0 <= i < |t| && t[i] == e;
    }
    forall c | IncorrectCount(stats, c) > 0 && !HasKey(r, c)
      ensures |r| == 10 && IncorrectCount(stats, c) <= r[9].count
    {
      var e := EntryForKey(t, c);
      HasKeyIffMember(r, c);
      EntryCountIsSum(t, e);
    }
  }

  /** A key with a positive total has an entry. */
  lemma EntryForKey(t: seq<ErrorEntry>, c: char) returns (e: ErrorEntry)
    requires SumFor(t, c) > 0
    ensures e in t && e.ch == c
  {
    if !HasKey(t, c) {
      NoKeyNoSum(t, c);
    }
    HasKeyIffMember(t, c);
    e :| e in t && e.ch == c;
  }

  /** generateErrorsFromCharStats: the forEach over charStats, then entries, sort and slice. */
  method GenerateErrorsFromCharStats(charStats: seq<CharStat>) returns (errors: seq<ErrorEntry>)
    ensures errors == ErrorsOf(charStats)
  {
    var errorMap: seq<ErrorEntry> := [];
    var i := 0;
    while i < |charStats|
      invariant 0 <= i <= |charStats|
      invariant errorMap == Tally(IncorrectEntries(charStats[..i]))
    {
      var stat := charStats[i];
      assert charStats[..i + 1][..i] == charStats[..i];
      ghost var es := IncorrectEntries(charStats[..i]);
      if !stat.correct {
        assert (es + [ErrorEntry(stat.expected, 1)])[..|es|] == es;
        errorMap := Bump(errorMap, stat.expected, 1);
      } else {
        assert es + [] == es;
      }
      i := i + 1;
    }
    assert charStats[..i] == charStats;
    errors := TopTen(errorMap);
  }

  /** One stored session as the analytics view reads it; date is in milliseconds. */
  datatype SessionRecord = SessionRecord(date: int, wpm: int, accuracy: int, duration: int, language: string,
                                         errors: seq<ErrorEntry>, keystrokes: nat)

  datatype Timeframe = Day | Week | Month | All

  const DayMs := 24 * 60 * 60 * 1000

  /** The window of each timeframe in days; All has none. */
  function WindowDays(tf: Timeframe): Option<nat>
  {
    match tf
    case Day => Some(1)
    case Week => Some(7)
    case Month => Some(30)
    case All => None
  }

  /** A session passes when its date is no earlier than the cutoff now minus the window. */
  predicate InWindow(s: SessionRecord, tf: Timeframe, now: int)
  {
    WindowDays(tf).None? || s.date >= now - WindowDays(tf).value * DayMs
  }

  /** filteredSessions: every session for All, otherwise those inside the window, in order. */
  function FilterSessions(sessions: seq<SessionRecord>, tf: Timeframe, now: int): (r: seq<SessionRecord>)
    ensures tf == All ==> r == sessions
    ensures |r| <= |sessions|
    ensures forall s :: s in r <==> s in sessions && InWindow(s, tf, now)
  {
    if tf == All then sessions
    else if sessions == [] then []
    else
      var p := sessions[..|sessions| - 1];
      var last := sessions[|sessions| - 1];
      assert sessions == p + [last];
      FilterSessions(p, tf, now) + (if InWindow(last, tf, now) then [last] else [])
  }

  /** Appending one session appends it to the result when it lies in the window. */
  lemma FilterSessionsSnoc(p: seq<SessionRecord>, last: SessionRecord, tf: Timeframe, now: int)
    requires tf != All
    ensures FilterSessions(p + [last], tf, now) ==
            FilterSessions(p, tf, now) + (if InWindow(last, tf, now) then [last] else [])
  {
    assert (p + [last])[..|p + [last]| - 1] == p;
  }

  /** Under a windowed timeframe, filtering a concatenation filters each part in order. */
  lemma {:induction false} FilterWindowAppend(a: seq<SessionRecord>, b: seq<SessionRecord>, tf: Timeframe, now: int)
    requires tf != All
    ensures FilterSessions(a + b, tf, now) == FilterSessions(a, tf, now) + FilterSessions(b, tf, now)
    decreases |b|
  {
    if b == [] {
      assert a + b == a;
    } else {
      var b' := b[..|b| - 1];
      var last := b[|b| - 1];
      assert b == b' + [last];
      assert a + b == (a + b') + [last];
      FilterSessionsSnoc(a + b', last, tf, now);
      FilterSessionsSnoc(b', last, tf, now);
      FilterWindowAppend(a, b', tf, now);
      AppendAssociates(FilterSessions(a, tf, now), FilterSessions(b', tf, now),
                       if InWindow(last, tf, now) then [last] else []);
    }
  }

  /** Filtering a concatenation filters each part and keeps them in order. */
  lemma FilterSessionsAppend(a: seq<SessionRecord>, b: seq<SessionRecord>, tf: Timeframe, now: int)
    ensures FilterSessions(a + b, tf, now) == FilterSessions(a, tf, now) + FilterSessions(b, tf, now)
  {
    if tf != All {
      FilterWindowAppend(a, b, tf, now);
    }
  }

  /** A single session is kept exactly when it lies in the window. */
  lemma FilterSessionsSingle(s: SessionRecord, tf: Timeframe, now: int)
    ensures FilterSessions([s], tf, now) == if InWindow(s, tf, now) then [s] else []
  {
    if tf != All {
      assert [s][..0] == [];
      assert FilterSessions([s], tf, now) == FilterSessions([], tf, now) + (if InWindow(s, tf, now) then [s] else []);
    }
  }

  /** Together: the filter keeps the sessions in window, in their original order. */
  lemma FilterSessionsCons(s: SessionRecord, rest: seq<SessionRecord>, tf: Timeframe, now: int)
    ensures FilterSessions([s] + rest, tf, now) ==
            (if InWindow(s, tf, now) then [s] else []) + FilterSessions(rest, tf, now)
  {
    FilterSessionsAppend([s], rest, tf, now);
    FilterSessionsSingle(s, tf, now);
  }

  /** A longer window keeps every session a shorter one keeps. */
  lemma WindowsNest(s: SessionRecord, now: int)
    ensures InWindow(s, Day, now) ==> InWindow(s, Week, now)
    ensures InWindow(s, Week, now) ==> InWindow(s, Month, now)
    ensures InWindow(s, All, now)
  {
  }

  /** flatMap(s => s.errors) */
  function AllErrors(sessions: seq<SessionRecord>): seq<ErrorEntry>
  {
    if sessions == [] then [] else AllErrors(sessions[..|sessions| - 1]) + sessions[|sessions| - 1].errors
  }

  /** The sum of c's counts over each session's own error list. */
  function SessionsSum(sessions: seq<SessionRecord>, c: char): nat
  {
    if sessions == [] then 0 else SessionsSum(sessions[..|sessions| - 1], c) + SumFor(sessions[|sessions| - 1].errors, c)
  }

  lemma {:induction false} AllErrorsSum(sessions: seq<SessionRecord>)
    ensures forall c :: SumFor(AllErrors(sessions), c) == SessionsSum(sessions, c)
  {
    if sessions != [] {
      var p := sessions[..|sessions| - 1];
      AllErrorsSum(p);
      forall c ensures SumFor(AllErrors(sessions), c) == SessionsSum(sessions, c) {
        SumForAppend(AllErrors(p), sessions[|sessions| - 1].errors, c);
      }
    }
  }

  /** The merged topErrors as a value. */
  function TopErrorsOf(sessions: seq<SessionRecord>): (r: seq<ErrorEntry>)
    ensures |r| <= 10
  {
    TopTen(Tally(AllErrors(sessions)))
  }

  /**
   * Each merged entry's count is the sum of that character's counts over the sessions;
   * the list holds at most ten distinct characters by non-increasing count, and a character
   * left out has no larger sum than the tenth kept.
   */
  lemma TopErrorsCounts(sessions: seq<SessionRecord>)
    ensures var r := TopErrorsOf(sessions);
            && |r| <= 10 && Sorted(ByCountDesc, r) && Distinct(r)
            && (forall e :: e in r ==> e.count == SessionsSum(sessions, e.ch))
            && (forall c :: SessionsSum(sessions, c) > 0 && !HasKey(r, c) ==>
                  |r| == 10 && SessionsSum(sessions, c) <= r[9].count)
  {
    var t := Tally(AllErrors(sessions));
    var r := TopErrorsOf(sessions);
    AllErrorsSum(sessions);
    TallyFacts(AllErrors(sessions));
    TopTenFacts(t);
    forall e | e in r ensures e.count == SessionsSum(sessions, e.ch) {
      EntryCountIsSum(t, e);
    }
    forall c | SessionsSum(sessions, c) > 0 && !HasKey(r, c)
      ensures |r| == 10 && SessionsSum(sessions, c) <= r[9].count
    {
      var e := EntryForKey(t, c);
      HasKeyIffMember(r, c);
      EntryCountIsSum(t, e);
    }
  }

  /** The merge: flatMap into allErrors, then a forEach adding each count into errorMap. */
  method TopErrors(sessions: seq<SessionRecord>) returns (topErrors: seq<ErrorEntry>)
    ensures topErrors == TopErrorsOf(sessions)
  {
    var allErrors := AllErrors(sessions);
    var errorMap: seq<ErrorEntry> := [];
    var i := 0;
    while i < |allErrors|
      invariant 0 <= i <= |allErrors|
      invariant errorMap == Tally(allErrors[..i])
    {
      assert allErrors[..i + 1][..i] == allErrors[..i];
      errorMap := Bump(errorMap, allErrors[i].ch, allErrors[i].count);
      i := i + 1;
    }
    assert allErrors[..i] == allErrors;
    topErrors := TopTen(errorMap);
  }

  function SumKeystrokes(sessions: seq<SessionRecord>): nat
  {
    if sessions == [] then 0 else SumKeystrokes(sessions[..|sessions| - 1]) + sessions[|sessions| - 1].keystrokes
  }

  /** The part of the analytics object modelled here: the session count, keystrokes and top errors. */
  datatype Analytics = Analytics(totalSessions: nat, totalKeystrokes: nat, topErrors: seq<ErrorEntry>)

  /** analytics: null for an empty filtered list, otherwise the totals and the merged errors. */
  function AnalyticsOf(filtered: seq<SessionRecord>): (a: Option<Analytics>)
    ensures a.None? <==> |filtered| == 0
    ensures a.Some? ==> a.value.totalSessions == |filtered| && |a.value.topErrors| <= 10
    ensures a.Some? ==> a.value.totalKeystrokes == SumKeystrokes(filtered) && a.value.topErrors == TopErrorsOf(filtered)
  {
    TallyFacts(AllErrors(filtered));
    TopTenFacts(Tally(AllErrors(filtered)));
    if |filtered| == 0 then None
    else Some(Analytics(|filtered|, SumKeystrokes(filtered), TopErrorsOf(filtered)))
  }

  /** With the All timeframe there is data exactly when some session is stored. */
  lemma AllTimeframeHasData(sessions: seq<SessionRecord>, now: int)
    ensures AnalyticsOf(FilterSessions(sessions, All, now)).Some? <==> |sessions| > 0
  {
  }

  /** Under a windowed timeframe, there is data exactly when some session lies in the window. */
  lemma WindowHasData(sessions: seq<SessionRecord>, tf: Timeframe, now: int)
    ensures AnalyticsOf(FilterSessions(sessions, tf, now)).Some? <==>
            exists s :: s in sessions && InWindow(s, tf, now)
  {
    var f := FilterSessions(sessions, tf, now);
    if |f| > 0 {
      assert f[0] in f;
    }
  }
}
