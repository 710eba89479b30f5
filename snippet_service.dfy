/**
 * SnippetService: picks a random snippet of a (language, difficulty) bucket while keeping a
 * per-bucket list of recently used ids, so that snippets rotate instead of repeating.
 */
module SnippetService {
  import opened Wrappers
  import opened Numeric

  datatype Snippet = Snippet(id: string, title: string, code: string)

  /** snippetsLibrary: language, then difficulty, then the bucket of snippets. */
  type Library = map<string, map<string, seq<Snippet>>>

  /** snippetsLibrary[language]?.[difficulty] || []. */
  function Bucket(library: Library, language: string, difficulty: string): seq<Snippet>
  {
    if language in library && difficulty in library[language] then library[language][difficulty] else []
  }

  /** The usedSnippets key `${language}_${difficulty}`. */
  function HistoryKey(language: string, difficulty: string): string
  {
    language + "_" + difficulty
  }

  /** The history stored under a key, empty when there is none. */
  function HistoryAt(used: map<string, seq<string>>, key: string): seq<string>
  {
    if key in used then used[key] else []
  }

  /** snippets.filter(snippet => !history.includes(snippet.id)), keeping the bucket's order. */
  function Unused(snippets: seq<Snippet>, history: seq<string>): (r: seq<Snippet>)
    ensures |r| <= |snippets|
    ensures forall s :: s in r <==> s in snippets && s.id !in history
  {
    if snippets == [] then []
    else
      var p := snippets[..|snippets| - 1];
      var last := snippets[|snippets| - 1];
      assert snippets == p + [last];
      Unused(p, history) + (if last.id !in history then [last] else [])
  }

  /** Appending one snippet appends it to the result when its id is not in the history. */
  lemma UnusedSnoc(p: seq<Snippet>, last: Snippet, history: seq<string>)
    ensures Unused(p + [last], history) == Unused(p, history) + (if last.id !in history then [last] else [])
  {
    assert (p + [last])[..|p + [last]| - 1] == p;
  }

  /** Filtering a concatenation filters each part and keeps them in order. */
  lemma {:induction false} UnusedAppend(a: seq<Snippet>, b: seq<Snippet>, history: seq<string>)
    ensures Unused(a + b, history) == Unused(a, history) + Unused(b, history)
    decreases |b|
  {
    if b == [] {
      assert a + b == a;
    } else {
      var b' := b[..|b| - 1];
      var last := b[|b| - 1];
      assert b == b' + [last];
      assert a + b == (a + b') + [last];
      UnusedSnoc(a + b', last, history);
      UnusedSnoc(b', last, history);
      UnusedAppend(a, b', history);
      AppendAssociates(Unused(a, history), Unused(b', history), if last.id !in history then [last] else []);
    }
  }

  /** The first snippet is kept exactly when its id is not in the history, ahead of the rest. */
  lemma UnusedCons(s: Snippet, rest: seq<Snippet>, history: seq<string>)
    ensures Unused([s] + rest, history) == (if s.id !in history then [s] else []) + Unused(rest, history)
  {
    UnusedAppend([s], rest, history);
    UnusedSnoc([], s, history);
    assert [] + [s] == [s];
  }

  /** The snippets to choose from: the unused ones, or the whole bucket once all are used. */
  function Available(snippets: seq<Snippet>, history: seq<string>): (r: seq<Snippet>)
    requires |snippets| > 0
    ensures |r| > 0 && forall s :: s in r ==> s in snippets
  {
    var unused := Unused(snippets, history);
    if |unused| == 0 then snippets else unused
  }

  /** Math.floor(random * n) for a Math.random() value in [0, 1): an index below n. */
  function PickIndex(random: real, n: nat): (i: nat)
    requires 0.0 <= random < 1.0 && n > 0
    ensures i < n
  {
    ScaleBelow(random, n as real);
    var x := random * (n as real);
    assert x.Floor as real <= x < n as real;
    x.Floor
  }

  lemma ScaleBelow(random: real, n: real)
    requires 0.0 <= random < 1.0 && n > 0.0
    ensures 0.0 <= random * n < n
  {
  }

  /** The snippet getRandomSnippet returns for a given Math.random() value. */
  function Chosen(snippets: seq<Snippet>, history: seq<string>, random: real): (c: Snippet)
    requires |snippets| > 0 && 0.0 <= random < 1.0
    ensures c in Available(snippets, history)
  {
    var a := Available(snippets, history);
    a[PickIndex(random, |a|)]
  }

  /** maxHistory: Math.min(snippets.length - 1, 10). */
  function MaxHistory(n: nat): int
  {
    Min(n - 1, 10)
  }

  /**
   * The history after a choice: emptied first if every snippet was used, the chosen id
   * pushed, and the oldest entry shifted off when the list is longer than maxHistory.
   */
  function NextHistory(snippets: seq<Snippet>, history: seq<string>, id: string): (h: seq<string>)
    ensures |h| <= |history| + 1
    ensures h != [] ==> h[|h| - 1] == id
  {
    var base := if |Unused(snippets, history)| == 0 then [] else history;
    var pushed := base + [id];
    if |pushed| > MaxHistory(|snippets|) then pushed[1..] else pushed
  }

  /** The returned snippet always belongs to the bucket. */
  lemma ChosenInBucket(snippets: seq<Snippet>, history: seq<string>, random: real)
    requires |snippets| > 0 && 0.0 <= random < 1.0
    ensures Chosen(snippets, history, random) in snippets
  {
  }

  /** While some snippet of the bucket is unused, the one returned was not used recently. */
  lemma ChosenIsUnused(snippets: seq<Snippet>, history: seq<string>, random: real)
    requires |snippets| > 0 && 0.0 <= random < 1.0
    requires exists s :: s in snippets && s.id !in history
    ensures Chosen(snippets, history, random).id !in history
  {
    var s :| s in snippets && s.id !in history;
    assert s in Unused(snippets, history);
  }

  /** When every snippet was used recently the history restarts from the chosen id alone. */
  lemma ExhaustedHistoryRestarts(snippets: seq<Snippet>, history: seq<string>, id: string)
    requires |snippets| > 0
    requires forall s :: s in snippets ==> s.id in history
    ensures NextHistory(snippets, history, id) == if |snippets| == 1 then [] else [id]
  {
    if |Unused(snippets, history)| > 0 {
      var s := Unused(snippets, history)[0];
      assert s in Unused(snippets, history);
    }
  }

  /** A history within maxHistory stays within it. */
  lemma HistoryStaysBounded(snippets: seq<Snippet>, history: seq<string>, id: string)
    requires |snippets| > 0
    requires |history| <= MaxHistory(|snippets|)
    ensures |NextHistory(snippets, history, id)| <= MaxHistory(|snippets|)
  {
  }

  /** For buckets of two or more snippets, the chosen id is the newest history entry. */
  lemma ChosenIsNewest(snippets: seq<Snippet>, history: seq<string>, id: string)
    requires |snippets| >= 2
    ensures var h := NextHistory(snippets, history, id); |h| > 0 && h[|h| - 1] == id
  {
  }

  /** The ids of a bucket are pairwise different. */
  predicate DistinctIds(snippets: seq<Snippet>)
  {
    forall i, j :: 0 <= i < j < |snippets| ==> snippets[i].id != snippets[j].id
  }

  function IdSet(snippets: seq<Snippet>): set<string>
  {
    set s | s in snippets :: s.id
  }

  lemma {:induction false} DistinctIdSetSize(snippets: seq<Snippet>)
    requires DistinctIds(snippets)
    ensures |IdSet(snippets)| == |snippets|
  {
    if snippets != [] {
      var p := snippets[..|snippets| - 1];
      var last := snippets[|snippets| - 1];
      assert DistinctIds(p);
      DistinctIdSetSize(p);
      assert snippets == p + [last];
      assert IdSet(snippets) == IdSet(p) + {last.id};
      assert last.id !in IdSet(p);
    }
  }

  lemma {:induction false} SeqSetSize(history: seq<string>)
    ensures |set x | x in history| <= |history|
  {
    if history != [] {
      var p := history[..|history| - 1];
      SeqSetSize(p);
      assert history == p + [history[|history| - 1]];
      assert (set x | x in history) == (set x | x in p) + {history[|history| - 1]};
    }
  }

  lemma SubsetSize(a: set<string>, b: set<string>)
    requires a <= b
    ensures |a| <= |b|
  {
    assert b == a + (b - a);
  }

  /**
   * With distinct ids and a history within maxHistory, the bucket is never exhausted, so a
   * snippet is never returned twice in a row: the previous choice is not picked again.
   */
  lemma NoImmediateRepeat(snippets: seq<Snippet>, history: seq<string>, random: real)
    requires |snippets| >= 2 && 0.0 <= random < 1.0
    requires DistinctIds(snippets)
    requires |history| <= MaxHistory(|snippets|) && |history| > 0
    ensures Chosen(snippets, history, random).id != history[|history| - 1]
  {
    if forall s :: s in snippets ==> s.id in history {
      DistinctIdSetSize(snippets);
      SeqSetSize(history);
      SubsetSize(IdSet(snippets), set x | x in history);
      assert false;
    }
    ChosenIsUnused(snippets, history, random);
  }

  const EmptyBucketPrefix := "No snippets found for "

  /** The service object with its library and its usedSnippets table. */
  class SnippetSource {
    const library: Library
    var usedSnippets: map<string, seq<string>>

    /** The constructor; the table loaded from storage is passed in. */
    constructor (library: Library, stored: map<string, seq<string>>)
      ensures this.library == library && usedSnippets == stored
    {
      this.library := library;
      usedSnippets := stored;
    }

    /**
     * getRandomSnippet: throws for an empty or missing bucket; otherwise returns the snippet
     * Chosen for the Math.random() value and records it, changing only this bucket's history.
     */
    method GetRandomSnippet(language: string, difficulty: string, random: real) returns (r: Result<Snippet, string>)
      requires 0.0 <= random < 1.0
      modifies this
      ensures var snippets, key := Bucket(library, language, difficulty), HistoryKey(language, difficulty);
              if |snippets| == 0 then
                r == Failure(EmptyBucketPrefix + language + " - " + difficulty) && usedSnippets == old(usedSnippets)
              else
                var history := HistoryAt(old(usedSnippets), key);
                && r == Success(Chosen(snippets, history, random))
                && usedSnippets == old(usedSnippets)[key := NextHistory(snippets, history, r.value.id)]
    {
      var snippets := Bucket(library, language, difficulty);
      if |snippets| == 0 {
        return Failure(EmptyBucketPrefix + language + " - " + difficulty);
      }
      var key := HistoryKey(language, difficulty);
      ghost var history := HistoryAt(usedSnippets, key);
      if key !in usedSnippets {
        usedSnippets := usedSnippets[key := []];
      }
      var availableSnippets := Unused(snippets, usedSnippets[key]);
      if |availableSnippets| == 0 {
        usedSnippets := usedSnippets[key := []];
        availableSnippets := snippets;
      }
      var randomIndex := PickIndex(random, |availableSnippets|);
      var selectedSnippet := availableSnippets[randomIndex];
      usedSnippets := usedSnippets[key := usedSnippets[key] + [selectedSnippet.id]];
      var maxHistory := Min(|snippets| - 1, 10);
      if |usedSnippets[key]| > maxHistory {
        usedSnippets := usedSnippets[key := usedSnippets[key][1..]];
      }
      r := Success(selectedSnippet);
    }

    /** clearCache: forget every history. */
    method ClearCache()
      modifies this
      ensures usedSnippets == map[]
    {
      usedSnippets := map[];
    }

    /** resetUsedSnippets: empty the history of one bucket if it has one, touching nothing else. */
    method ResetUsedSnippets(language: string, difficulty: string)
      modifies this
      ensures var key := HistoryKey(language, difficulty);
              usedSnippets == if key in old(usedSnippets) then old(usedSnippets)[key := []] else old(usedSnippets)
    {
      var key := HistoryKey(language, difficulty);
      if key in usedSnippets {
        usedSnippets := usedSnippets[key := []];
      }
    }
  }
}
