# CodeType core, modelled in Dafny

This project models the state and the arithmetic at the core of CodeType, a browser typing
trainer for programming-language snippets.

- **Sessions.** A typing session compares what the user typed with a target snippet one
  character at a time. It counts correct and incorrect characters and derives accuracy and
  words per minute (WPM). When the text is finished or the countdown runs out, it reports a
  result.
- **Points, levels and achievements.** PointsContext turns each result into points, a level,
  running statistics and unlocked achievements. GameContext keeps a second level scale,
  day streaks, achievement records and study recommendations.
- **Snippet choice.** snippetService picks a random snippet per language and difficulty. It
  keeps a short history of recently used ids so that a snippet does not come back too soon.

The modules:

- `Numeric` (`numeric.dfy`): JavaScript's `Math.round` of a ratio, percentages, WPM and
  integer square roots.
- `Session` (`session.dfy`): the session result record, its per-character statistics, the
  count of matching characters, and the per-character rendering classes.
- `Clock` (`clock.dfy`): decimal strings and the `m:ss` clock format.
- `PointsContext`, `GameContext`: the two progress providers.
- `SnippetService`: random snippet selection with its recent-use history.
- `MainTypingScreen`, `TypingScreen`, `TypingContext`, `TypingInput`: the typing screens and
  the shared typing state.
- `AnalysisScreen`, `AdvancedAnalytics`: the results page and the cross-session analytics.
- `SkillAssessment`: the 30-second placement test and the preferences form.
- `AuthContext`, `Signup`: the local user store and the sign-up form.

How the model represents the browser:

- Each React provider or screen whose state changes in place is a `class`. Its `useState`
  variables are fields, and its handlers are methods with `modifies` clauses.
- The pure helpers are functions, each with lemmas about it.
- Every loop in the source is a method with loop invariants, proved equal to a
  specification function.
- `Date.now()` is an integer parameter in milliseconds. A calendar date is an integer day
  number.
- `Math.random()` is a real parameter in `[0, 1)`.
- A one-second `setInterval` callback is a `Tick` method.
- `localStorage` is a field: the history map of `SnippetService`, the user list of
  `AuthContext`.

## Model

| member | source | states |
|---|---|---|
| Numeric.RoundRatio | src/components/MainTypingScreen.jsx:129-130 | `Math.round(num/den)` for non-negative integers: the unique r with r − ½ ≤ num/den < r + ½ (halves round up) |
| Numeric.RoundRatioUnique | src/components/MainTypingScreen.jsx:129-130 | any r satisfying the half-up bounds is RoundRatio's result, so the rounding is determined by those bounds |
| Numeric.Percent | src/components/AnalysisScreen.jsx:270 | `Math.round(part/whole*100)`: the whole number p with 2·whole·p ≤ 200·part + whole < 2·whole·(p+1), so within half a point of the exact percentage; at most 100 when part ≤ whole, exactly 100 when part = whole, 0 when part = 0 |
| Numeric.PercentFacts | src/components/TypingScreen.jsx:60 | the rounding bounds of a percentage: 2·whole·p ≤ 200·part + whole < 2·whole·(p+1) |
| Numeric.Isqrt | src/contexts/PointsContext.jsx:46 | `Math.floor(Math.sqrt(n))` on integers: r² ≤ n < (r+1)² |
| Numeric.SquareMonotone | src/contexts/PointsContext.jsx:43-48 | squares grow with their base, which makes the level formulas monotone |
| Numeric.SquareLess | src/contexts/PointsContext.jsx:43-48 | a square below a square has the smaller base |
| Numeric.SquareSucc | src/contexts/GameContext.jsx:28-34 | (r+1)² = r² + 2r + 1, used to place a threshold between two levels |
| Numeric.MulMonotone | src/components/MainTypingScreen.jsx:130 | multiplying by a non-negative factor keeps order (used for the WPM bounds) |
| Session.MatchCount | src/components/TypingScreen.jsx:52-58 | the number of positions where input and target agree, at most the input length |
| Session.MatchCountAllIffPrefix | src/components/TypingScreen.jsx:52-58 | every typed character matches exactly when the input is a prefix of the target |
| Session.CountWhere | src/components/MainTypingScreen.jsx:124-126 | the number of character records with a given correctness, at most their number |
| Session.CountWherePartition | src/components/MainTypingScreen.jsx:124-126 | correct plus incorrect records make up every record |
| Session.Overlay | src/components/MainTypingScreen.jsx:152-168 | one class per target character: Current exactly at the cursor while typing, Pending beyond the input, Correct or Incorrect for typed characters by whether they match |
| Session.CountClass | src/components/MainTypingScreen.jsx:152-168 | the number of rendered characters in one class, at most the length |
| Session.OverlayPrefixCorrect | src/components/MainTypingScreen.jsx:152-168 | the Correct characters of a rendering prefix are the matching typed characters of that prefix |
| Session.OverlayPrefixIncorrect | src/components/MainTypingScreen.jsx:152-168 | the Incorrect characters of a rendering prefix are the mismatching typed characters of that prefix |
| Session.OverlayCounts | src/components/MainTypingScreen.jsx:152-168 | in the full rendering, Correct count = MatchCount and Incorrect count = input length − MatchCount |
| Clock.DigitChar | src/components/MainTypingScreen.jsx:173 | a digit below ten renders as a decimal digit character |
| Clock.NatToString | src/contexts/AuthContext.jsx:45 | `n.toString()`: non-empty decimal digits whose value is n, with no leading zero |
| Clock.LeadingZero | src/components/MainTypingScreen.jsx:173 | a leading '0' does not change a digit string's value (the `padStart`) |
| Clock.PadFacts | src/components/MainTypingScreen.jsx:172-173 | for seconds below 60, `padStart(2, '0')` gives two digits, first at most '5', with the same value |
| Clock.FormatTime | src/components/MainTypingScreen.jsx:170-174 | the text is the minutes in decimal, a colon, and two more characters; parsing it gives back the number of seconds |
| Clock.ParseTime | src/components/MainTypingScreen.jsx:170-174 | the reading of an `m:ss` text that FormatTime is proved against: a parse succeeds only on digits, a colon and two digits, and gives minutes = the digits before the colon and seconds = the two digits after it |
| PointsContext.CalculatePoints | src/contexts/PointsContext.jsx:9-40 | the sequence of `points +=` steps ends at SessionPoints, which is never negative |
| PointsContext.SessionPoints | src/contexts/PointsContext.jsx:9-40 | the points of one result are never negative, and for a non-negative WPM include the participation points, the WPM and the completion bonus |
| PointsContext.PointsBounds | src/contexts/PointsContext.jsx:12-39 | points = participation + wpm + accuracy tier + speed tier + bonuses; at least wpm; at most wpm + 225 for accuracy ≤ 100 |
| PointsContext.PointsMonotone | src/contexts/PointsContext.jsx:12-39 | a session that is as fast and as accurate earns at least as many points |
| PointsContext.PerfectSlowSessionExample | src/contexts/PointsContext.jsx:12-39 | a completed 10 WPM, 100% session earns exactly 95 points |
| PointsContext.PointsForNextLevel | src/contexts/PointsContext.jsx:50-52 | `level² · 50`: a non-negative multiple of 50 |
| PointsContext.Level | src/contexts/PointsContext.jsx:43-52 | `floor(sqrt(total/50)) + 1`: the level whose threshold band contains total |
| PointsContext.LevelUnique | src/contexts/PointsContext.jsx:43-52 | the level is the only one whose band contains the points |
| PointsContext.LevelMonotone | src/contexts/PointsContext.jsx:43-48 | more points never give a lower level |
| PointsContext.LevelOfThreshold | src/contexts/PointsContext.jsx:43-52 | exactly the threshold of level L reaches L, and one point less stays at L − 1 |
| PointsContext.ProgressToNextLevel | src/contexts/PointsContext.jsx:181-184 | the progress percentage lies in [0, 100) |
| PointsContext.FractionBelowOne | src/contexts/PointsContext.jsx:184 | a non-negative numerator below its denominator gives a ratio in [0, 1) |
| PointsContext.RecordRace | src/contexts/PointsContext.jsx:99-109 | the stats update: races + 1, words + correct/5, time added, best values are maxima, perfect races + 1 iff accuracy 100, streak + 1 iff the last race was not today |
| PointsContext.StreakNeverResets | src/contexts/PointsContext.jsx:96-107 | after a gap of days the streak still goes up by one |
| PointsContext.Unlocked | src/contexts/PointsContext.jsx:128-162 | the achievements one update unlocks, at most one per rule |
| PointsContext.UnlockedMembers | src/contexts/PointsContext.jsx:128-162 | an achievement is unlocked iff its rule fires between the old and new stats |
| PointsContext.CheckAchievements | src/contexts/PointsContext.jsx:128-162 | the checking code returns exactly Unlocked for the catalogue, in catalogue order |
| PointsContext.FiresIffCrossing | src/contexts/PointsContext.jsx:131-159 | after one race, each rule fires exactly when its watched statistic crosses its threshold |
| PointsContext.PointsProvider.CurrentLevel | src/contexts/PointsContext.jsx:181-183 | the exposed level is at least 1 and its threshold band holds the provider's total points, so LevelUnique makes it the only such level |
| PointsContext.PointsProvider.constructor | src/contexts/PointsContext.jsx:55-65 | no points and the zero statistics |
| PointsContext.PointsProvider.AddPoints | src/contexts/PointsContext.jsx:91-126 | total grows by SessionPoints; stats become RecordRace with the newly Unlocked achievements appended; the outcome reports points, new total, its Level and the new achievements |
| PointsContext.PointsProvider.ResetProgress | src/contexts/PointsContext.jsx:164-176 | back to no points and the zero statistics |
| GameContext.Level | src/contexts/GameContext.jsx:28-34 | `floor(sqrt(xp/100)) + 1`: the level whose XP band contains xp |
| GameContext.XPForLevel | src/contexts/GameContext.jsx:32-34 | `(level − 1)² · 100`: a non-negative multiple of 100, zero for level 1 |
| GameContext.LevelOfXPForLevel | src/contexts/GameContext.jsx:28-34 | getXPForLevel is the exact threshold: that XP reaches the level, one less does not |
| GameContext.LevelUniqueAt | src/contexts/GameContext.jsx:28-34 | the level is the only one whose band holds the XP |
| GameContext.StreakStep | src/contexts/GameContext.jsx:74-109 | same day: no change; day after: count + 1; otherwise: count back to 1; the date becomes today |
| GameContext.ConsecutiveDays | src/contexts/GameContext.jsx:74-109 | the list of k consecutive day numbers from a first day |
| GameContext.ConsecutiveDaysStreak | src/contexts/GameContext.jsx:74-109 | k consecutive days after a gap give a streak of k ending on the last day |
| GameContext.SameDayTwice | src/contexts/GameContext.jsx:84-89 | a second update on the same day changes nothing |
| GameContext.GameProvider.GetLevel | src/contexts/GameContext.jsx:111-113 | level 1 without a user, otherwise the user's XP band |
| GameContext.GameProvider.GetXPForNextLevel | src/contexts/GameContext.jsx:115-118 | 100 without a user, otherwise above the user's XP; always the least XP that has the next level |
| GameContext.GameProvider.GetRecommendations | src/contexts/GameContext.jsx:130-167 | improvement iff accuracy < 85, speed iff WPM < 40, TypeScript iff level ≥ 3 and not preferred, in that order; none without a user |
| GameContext.DoubleUnlockExample | src/contexts/GameContext.jsx:52-72 | unlocking the same achievement twice stores two records |
| GameContext.DuplicateGuardNeverFires | src/contexts/GameContext.jsx:52-54 | the guard `achievements.some(a => a.id === achievementId)` never stops a catalogue key when every stored record came from the catalogue, because catalogue ids differ from catalogue keys |
| GameContext.GameProvider.constructor | src/contexts/GameContext.jsx:36-38 | the given user, no achievement records, no streaks |
| GameContext.GameProvider.AddAchievement | src/contexts/GameContext.jsx:52-72 | no user or an unknown key or a matching stored id: nothing changes; otherwise the unlocked record for the catalogue entry is appended and returned |
| GameContext.GameProvider.UpdateStreak | src/contexts/GameContext.jsx:74-109 | no user: nothing; same day: the stored count is returned unchanged; otherwise the kind's entry becomes StreakStep, only that entry changes, and a count of 7 unlocks STREAK_7 |
| SnippetService.Unused | src/services/snippetService.js:49-51 | exactly the snippets whose id is not in the history, no more of them than in the bucket |
| SnippetService.UnusedSnoc | src/services/snippetService.js:49-51 | one more snippet at the end of the bucket is kept at the end of the result iff its id is not in the history |
| SnippetService.UnusedAppend | src/services/snippetService.js:49-51 | filtering a concatenation is the concatenation of the filtered parts, so the bucket order is kept |
| SnippetService.UnusedCons | src/services/snippetService.js:49-51 | the first snippet comes first in the result iff its id is not in the history, followed by the filtered rest |
| SnippetService.Available | src/services/snippetService.js:49-58 | there is always something to choose from, and it comes from the bucket |
| SnippetService.PickIndex | src/services/snippetService.js:61 | `Math.floor(random * n)` is a valid index |
| SnippetService.ScaleBelow | src/services/snippetService.js:61 | random · n lies in [0, n) |
| SnippetService.Chosen | src/services/snippetService.js:49-62 | the snippet at `floor(random · n)` of the available list, so one of the available snippets |
| SnippetService.NextHistory | src/services/snippetService.js:54-71 | the history after a choice is at most one entry longer, and its newest entry, if any, is the chosen id |
| SnippetService.ChosenInBucket | src/services/snippetService.js:33-77 | the returned snippet belongs to the requested bucket |
| SnippetService.ChosenIsUnused | src/services/snippetService.js:49-62 | while some snippet is unused, the returned one is not in the history |
| SnippetService.ExhaustedHistoryRestarts | src/services/snippetService.js:54-71 | when every snippet was used the history restarts with only the new id (empty for one-snippet buckets) |
| SnippetService.HistoryStaysBounded | src/services/snippetService.js:64-71 | the history never grows beyond maxHistory = min(n − 1, 10) |
| SnippetService.ChosenIsNewest | src/services/snippetService.js:65-71 | for buckets of two or more, the returned id is the newest history entry |
| SnippetService.DistinctIdSetSize | src/services/snippetService.js:49-51 | distinct ids give an id set as large as the bucket |
| SnippetService.SeqSetSize | src/services/snippetService.js:54-58 | a history holds at most as many distinct ids as entries |
| SnippetService.SubsetSize | src/services/snippetService.js:54-58 | a subset is no larger than its superset |
| SnippetService.NoImmediateRepeat | src/services/snippetService.js:33-77 | with distinct ids and a bounded history, the previous snippet is never returned again straight away |
| SnippetService.SnippetSource.GetRandomSnippet | src/services/snippetService.js:33-77 | empty or missing bucket: the error message and nothing stored; otherwise the chosen snippet, and only this bucket's history is replaced by NextHistory |
| SnippetService.SnippetSource.ClearCache | src/services/snippetService.js:80-84 | the whole history is emptied |
| SnippetService.SnippetSource.ResetUsedSnippets | src/services/snippetService.js:87-94 | only the named bucket's history is emptied, and only if it exists |
| SnippetService.SnippetSource.constructor | src/services/snippetService.js:33-77 | the given library and stored history |
| MainTypingScreen.BuildCharStats | src/components/MainTypingScreen.jsx:100-109 | one record per typed character: expected, typed, correct iff equal, stamped now |
| MainTypingScreen.RecordsCountMatches | src/components/MainTypingScreen.jsx:124-126 | the correct records are the matching characters, the incorrect ones the rest |
| MainTypingScreen.CompletionResult | src/components/MainTypingScreen.jsx:121-146 | results: counts partition the records, accuracy = Percent(correct, records) with at least one character (0 for none, 100 with no errors), elapsed ≥ 1 s (whole duration if never started), WPM rounded, completed |
| MainTypingScreen.CompletionCountsMatches | src/components/MainTypingScreen.jsx:121-146 | the reported correct count is MatchCount; no errors iff the input is a prefix; an exact run is completed with 100% |
| MainTypingScreen.Screen.Rendered | src/components/MainTypingScreen.jsx:152-168 | the on-screen Correct/Incorrect counts agree with the charStats counts; the cursor is only at the input end while typing |
| MainTypingScreen.Screen.constructor | src/components/MainTypingScreen.jsx:10-15 | empty input, not typing, no start time, the full duration left, no records |
| MainTypingScreen.Screen.ResetSession | src/components/MainTypingScreen.jsx:77-84 | clears input, typing flag, start time and records and restores the full duration, keeping the snippet |
| MainTypingScreen.Screen.LoadNewSnippet | src/components/MainTypingScreen.jsx:68-75 | non-empty bucket: the snippet at `floor(random·n)` and a reset session; empty bucket: nothing changes |
| MainTypingScreen.Screen.HandleInputChange | src/components/MainTypingScreen.jsx:86-119 | the first non-empty input starts the clock; an input within the snippet length is stored with its records; a longer one is ignored; completion is scheduled iff the length reaches the snippet's |
| MainTypingScreen.Screen.HandleComplete | src/components/MainTypingScreen.jsx:121-146 | stops typing and reports CompletionResult of the current state, changing nothing else |
| MainTypingScreen.Screen.Tick | src/components/MainTypingScreen.jsx:50-66 | only while typing with time left: at one second or less it completes and shows 0, otherwise the clock goes down by one and typing goes on; not typing or no time left: nothing changes; the start time is always kept |
| TypingScreen.StatsOf | src/components/TypingScreen.jsx:47-65 | live stats: correct = MatchCount, counts partition the input, accuracy = Percent(correct, typed) and 100 for empty input, WPM 0 before time passes, otherwise rounded |
| TypingScreen.CalculateStats | src/components/TypingScreen.jsx:47-65 | the counting loop computes StatsOf |
| TypingScreen.PrefixHasNoErrors | src/components/TypingScreen.jsx:52-60 | no errors iff the input is a prefix of the target; the full target is 100% accurate |
| TypingScreen.CompletionResult | src/components/TypingScreen.jsx:85-103 | `{...calculateStats(userInput), …}`: incorrect = typed − correct, accuracy and WPM those of StatsOf for the input; completed iff input equals target; elapsed is now − start, or the whole duration if never started |
| TypingScreen.Screen.Rendered | src/components/TypingScreen.jsx:106-120 | one class per target character, the cursor at the input end, Correct count = MatchCount |
| TypingScreen.Screen.constructor | src/components/TypingScreen.jsx:4-14 | empty input, full duration, no start time, inactive, the initial statistics |
| TypingScreen.Screen.Start | src/components/TypingScreen.jsx:21-25 | the mount effect records the start time and activates the session |
| TypingScreen.Screen.HandleInputChange | src/components/TypingScreen.jsx:68-103 | an input within the target length is stored with StatsOf; a longer one is ignored; a result is reported iff the input equals the target, and that result is CompletionResult of the previous input, as the handleComplete closure of the current render sees it, so it is completed only if the previous input already equalled the target |
| TypingScreen.Screen.HandleComplete | src/components/TypingScreen.jsx:85-103 | deactivates and reports CompletionResult of the current input |
| TypingScreen.Screen.Tick | src/components/TypingScreen.jsx:28-44 | only while active with time left: at one second or less it completes and shows 0, otherwise the clock goes down by one |
| TypingContext.StatsOf | src/contexts/TypingContext.jsx:51-79 | the given stats for empty input or target; otherwise the counts, accuracy = Percent(correct, typed) and the WPM from the given elapsed seconds |
| TypingContext.CalculateStats | src/contexts/TypingContext.jsx:51-79 | the counting loop computes StatsOf |
| TypingContext.OverflowIsError | src/contexts/TypingContext.jsx:59-65 | characters typed past the end of the target are all errors |
| TypingContext.Provider.constructor | src/contexts/TypingContext.jsx:23-33 | the reset statistics, also as the statistics calculateStats has captured; inactive, empty input, no start time |
| TypingContext.Provider.UpdateStats | src/contexts/TypingContext.jsx:51-84 | the statistics become StatsOf the statistics captured by calculateStats (the render where `stats.timeElapsed` last changed), not the latest ones; nothing else changes |
| TypingContext.Provider.StartSession | src/contexts/TypingContext.jsx:86-89 | active, started now, statistics, captured statistics and input kept |
| TypingContext.Provider.ResetSession | src/contexts/TypingContext.jsx:91-103 | empty input, inactive, no start time, the reset statistics; the captured statistics are re-captured exactly when the elapsed seconds change |
| TypingContext.Provider.SetIsActive | src/contexts/TypingContext.jsx:105-115 | sets only the active flag |
| TypingContext.Provider.SetUserInput | src/contexts/TypingContext.jsx:105-115 | sets only the input |
| TypingContext.Provider.Tick | src/contexts/TypingContext.jsx:37-49 | while active and started, the elapsed seconds become `floor((now − start)/1000)`; otherwise nothing changes; the captured statistics are re-captured iff the elapsed seconds changed |
| TypingContext.StaleStatsExample | src/contexts/TypingContext.jsx:51-84 | after typing one correct character, clearing the input brings back the initial statistics captured before it, not the one-character statistics |
| TypingInput.HandleChange | src/components/TypingInput.jsx:22-29 | a change is forwarded, unchanged, iff it is no longer than the target |
| TypingInput.HandleKeyDown | src/components/TypingInput.jsx:32-43 | Ctrl+V is blocked; a single printable key starts an inactive session |
| TypingInput.RenderOverlay | src/components/TypingInput.jsx:46-62 | nothing without a target; otherwise one class per target character as Overlay gives |
| TypingInput.OverlayCountsMatches | src/components/TypingInput.jsx:46-62 | the overlay's Correct count is MatchCount of the accepted value |
| AnalysisScreen.AddCounts | src/components/AnalysisScreen.jsx:40-61 | one record adds 1 to its own category's total, and to its correct count iff correct |
| AnalysisScreen.BreakdownSums | src/components/AnalysisScreen.jsx:40-61 | the category totals add up to the records, the corrects to the correct records, and each category has correct ≤ total |
| AnalysisScreen.BreakdownCountsCategory | src/components/AnalysisScreen.jsx:40-61 | each category's total is the number of its expected characters |
| AnalysisScreen.GetCharacterAccuracyBreakdown | src/components/AnalysisScreen.jsx:40-61 | the classification loop computes BreakdownOf |
| AnalysisScreen.CategoryAccuracy | src/components/AnalysisScreen.jsx:270 | a category's rounded accuracy is 0..100, 100 when all correct, 0 when none or empty |
| AnalysisScreen.PerformanceRating | src/components/AnalysisScreen.jsx:75-80 | the first tier met, each stated both ways: excellent iff WPM ≥ 60 and accuracy ≥ 95; good iff not excellent and WPM ≥ 40, accuracy ≥ 90; average iff the good thresholds are not both met and WPM ≥ 25, accuracy ≥ 80; "keep practicing" iff WPM < 25 or accuracy < 80 |
| AnalysisScreen.RatingMonotone | src/components/AnalysisScreen.jsx:75-80 | faster and more accurate never gives a lower rating |
| AnalysisScreen.WordsTyped | src/components/AnalysisScreen.jsx:36 | words typed = floor(correct/5) |
| AnalysisScreen.CharAt | src/components/AnalysisScreen.jsx:91-92 | `text[i] \|\| ''`: the character at i, or empty past the end |
| AnalysisScreen.RenderComparison | src/components/AnalysisScreen.jsx:85-107 | one entry per position up to the longer text: missing iff not typed, otherwise correct iff the characters agree |
| AnalysisScreen.Page.constructor | src/components/AnalysisScreen.jsx:7 | points not yet added, no points data |
| AnalysisScreen.Page.PointsEffect | src/components/AnalysisScreen.jsx:66-72 | the first call adds the results' points and keeps the outcome; later calls change nothing |
| AdvancedAnalytics.SumForAppend | src/components/AdvancedAnalytics.jsx:86-95 | the count of a character over two lists is the sum of the two counts |
| AdvancedAnalytics.HasKeyIffMember | src/components/AdvancedAnalytics.jsx:86-95 | a list has a key iff some entry carries that character |
| AdvancedAnalytics.NoKeyNoSum | src/components/AdvancedAnalytics.jsx:86-95 | a character without an entry counts zero |
| AdvancedAnalytics.EntryCountIsSum | src/components/AdvancedAnalytics.jsx:86-95 | in a list with distinct keys an entry's count is its character's whole count |
| AdvancedAnalytics.BumpSum | src/components/AdvancedAnalytics.jsx:89 | `errorMap[char] = (errorMap[char] \|\| 0) + count` adds count to that character only |
| AdvancedAnalytics.BumpHasKey | src/components/AdvancedAnalytics.jsx:89 | after the update the keys are the old ones plus the character |
| AdvancedAnalytics.BumpKeeps | src/components/AdvancedAnalytics.jsx:43 | the update keeps keys distinct and counts positive |
| AdvancedAnalytics.TallyFacts | src/components/AdvancedAnalytics.jsx:86-90 | the merged map counts every character as the entries do, with distinct keys and positive counts |
| AdvancedAnalytics.InsertByFacts | src/components/AdvancedAnalytics.jsx:48-50 | inserting adds exactly one entry and its key, keeping keys distinct |
| AdvancedAnalytics.InsertByAtLeast | src/components/AdvancedAnalytics.jsx:48-50 | inserting keeps a lower bound on the sort key |
| AdvancedAnalytics.ConsSorted | src/components/AdvancedAnalytics.jsx:48-50 | a head no larger than the rest extends a sorted list |
| AdvancedAnalytics.InsertBySorted | src/components/AdvancedAnalytics.jsx:48-50 | inserting into a sorted list keeps it sorted |
| AdvancedAnalytics.SortByFacts | src/components/AdvancedAnalytics.jsx:48-50 | sorting gives a sorted permutation with the same keys |
| AdvancedAnalytics.DistinctPrefix | src/components/AdvancedAnalytics.jsx:50 | a prefix of a list with distinct keys has distinct keys |
| AdvancedAnalytics.PrefixHasKey | src/components/AdvancedAnalytics.jsx:50 | a key of a prefix is a key of the list |
| AdvancedAnalytics.TopTen | src/components/AdvancedAnalytics.jsx:48-50 | `sort` by count descending and `slice(0, 10)`: at most ten entries (TopTenFacts states the rest) |
| AdvancedAnalytics.TopTenFacts | src/components/AdvancedAnalytics.jsx:92-95 | at most ten entries, sorted by descending count, each from the input, and every input entry left out counts no more than the tenth |
| AdvancedAnalytics.TakeTen | src/components/AdvancedAnalytics.jsx:50 | the first ten of a sorted permutation are the largest ten |
| AdvancedAnalytics.IncorrectEntries | src/components/AdvancedAnalytics.jsx:40-45 | one entry of count 1 per incorrect record, so every count is positive |
| AdvancedAnalytics.IncorrectEntriesCount | src/components/AdvancedAnalytics.jsx:40-45 | those entries count each character as often as it was mistyped |
| AdvancedAnalytics.ErrorsOf | src/components/AdvancedAnalytics.jsx:37-51 | a session's error list has at most ten entries (ErrorsOfCounts states their counts and order) |
| AdvancedAnalytics.ErrorsOfCounts | src/components/AdvancedAnalytics.jsx:37-51 | per-session errors: each entry's count is how often that character was mistyped; at most ten, most frequent first; a missing mistyped character counts no more than the tenth |
| AdvancedAnalytics.EntryForKey | src/components/AdvancedAnalytics.jsx:86-95 | a character with a positive count has an entry |
| AdvancedAnalytics.GenerateErrorsFromCharStats | src/components/AdvancedAnalytics.jsx:37-51 | the loop computes ErrorsOf |
| AdvancedAnalytics.FilterSessions | src/components/AdvancedAnalytics.jsx:54-73 | "all" keeps everything; otherwise exactly the sessions inside the window, no more than there were |
| AdvancedAnalytics.FilterSessionsSnoc | src/components/AdvancedAnalytics.jsx:57-72 | under a window, one more session at the end is kept at the end iff it lies in the window |
| AdvancedAnalytics.FilterWindowAppend | src/components/AdvancedAnalytics.jsx:57-72 | under a window, filtering a concatenation filters each part in order |
| AdvancedAnalytics.FilterSessionsAppend | src/components/AdvancedAnalytics.jsx:54-73 | for every timeframe the filter of a concatenation is the concatenation of the filtered parts, so the sessions keep their order |
| AdvancedAnalytics.FilterSessionsSingle | src/components/AdvancedAnalytics.jsx:54-73 | a single session is kept iff it lies in the window |
| AdvancedAnalytics.FilterSessionsCons | src/components/AdvancedAnalytics.jsx:54-73 | the first session comes first in the result iff it lies in the window, followed by the filtered rest |
| AdvancedAnalytics.WindowsNest | src/components/AdvancedAnalytics.jsx:57-67 | a day's sessions are in the week, a week's in the month, every session in "all" |
| AdvancedAnalytics.AllErrorsSum | src/components/AdvancedAnalytics.jsx:86-90 | the flattened error lists count each character as the sessions do together |
| AdvancedAnalytics.TopErrorsOf | src/components/AdvancedAnalytics.jsx:86-95 | the merged top errors have at most ten entries (TopErrorsCounts states their counts and order) |
| AdvancedAnalytics.TopErrorsCounts | src/components/AdvancedAnalytics.jsx:86-95 | merged top errors: each count is the character's total over the sessions; at most ten, most frequent first |
| AdvancedAnalytics.TopErrors | src/components/AdvancedAnalytics.jsx:86-95 | the merging loop computes TopErrorsOf |
| AdvancedAnalytics.AnalyticsOf | src/components/AdvancedAnalytics.jsx:76-97 | no analytics iff no sessions; otherwise the session count, the sum of the sessions' keystrokes and TopErrorsOf the sessions, so at most ten top errors |
| AdvancedAnalytics.AllTimeframeHasData | src/components/AdvancedAnalytics.jsx:54-77 | the "all" timeframe has analytics iff there is any session |
| AdvancedAnalytics.WindowHasData | src/components/AdvancedAnalytics.jsx:54-77 | a timeframe has analytics iff some session lies in its window |
| SkillAssessment.SkillLevelOf | src/components/SkillAssessment.jsx:84-87 | advanced iff WPM ≥ 40 and accuracy ≥ 90; intermediate iff not advanced and WPM ≥ 25, accuracy ≥ 80; beginner otherwise |
| SkillAssessment.SkillLevelMonotone | src/components/SkillAssessment.jsx:84-87 | faster and more accurate never gives a lower level |
| SkillAssessment.ActualMs | src/components/SkillAssessment.jsx:73-74 | elapsed time, capped at the 30 s test length (the full length if never started) |
| SkillAssessment.ResultOf | src/components/SkillAssessment.jsx:72-90 | correct = MatchCount against the test code, accuracy = Percent(correct, typed) and 0 for no input, rounded WPM, the level of those figures |
| SkillAssessment.CalculateResults | src/components/SkillAssessment.jsx:72-90 | the counting loop computes ResultOf |
| SkillAssessment.ExactRunIsAccurate | src/components/SkillAssessment.jsx:72-90 | typing the test code exactly is 100% accurate with every character correct |
| SkillAssessment.RemoveGoal | src/components/SkillAssessment.jsx:295 | `filter(g => g !== id)` removes exactly that goal |
| SkillAssessment.ToggleGoal | src/components/SkillAssessment.jsx:292-298 | a present goal is removed, an absent one appended |
| SkillAssessment.RemoveAbsentGoal | src/components/SkillAssessment.jsx:295 | removing an absent goal changes nothing |
| SkillAssessment.ToggleTwice | src/components/SkillAssessment.jsx:292-298 | toggling twice restores the goal set, and the list itself when the goal was absent |
| SkillAssessment.RemoveGoalAppended | src/components/SkillAssessment.jsx:292-298 | removing a just-appended goal gives back the old list |
| SkillAssessment.Assessment.HandleComplete | src/components/SkillAssessment.jsx:92-98 | reports ResultOf the current input and the current preferences |
| SkillAssessment.Assessment.constructor | src/components/SkillAssessment.jsx:5-14 | step 0, not started, empty input, 30 s, no start time, the default preferences |
| SkillAssessment.Assessment.HandleStartTest | src/components/SkillAssessment.jsx:47-52 | step 1, started now |
| SkillAssessment.Assessment.HandleTestComplete | src/components/SkillAssessment.jsx:66-70 | step 2, stopped, nothing else changed |
| SkillAssessment.Assessment.HandleInputChange | src/components/SkillAssessment.jsx:54-64 | input within the code length is stored; a longer one is ignored; the exact code completes the test |
| SkillAssessment.Assessment.Tick | src/components/SkillAssessment.jsx:29-45 | only while started with time left: at one second or less the test completes and shows 0, otherwise the clock goes down by one |
| SkillAssessment.Assessment.ToggleGoalPreference | src/components/SkillAssessment.jsx:291-298 | the goals become ToggleGoal of the old goals; nothing else changes |
| SkillAssessment.Assessment.SetLanguage | src/components/SkillAssessment.jsx:241 | sets only the preferred language |
| SkillAssessment.Assessment.SetExperience | src/components/SkillAssessment.jsx:265 | sets only the experience level |
| AuthContext.WithoutPassword | src/contexts/AuthContext.jsx:70 | the copy has no password and every other field unchanged |
| AuthContext.Find | src/contexts/AuthContext.jsx:38 | `users.find`: none iff no user matches; otherwise a matching index |
| AuthContext.FindFirst | src/contexts/AuthContext.jsx:86 | the found index is the first match |
| AuthContext.SignupKeepsEmailsUnique | src/contexts/AuthContext.jsx:38-64 | accepting a new email keeps the users' emails pairwise distinct |
| AuthContext.MergeStored | src/contexts/AuthContext.jsx:121-127 | the stored update keeps the stored password and takes other fields from the update, if present |
| AuthContext.SignupThenLogin | src/contexts/AuthContext.jsx:31-99 | after signing up with a fresh email, login with the same credentials finds the new user |
| AuthContext.AuthStore.constructor | src/contexts/AuthContext.jsx:8-10 | the stored users, nobody signed in |
| AuthContext.AuthStore.Signup | src/contexts/AuthContext.jsx:31-77 | a taken email fails with the duplicate message and changes nothing; otherwise the new user is appended and signed in without the password |
| AuthContext.AuthStore.Login | src/contexts/AuthContext.jsx:79-99 | no user with these credentials: the error message, nothing changes; otherwise the first match is signed in without the password |
| AuthContext.AuthStore.Logout | src/contexts/AuthContext.jsx:101-104 | nobody is signed in; the users are kept |
| AuthContext.AuthStore.UpdateUserStats | src/contexts/AuthContext.jsx:106-131 | nobody signed in: nothing; otherwise the current user takes the updates and the first stored user with the same id gets MergeStored |
| Signup.Validate | src/components/Signup.jsx:20-36 | the right error for a missing field, a password mismatch, or fewer than 6 characters; no error iff all checks pass |
| Signup.SignupForm.constructor | src/components/Signup.jsx:6-11 | empty fields, no error, not loading |
| Signup.SignupForm.HandleSubmit | src/components/Signup.jsx:14-47 | a validation error is shown, nothing is stored and nobody new is signed in; a taken email shows the duplicate message and leaves users and the signed-in user unchanged; otherwise the new user is appended and signed in without the password; loading ends false |

## Left out

- React scheduling: state setters apply at once and updates are not batched. Two stale
  closures are modelled: TypingContext's `calculateStats` reads the statistics captured when
  `stats.timeElapsed` last changed, and TypingScreen's `handleInputChange` completes with the
  previous input. The others are not, as listed below.
- MainTypingScreen.Screen.HandleInputChange: only returns whether the
  `setTimeout(handleComplete, 100)` completion would be scheduled. The callback runs
  `handleComplete` of the render in which it was scheduled, so the source reports the input
  before the final keystroke; the model's HandleComplete reads the current state.
- MainTypingScreen.Screen.Tick: the interval calls the `handleComplete` of the render in
  which `timeLeft` last changed, so keystrokes typed during the final second are missing
  from the source's result. The model completes with the current state.
- TypingScreen.Screen.Tick: the same interval closure as in MainTypingScreen; the model
  completes with the current input.
- Timers: each `setInterval` callback is one `Tick` call. The wall clock is a parameter.
- `localStorage` and JSON: reading, parsing (including its `try`/`catch` fallbacks) and
  writing are not modelled. The stored values are fields or parameters.
- Supabase sync (`syncToSupabase`, `supabaseHelpers.js`) is not part of this model. Neither
  are theming, language selection, settings, dashboards or the other view components.
- Floating point: every `Math.round`/`Math.floor` of a ratio is exact integer arithmetic.
  The model does not reproduce IEEE rounding error. WPM and accuracy averages, the
  consistency figure of AdvancedAnalytics, and the errors-per-minute figure of
  AnalysisScreen are left out. So are AdvancedAnalytics' `totalTime` (a rounded sum of
  fractional durations) and its `wpmTrend`/`accuracyTrend` series.
- JavaScript strings are sequences of UTF-16 code units. Here a string is a sequence of
  Unicode scalar values, so lengths differ for characters outside the basic plane.
- AdvancedAnalytics: session dates are parsed from ISO strings and compared in milliseconds.
  Here dates are already milliseconds.
- GameContext: the user record and the XP stored in it are given; nothing here awards XP.
  `getRecommendations` reads floating-point averages, modelled as reals.
- GameContext.GameProvider.AddAchievement: the duplicate check compares stored records'
  `id` fields with catalogue keys. These never coincide (DuplicateGuardNeverFires), so the
  same achievement can be stored twice (DoubleUnlockExample). The model keeps this
  behaviour as written.
- GameContext.GameProvider.UpdateStreak: the source's default argument `type = 'daily'` is
  not modelled; callers always pass the streak kind.
- PointsContext.RecordRace: the streak goes up by one after any day that is not today;
  the source never resets it after a gap (StreakNeverResets). Achievement points are not
  added to `totalPoints`. Both are kept as the source has them.
- Elapsed times in results are integer milliseconds (`timeElapsedMs`). The source reports
  fractional seconds; the ratios computed from them are the same.
- `startTime` is an `Option`. A JavaScript start time of `0` counts as absent in the
  source because it is falsy; the model treats every `Some` as present.
- SkillAssessment.ResultOf: requires the elapsed time to be positive when a start time
  exists. The source divides by zero there, and the resulting `Infinity`/`NaN` figures are
  not modelled.
- MainTypingScreen.CompletionResult: requires a positive duration. A zero duration makes the
  source's fallback elapsed time zero and its WPM `Infinity`.
- TypingScreen.CompletionResult: the source's results object has no `charStats`. The model
  reports an empty list, which is what AnalysisScreen reads in that case.
- MainTypingScreen.Screen.LoadNewSnippet: takes the bucket from the snippet library
  directly, as the source does. It does not go through SnippetService's history.
- AuthContext: user ids are compared structurally, as JSON values. Passwords are stored in
  plain text, as in the source. The `createdAt` ISO timestamp is a parameter.
- Signup: navigation after a successful sign-up is not modelled. The asynchronous `signup`
  call is a synchronous method call.
