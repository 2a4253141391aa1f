# Mock-interview engine, modelled in Dafny

The application is a mock-interview trainer. A candidate picks a job role and is
asked five questions from a fixed bank. They type or dictate each answer. After
each submit, a placeholder heuristic scores the answer by its length, and the
screen shows the feedback. Once the last question has been continued, a results
screen shows the following:

- the rounded mean score;
- the three strengths and the three improvement areas named most often, with
  ties kept in first-seen order;
- a narrative message chosen by score band;
- a per-question review with fallbacks for missing data.

The project models this engine as immutable datatypes and pure functions:

| file | module | what it holds |
|---|---|---|
| `optional.dfy` | `Optional` | `Option` and `Result` |
| `jstext.dfy` | `JsText` | The two JavaScript string primitives the engine relies on. `CodeUnits` is `String.prototype.length`, which counts UTF-16 code units, for well-formed Unicode text. `Trim` is `String.prototype.trim`, which strips the ECMAScript WhiteSpace and LineTerminator characters. |
| `questionbank.dfy` | `QuestionBank` | The role-to-questions map and its fallback. |
| `scoring.dfy` | `Scoring` | The three fixed assessments and `Assess`, which picks one of them by answer length. |
| `session.dfy` | `Session` | The session screen as a state machine. Each event is a function from a state to a `Result`; a refused event names its reason. |
| `session_runs.dfy` | `SessionRuns` | Properties of event sequences, including a whole run through the five questions. |
| `ranking.dfy` | `Ranking` | The occurrence tally (a left fold in first-seen order), the stable sort by decreasing count, and the top-3 list. |
| `results.dfy` | `Results` | The overall score, the narrative bands, the per-question fallbacks, and the whole results report. |
| `ranking_examples.dfy` | `RankingExamples` | A concrete ranking with a tie. |
| `scenarios.dfy` | `Scenarios` | A full interview from opening to the results screen. |

Modelling choices that follow the code:

- **Answer length.** It is the JavaScript length, so a character outside the
  Basic Multilingual Plane counts twice.
- **Submit.** It is two steps:
  - `Submit` captures the answer as it stands when the button is pressed, as the
    scheduled callback's closure does;
  - `CompleteSubmit` scores that captured text.

  Edits made while scoring is in flight therefore do not change the feedback.
- **`recording` and `listening`.** The state has two flags:
  - `recording` is what the screen shows;
  - `listening` is whether the recognizer actually runs.

  These are separate because the code can let them disagree (see Findings).
- **Overall score with no feedbacks.** The screen computes 0/0 and shows NaN.
  The model's overall score is then `None`. `BandOf(None)` is the lowest band,
  because both `>=` comparisons against NaN are false.
- **`Math.round(sum / n)`.** For `n > 0` this is `(2*sum + n) / (2*n)` with
  floor division. The contract of `OverallScore` states the rounding
  directly: it is the integer nearest the mean, with halves rounded up.

## Model

| member | source | states |
|---|---|---|
| JsText.CodeUnits | src/pages/InterviewSession.tsx:60-67 | The length the scorer compares is at least the number of characters and at most twice that; it is zero exactly for the empty answer. |
| JsText.CodeUnitsAppend | src/pages/InterviewSession.tsx:60-67 | The length of a concatenation is the sum of the lengths. |
| JsText.CodeUnitsOfBmpText | src/pages/InterviewSession.tsx:60-67 | Text made only of characters up to U+FFFF has a length equal to its number of characters. |
| JsText.CodeUnitsOfAstralText | src/pages/InterviewSession.tsx:60-67 | Text made only of characters above U+FFFF has a length of twice its number of characters. |
| JsText.LeadingSpace | src/pages/InterviewSession.tsx:283 | Gives the length of the longest all-white-space prefix: every character before it is white space, and the character at it is not. |
| JsText.TrailingSpace | src/pages/InterviewSession.tsx:283 | Gives the same for the longest all-white-space suffix. |
| JsText.Trim | src/pages/InterviewSession.tsx:283 | The trimmed answer is a contiguous slice of the answer, and everything cut off on either side is white space. The result is empty, or it starts and ends with a character that is not white space. |
| JsText.IsBlank | src/pages/InterviewSession.tsx:283 | The submit gate's test `!answer.trim()`: the answer trims to the empty string. Its meaning is stated by JsText.BlankIffAllWhitespace. |
| JsText.BlankIffAllWhitespace | src/pages/InterviewSession.tsx:283 | An answer trims to nothing exactly when every character in it is white space, the empty answer included. |
| QuestionBank.QuestionsFor | src/pages/InterviewSession.tsx:20-97 | The lookup never fails and always gives five questions. A role in the bank gets its own set, and any other role gets the default set. |
| QuestionBank.EverySetHasFiveQuestions | src/pages/InterviewSession.tsx:20-56 | Every set in the bank has exactly five questions, and none of them is empty. |
| QuestionBank.OfferedRolesResolve | src/pages/Interview.tsx:44-55 | Of the ten roles the setup form offers, exactly "Software Engineer", "Frontend Developer", "Backend Developer" and "Data Scientist" get their own set. "Full Stack Developer" and the other five get the default set. |
| Scoring.Assess | src/pages/InterviewSession.tsx:59-82 | Every answer, the empty one included, gets one of the three fixed assessments. The score is in 0..100, and the empty answer is brief. |
| Scoring.AssessBands | src/pages/InterviewSession.tsx:60-81 | Each score holds exactly on its length band: 60 for a length below 20, 75 for a length in 20..99, and 90 for a length of at least 100. Each band also fixes its strength and improvement lists (1+3, 2+2, 3+1). |
| Scoring.BoundaryAnswersTakeTheHigherBand | src/pages/InterviewSession.tsx:60-67 | A 20-unit answer scores 75, not 60. A 100-unit answer scores 90, not 75. |
| Scoring.AssessMonotone | src/pages/InterviewSession.tsx:59-82 | A longer answer never scores lower. |
| Scoring.AssessDependsOnlyOnLength | src/pages/InterviewSession.tsx:59-82 | Two answers of equal length get identical assessments. |
| Scoring.AstralCharactersCountTwice | src/pages/InterviewSession.tsx:60-67 | Ten emoji-range characters already measure 20 and score as an adequate answer. |
| Session.Start | src/pages/InterviewSession.tsx:88-97 | A session opens valid on question 0. Every answer is empty, nothing is recording, submitted or shown, and the questions are the set for the given role, or for "Software Engineer" when no role is given. |
| Session.Edit | src/pages/InterviewSession.tsx:159-163 | Typing is accepted exactly while no feedback is shown. It replaces the current answer and changes nothing else, and the state stays valid. |
| Session.Transcript | src/pages/InterviewSession.tsx:111-121 | A recognizer result is accepted exactly while the recognizer runs. The transcript replaces the current answer and changes nothing else. |
| Session.ToggleDictation | src/pages/InterviewSession.tsx:143-157 | The button works exactly when dictation is available and no feedback is shown, and it flips the recording flag. Stopping leaves everything else unchanged. Starting empties the current answer and changes nothing else. |
| Session.DictationError | src/pages/InterviewSession.tsx:124-133 | A recognizer error is accepted exactly while the recognizer runs. It turns dictation off and keeps the answers. |
| Session.Submit | src/pages/InterviewSession.tsx:165-179 | Submit is accepted exactly when no feedback is shown, nothing is in flight, and the answer does not trim to nothing. A refusal names which of these three failed. Acceptance stops dictation and captures the current answer for scoring, and changes nothing else. |
| Session.CompleteSubmit | src/pages/InterviewSession.tsx:174-178 | The end of scoring is accepted exactly when a submission is in flight. It shows the assessment of the captured text, ends the submission, and changes nothing else. |
| Session.Advance | src/pages/InterviewSession.tsx:182-196 | The step both continue functions share: the next question with the feedback cleared, or after the last question the handoff of questions, answers and fresh assessments. Its meaning is stated by the Session.Continue and Session.ContinueAsWritten contracts. |
| Session.Continue | src/pages/InterviewSession.tsx:181-197 | Continue is accepted exactly while feedback is shown, and clears that feedback. Before the last question, the index goes up by exactly one with dictation off and the answers kept. At the last question, the session completes and hands over the questions, the answers, and each answer freshly re-assessed. |
| Session.ContinueAsWritten | src/pages/InterviewSession.tsx:136-186 | Moving to the next question stops the recognizer but keeps the recording flag as it was. In every other respect the step equals Session.Continue, and the two are equal outright whenever the flag is off. |
| SessionRuns.Round | src/pages/InterviewSession.tsx:159-198 | One type, submit, score and continue round that opens a next question leaves a valid state. |
| SessionRuns.RoundContinuesAsWritten | src/pages/InterviewSession.tsx:159-198 | Submit has stopped dictation before an ordinary round reaches continue. So the screen's own continue takes the same step as the corrected one, and every run result holds for the code as written. |
| SessionRuns.EditLastWins | src/pages/InterviewSession.tsx:159-163 | Of two successive edits, only the second counts. |
| SessionRuns.TranscriptReplaces | src/pages/InterviewSession.tsx:117-121 | Of two successive transcripts, only the second counts: results replace the answer rather than append to it. |
| SessionRuns.DictationRestartClears | src/pages/InterviewSession.tsx:143-157 | Stopping keeps the answers. Restarting empties the current answer, and the first transcript after that is the whole answer. |
| SessionRuns.WhitespaceAnswerIsRejected | src/pages/InterviewSession.tsx:283 | An answer made only of white space, or of nothing, is refused as empty. |
| SessionRuns.NoSecondSubmitInFlight | src/pages/InterviewSession.tsx:283 | A second submit while the first is being scored is refused. |
| SessionRuns.ScoringUsesSubmittedText | src/pages/InterviewSession.tsx:174-176 | The feedback is the assessment of the answer as it was when submit was pressed, even if it is edited while scoring is in flight. |
| SessionRuns.RoundAnswersOneQuestion | src/pages/InterviewSession.tsx:159-198 | A round with a non-blank answer always succeeds. Before the last question, it writes the answer and moves to the next question, open for answering. At the last question, it completes with the answer written and every answer freshly assessed. |
| SessionRuns.NextRound | src/pages/InterviewSession.tsx:159-198 | Before the last question, a round with a non-blank answer opens the next question with that answer written, and the rest of a run continues from there. |
| SessionRuns.RunStaysOpen | src/pages/InterviewSession.tsx:181-185 | From any open question, fewer non-blank rounds than questions left leave the session open. The index has advanced by the number of rounds, and the answers are written in order. |
| SessionRuns.RunCompletes | src/pages/InterviewSession.tsx:181-196 | From any open question, exactly as many non-blank rounds as questions left complete the session. The handed-over answers have the rounds written in order, and all are freshly assessed. |
| SessionRuns.RunOverflows | src/pages/InterviewSession.tsx:181-197 | More non-blank rounds than questions left are refused, because the session is over. |
| SessionRuns.FreshRunCompletes | src/pages/InterviewSession.tsx:181-196 | A session on its first question, answered with one non-blank answer per question, completes. It hands over exactly those answers, each freshly assessed. |
| SessionRuns.FewerRoundsLeaveTheSessionOpen | src/pages/InterviewSession.tsx:184-185 | For every n below five, n rounds from the start leave the session on question n. |
| SessionRuns.FiveRoundsCompleteTheInterview | src/pages/InterviewSession.tsx:186-196 | Five rounds from the start complete the session, handing over exactly the five answers, each freshly assessed. |
| SessionRuns.NoRoundAfterCompletion | src/pages/InterviewSession.tsx:186-197 | A sixth round is refused, because the session has already completed. |
| SessionRuns.StaleRecordingFlagAfterContinue | src/pages/InterviewSession.tsx:136-186 | Dictation started while an answer is being scored is still flagged as recording on the next question, although the recognizer was stopped. |
| SessionRuns.ContinueStopsDictation | src/pages/InterviewSession.tsx:181-186 | With the corrected continue, the same events reach the next question with dictation off, and the invariant holds. |
| Ranking.Labels | src/pages/InterviewResults.tsx:49 | Keeps the label of each entry, in order. |
| Ranking.FirstIndex | src/pages/InterviewResults.tsx:36-39 | Gives the first position of a label: no earlier position holds it, and it is past the end exactly for an absent label. |
| Ranking.FirstIndexOfExtension | src/pages/InterviewResults.tsx:36-39 | Appending a label does not move the first position of any label seen earlier. |
| Ranking.Bump | src/pages/InterviewResults.tsx:37 | Counting one more occurrence has two cases. A label already tallied has its count raised by one, in place. A new label is appended with count 1. Labels stay distinct, and the total grows by one. |
| Ranking.Tally | src/pages/InterviewResults.tsx:36-44 | The tally has distinct labels, and the counts sum to the number of labels given. |
| Ranking.TallyLabels | src/pages/InterviewResults.tsx:36-44 | The tally lists exactly the labels that occur. |
| Ranking.TallyCounts | src/pages/InterviewResults.tsx:36-44 | Each count is the number of occurrences of its label. |
| Ranking.TallyFirstSeenOrder | src/pages/InterviewResults.tsx:36-46 | Tally entries are in the order their labels were first seen. |
| Ranking.Insert | src/pages/InterviewResults.tsx:47 | Inserting adds exactly the one entry. |
| Ranking.SortByCount | src/pages/InterviewResults.tsx:47 | Sorting is a permutation. |
| Ranking.InsertKeepsOrder | src/pages/InterviewResults.tsx:47 | Inserting an entry that ranks before all others into a list ordered by count, then rank, keeps that order. |
| Ranking.SortByCountIsStable | src/pages/InterviewResults.tsx:47 | On entries listed in increasing rank, the sort orders by decreasing count, and equal counts keep their input order. |
| Ranking.DistinctCardinality | src/pages/InterviewResults.tsx:46 | A list without repetitions has as many distinct labels as entries. |
| Ranking.RankedCounts | src/pages/InterviewResults.tsx:46-47 | After sorting, each entry still carries the occurrence count of a label that occurs. |
| Ranking.RankedCovers | src/pages/InterviewResults.tsx:46-47 | After sorting, every label that occurs is still listed. |
| Ranking.RankedSize | src/pages/InterviewResults.tsx:46-47 | The sorted tally has one entry per distinct label. |
| Ranking.RankedOrder | src/pages/InterviewResults.tsx:46-47 | The sorted tally is in decreasing count order, with ties in first-seen order. |
| Ranking.Top | src/pages/InterviewResults.tsx:46-54 | The top list never holds more than three labels. What it holds and in which order is stated by the Ranking.Top* lemmas below. |
| Ranking.RankedPairOutRanks | src/pages/InterviewResults.tsx:46-47 | Of two entries of the sorted tally, the earlier label outranks the later: it occurs more often, or as often and is seen first. |
| Ranking.TopIsPrefix | src/pages/InterviewResults.tsx:46-49 | The top list is the labels of the first three sorted entries. |
| Ranking.TopLength | src/pages/InterviewResults.tsx:48 | The top list has min(3, number of distinct labels) entries. |
| Ranking.TopOrdered | src/pages/InterviewResults.tsx:46-54 | The top list's labels are distinct and each occurs in the input. They are in decreasing occurrence order, with ties in first-seen order. |
| Ranking.TopOmitsNothingMoreFrequent | src/pages/InterviewResults.tsx:46-54 | Every label left out of the top list is outranked by each label in it. It occurs less often, or as often but is first seen later. |
| Results.SumScores | src/pages/InterviewResults.tsx:29 | The `reduce` sum of the scores. Its meaning is stated by Results.OverallScore and Results.SumWithin. |
| Results.OverallScore | src/pages/InterviewResults.tsx:28-30 | The score is missing (NaN) exactly when there are no feedbacks. Otherwise it is the integer nearest the mean score, with halves rounded up. |
| Results.SumWithin | src/pages/InterviewResults.tsx:29 | The sum of n scores in lo..hi is between n·lo and n·hi. |
| Results.OverallWithin | src/pages/InterviewResults.tsx:28-30 | For at least one feedback, the overall score lies within any range that contains every score, so it lies between the lowest and the highest score. |
| Results.OverallOfAssessedAnswers | src/pages/InterviewResults.tsx:28-30 | The overall score of heuristic assessments lies in 0..100. |
| Results.UniformScoresGiveThatScore | src/pages/InterviewResults.tsx:28-30 | When all scores are equal, the overall score is that score. |
| Results.Narrative | src/pages/InterviewResults.tsx:57-65 | The three messages, one per band. Results.BandOf states which band a score falls in, and Results.Aggregate pairs each report with the message of its band. |
| Results.BandOf | src/pages/InterviewResults.tsx:57-65 | The bands hold exactly as follows: excellent for 85 and up; good for 70..84; needs preparation below 70 or when the score is missing. |
| Results.BandMonotone | src/pages/InterviewResults.tsx:57-65 | A higher score never lands in a lower band. |
| Results.AllStrengths | src/pages/InterviewResults.tsx:33 | A label is in the flattened strengths exactly when some feedback names it. |
| Results.AllImprovements | src/pages/InterviewResults.tsx:34 | A label is in the flattened improvements exactly when some feedback names it. |
| Results.AllStrengthsSnoc | src/pages/InterviewResults.tsx:33 | One more feedback appends exactly its strengths, so flattening keeps every strength, with its repeats, in answer order. |
| Results.AllImprovementsSnoc | src/pages/InterviewResults.tsx:34 | One more feedback appends exactly its improvements, keeping order and repeats. |
| Results.TopStrengthsComeFromFeedback | src/pages/InterviewResults.tsx:33-49 | Every top strength was named by some feedback. No strength left out outranks one in the list: each occurs less often, or as often but is first seen later. |
| Results.TopImprovementsComeFromFeedback | src/pages/InterviewResults.tsx:34-54 | Every top improvement was named by some feedback. No improvement left out outranks one in the list. |
| Results.ShownAnswer | src/pages/InterviewResults.tsx:165 | The review shows the answer when it is present and non-empty, and "No answer provided" otherwise, so it never shows an empty text. |
| Results.ShownScore | src/pages/InterviewResults.tsx:153 | The review shows the feedback's score, or 0 when that feedback is missing. |
| Results.Details | src/pages/InterviewResults.tsx:143-180 | There is one review item per question, in order. Each item has that question and the fallbacks above, whatever the lengths of the answers and feedbacks. |
| Results.Aggregate | src/pages/InterviewResults.tsx:27-65 | The report's score is missing exactly for no feedbacks. The message is that of the score's band. Each top list has min(3, number of distinct labels) entries, and there is one review item per question. |
| Results.AggregateScore | src/pages/InterviewResults.tsx:28-30 | The report's score is the rounded mean of the feedback scores, so every bound proved of Results.OverallScore holds of it. |
| Results.AggregateTops | src/pages/InterviewResults.tsx:33-54 | The report's top lists are the top three of all strengths and of all improvements, flattened in answer order. |
| Results.AggregateDetails | src/pages/InterviewResults.tsx:143-180 | The report's review items are the details of the session's questions, answers and feedbacks. |
| RankingExamples.TallySnoc | src/pages/InterviewResults.tsx:36-39 | Tallying one more label bumps the earlier tally. |
| RankingExamples.BumpAt | src/pages/InterviewResults.tsx:37 | Counting an already tallied label raises its entry by one and leaves every other entry as it was. |
| RankingExamples.TallyOne | src/pages/InterviewResults.tsx:36-39 | A single label tallies to that label with count 1. |
| RankingExamples.TallyTwo | src/pages/InterviewResults.tsx:36-39 | The labels a, b tally to a:1, b:1. |
| RankingExamples.TallyThree | src/pages/InterviewResults.tsx:36-39 | The labels a, b, a tally to a:2, b:1, with a keeping its first-seen place. |
| RankingExamples.TallyFour | src/pages/InterviewResults.tsx:36-39 | The labels a, b, a, b tally to a:2, b:2. |
| RankingExamples.TallyFive | src/pages/InterviewResults.tsx:36-39 | The labels a, b, a, b, c tally to a:2, b:2, c:1. |
| RankingExamples.SortKeepsTiedOrder | src/pages/InterviewResults.tsx:47 | Sorting a:2, b:2, c:1 leaves it as it is. |
| RankingExamples.RankedTie | src/pages/InterviewResults.tsx:46-47 | The labels a, b, a, b, c tally and sort to a:2, b:2, c:1. |
| RankingExamples.TopOfRanked | src/pages/InterviewResults.tsx:46-49 | When the sorted tally has exactly three entries, the top list is their labels. |
| RankingExamples.TopOfTie | src/pages/InterviewResults.tsx:46-49 | The labels a, b, a, b, c give the top list a, b, c. |
| RankingExamples.TopBreaksTiesByFirstSeen | src/pages/InterviewResults.tsx:46-49 | With a and b tied at two and c at one, the top list is a, b, c when a is seen first, and b, a, c when b is. |
| Scenarios.SampleAnswersScore | src/pages/InterviewSession.tsx:59-82 | Answers of lengths 10, 50, 150, 10 and 150 score 60, 75, 90, 60 and 90. |
| Scenarios.SampleOverall | src/pages/InterviewResults.tsx:28-30 | Scores 60, 75, 90, 60 and 90 give an overall score of 75. |
| Scenarios.SampleInterview | src/pages/InterviewResults.tsx:28-65 | A whole session answered with non-blank answers of those lengths reaches the results with those scores, an overall score of 75, and the "good" band. |

## Left out

- Rendering is left out because it is presentation only: the JSX layout, the
  progress bar and its percentage (floating-point display arithmetic), the
  60-character question previews, and toasts.
- The browser's speech recognition API is a foreign API, so it is reduced to
  the events it delivers: `Transcript` for a result and `DictationError` for an
  error. Its setup and the effect that re-creates the recognizer are
  represented only by their effect on `listening`.
- Some recognizer behaviour is not modelled:
  - the recognizer ending on its own (for example, after silence) is left out;
  - results that arrive after `stop()` are not modelled: once stopped, the
    model accepts no transcript.
- The 1.5-second scoring delay and the delay on the setup form are left out,
  because real time is not modelled. Scoring is the separate `CompleteSubmit`
  event, which may come after any number of other events.
- Routing and the navigation state are reduced to the `Handoff` value that
  `Continue` returns. The results screen's defaults for a missing state (empty
  lists) are covered because every results function accepts any lengths.
- The landing page, the setup form and the `experience` value are left out.
  The setup form only chooses a role, and `experience` is shown but never used
  in scoring.
- Strings with unpaired surrogates are not modelled. A Dafny `char` is a
  Unicode scalar value, so the model's text is always well-formed Unicode. A
  JavaScript string, and so a textarea value, may hold a lone surrogate, which
  `length` counts as one unit. No behaviour of the engine depends on such
  text.
- Floating point is left out because the scores are integers. `Math.round` of
  the mean is exact integer arithmetic here.
- Object key behaviour is not modelled:
  - `Object.entries` lists integer-like keys before the others, and no
    assessment label is integer-like;
  - a role named after an `Object.prototype` member (such as "toString") would
    find that member instead of a question set, and the setup form offers no
    such role.
- The feedback sentences are kept as exact constants but carry no meaning of
  their own.
- SessionRuns.Round: its own contract states only that an opened next
  question is valid. SessionRuns.RoundAnswersOneQuestion states what a round
  does.

## Findings

| source | as written | input that shows it | evidently intended | confidence | as-written member | corrected member |
|---|---|---|---|---|---|---|
| src/pages/InterviewSession.tsx:136-186 | Moving to the next question runs the effect cleanup. The cleanup stops the recognizer, but `isRecording` keeps its value. | Submit an answer, start dictation while it is being scored, wait for the feedback, then continue. The next question shows "Listening..." and "Stop Recording" although no recognizer is running, and nothing spoken reaches the answer. | Continuing to the next question also turns the recording flag off, so the flag matches the recognizer. | medium, not executed | SessionRuns.StaleRecordingFlagAfterContinue (on Session.ContinueAsWritten) | Session.Continue, with SessionRuns.ContinueStopsDictation |
