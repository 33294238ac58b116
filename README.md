# Quest learning: assessment session, progress ledger and quest map

This project models the assessment engine of a classroom learning app.
Students take timed, three-level "quests" for each chapter of uploaded material.
A failed quest locks its level for ten minutes and shows a remedial report.
Teachers can browse every generated quest.

The modules follow the program's components:

- `AssessmentService` (`assessment_service.dfy`) is the backend bookkeeping over the map from session id to progress record. It covers:
  - the guarded XP deduction;
  - grading with pass thresholds and XP award ranges;
  - level unlocking and chapter advance;
  - the retry cooldown;
  - the append-only history;
  - de-duplicated mistake storage;
  - mistake listing and comment update;
  - the progress view with its lagging and cooldown logic;
  - chapter selection and the markdown fence stripping of generated quizzes.
- `AssessmentModal` (`assessment_modal.dfy`) is the timed quiz attempt.
  - Each event of the component is a pure step function on a `ModalState` snapshot:
    - opening and closing;
    - the questions and XP replies;
    - a hint unlock;
    - an answer;
    - the two-second feedback timeout;
    - a countdown tick;
    - Previous, Next and Complete;
    - the submit reply;
    - review mode.
  - The `Session` class holds the component's state fields. Each of its methods is proved to leave exactly the state its step function describes.
  - React effects are written out by `Effects`:
    - the hint counter resets when the question index changes;
    - the countdown interval restarts when `isOpen`, `result` or `loading` changes.
  - The closures those effects and timeouts capture are part of the state (`countdownView`, `pendingAdvance`), together with the `level` and `sessionId` props of the render that created them, so stale reads behave as in the program.
- `AssessmentPathView` (`assessment_path_view.dfy`) is the quest map. It covers node unlocking, the remedial badge, the completed and active flags, the status label, and the click handler that opens the quiz or the remedial report.
- `RemedialModal` (`remedial_modal.dfy`) covers the practice question of the remedial report (option picking, checking, the selection lock) and its lock-time clock.
- `TeacherAssessmentPreview` (`teacher_assessment_preview.dfy`) covers the expand and collapse sets of the teacher's quest browser and its quest keys.
- `Text` and `Wrappers` are helpers:
  - decimal rendering and parsing of naturals with their round trip;
  - `padStart(2, '0')`;
  - `indexOf`;
  - `Option`.

Modelling choices:

- HTTP replies are parameters of the methods. A failed request is `None`.
- Timers are explicit `FeedbackTimeout` and `Tick` events.
- `random.randint(lo, lo + 50)` is `lo + roll` with `0 <= roll <= 50`.
- Wall-clock time is a `real` parameter. The service stores `time.time()`, a float, and `int(remaining)` is `Floor` on the positive remainders where it is used.
- The JSON file is the in-memory `records` map. The map's key order is kept in `order`, because listing all mistakes walks the keys in insertion order.
- JavaScript truthiness is written out where the program relies on it:
  - `xp || 0`;
  - `unlocked_level || 1`;
  - `cooldown_remaining || 0`;
  - an empty `questions` array counts as present;
  - an empty selected option counts as no selection.

## Model

| member | source | states |
|---|---|---|
| AssessmentService.GradeAttempt | assessment_service.py:312-339 | a pass happens iff level 1 scores at least 8, level 2 at least 7, or level 3 more than 0; a pass awards XP within 50 of the level's floor (50, 100, 650); a failure awards 0 |
| AssessmentService.GradeMonotone | assessment_service.py:312-339 | a higher score on the same level never turns a pass into a failure or changes the award |
| AssessmentService.PassNeedsKnownLevel | assessment_service.py:312-339 | only levels 1, 2 and 3 can be passed, and a pass awards at least 50 XP |
| AssessmentService.MergeMistakes | assessment_service.py:365-377 | the loop over incoming mistakes builds exactly the merged list `Merged` |
| AssessmentService.MergedExtends | assessment_service.py:365-377 | merging only appends: the stored mistakes are a prefix of the result |
| AssessmentService.MergedDistinct | assessment_service.py:365-377 | when stored question texts are pairwise distinct they stay so after merging |
| AssessmentService.MergedQuestions | assessment_service.py:365-377 | a question text is in the merged list iff it was stored before or came in |
| AssessmentService.MergedNewEntries | assessment_service.py:365-377 | every appended entry is an incoming mistake with the attempt's level, the `savedAt` stamp and an empty comment, whose question was not stored before |
| AssessmentService.FindQuestion | assessment_service.py:406-414 | the search returns the first stored mistake with the question text, or none iff no mistake has it |
| AssessmentService.FirstMatchIsOnly | assessment_service.py:406-414 | with distinct question texts the first match is the only match |
| AssessmentService.Tagged | assessment_service.py:396-399 | the listing has one entry per stored mistake, in order: entry k is the k-th mistake tagged with its session id |
| AssessmentService.Untagged | assessment_service.py:404 | a single session's listing has one entry per stored mistake, in order: entry k is the k-th mistake with no session tag |
| AssessmentService.AllMistakesSound | assessment_service.py:389-400 | every entry of the "all" listing is a stored mistake of the session it is tagged with |
| AssessmentService.AllMistakesComplete | assessment_service.py:389-400 | every stored mistake of every session appears in the "all" listing tagged with its session |
| AssessmentService.AfterAttempt | assessment_service.py:289-387 | record invariants are kept (xp non-negative, level 1..3, distinct mistakes); xp rises by the award; a pass clears plan and cooldown; a failure keeps level and chapter, sets the retry time to now+600 and stores the plan when mistakes were reported; a level-3 pass advances the chapter and resets the level to 1; a level-1 pass sets the level to max(old, 2) and a level-2 pass to max(old, 3), keeping the chapter; exactly one history entry is appended; mistakes are merged |
| AssessmentService.ApplyAttempt | assessment_service.py:289-387 | the in-place update of the record yields exactly `AfterAttempt` |
| AssessmentService.StripFences | assessment_service.py:192-195 | stripping never lengthens the reply, and a reply without a leading fence is unchanged |
| AssessmentService.StripJsonFence | assessment_service.py:192-193 | a json-fenced body is recovered exactly |
| AssessmentService.StripPlainFence | assessment_service.py:194-195 | a plain-fenced body not starting with "json" is recovered exactly |
| AssessmentService.GenerationPlan | assessment_service.py:158-181 | a cached level is served from the cache; generation happens iff the chapter index is within the files and the chapter text is non-empty, and uses the file at that index; "all chapters completed" iff files exist and the index is past them |
| AssessmentService.CooldownOf | assessment_service.py:454-462 | with a future retry time the remaining seconds are its floor, between 0 and the remainder; an expired retry time removes the cooldown and the remedial plan; without one nothing changes |
| AssessmentService.CooldownAfterFailure | assessment_service.py:350 | after a failure the reported cooldown never exceeds 600 seconds; it is at least 1 during the next 599 seconds; from 600 seconds on the cooldown and the remedial plan are gone |
| AssessmentService.ChapterProgressOf | assessment_service.py:432-447 | the status is lagging iff the current chapter exists and now is past its upload time plus five days; the days late are the floor of the overdue days; the title is the current chapter's file name; the next chapter's file name is given iff one follows; past the last chapter the title is "All Chapters Mastered!" |
| AssessmentService.LaggingPersists | assessment_service.py:436-442 | once lagging, a chapter stays lagging at every later time |
| AssessmentService.ProgressStore.constructor | assessment_service.py:279-283 | a new store is valid and holds no records and no session keys, as a missing progress file reads as an empty map |
| AssessmentService.ProgressStore.SpendXp | assessment_service.py:267-277 | succeeds iff the session exists and has at least `amount` XP; on success only that session's xp drops by `amount`; otherwise nothing changes |
| AssessmentService.ProgressStore.SpendXpChecked | assessment_service.py:267-277 | as `SpendXp`, and also refuses a negative amount, so no spend ever raises a balance |
| AssessmentService.NegativeSpendScenario | assessment_service.py:267-277 | after a failed level-1 attempt (0 XP), spending -100 succeeds and leaves 100 XP, while the checked version refuses it |
| AssessmentService.ProgressStore.SubmitResult | assessment_service.py:289-387 | an unknown session gets a fresh record appended to the key order; the session's record becomes `AfterAttempt` of its old record and no other record changes; the reply carries the grade, the new total, the unlocked level and the score |
| AssessmentService.ProgressStore.GetMistakes | assessment_service.py:389-404 | "all" lists every session's mistakes tagged with its id, in key order; an unknown session lists nothing; a known one lists its mistakes untagged |
| AssessmentService.ProgressStore.UpdateMistakeComment | assessment_service.py:406-414 | returns true iff the session has a mistake with that question text; then only the first such mistake gets the comment; otherwise nothing changes |
| AssessmentService.ProgressStore.GetProgress | assessment_service.py:416-464 | an unknown session reads as the default record; total chapters, xp, level, lagging status and cooldown presence are those of the stored record at `now` |
| AssessmentService.ProgressStore.GenerationStepFor | assessment_service.py:158-181 | generation for a session uses the chapter file at its current chapter index |
| AssessmentModal.ProvisionalScore | frontend/src/app/components/AssessmentModal.tsx:196-204 | the provisional score never exceeds the number of questions |
| AssessmentModal.ComputeScore | frontend/src/app/components/AssessmentModal.tsx:196-204 | the counting loop computes exactly `ProvisionalScore` |
| AssessmentModal.FullScoreIff | frontend/src/app/components/AssessmentModal.tsx:196-204 | the score equals the question count iff every question scores its point |
| AssessmentModal.NoAnswersScoreZero | frontend/src/app/components/AssessmentModal.tsx:196-204 | with no answers the score is 0 |
| AssessmentModal.ReviewAgreesWithScore | frontend/src/app/components/AssessmentModal.tsx:319-320 | the review's green mark agrees with the score for keyed multiple-choice questions; an unanswered unkeyed question shows green but scores nothing; a long short answer scores but shows red |
| AssessmentModal.HintCost | frontend/src/app/components/AssessmentModal.tsx:105-108 | a hint costs at most 10 XP and is free iff it is neither the second nor the third |
| AssessmentModal.ReadPriceTags | frontend/src/app/components/AssessmentModal.tsx:447 | the button's price tags read 0, 5 and 10 XP |
| AssessmentModal.ListedHintCost | frontend/src/app/components/AssessmentModal.tsx:447 | the corrected cost is the price the button shows |
| AssessmentModal.HintCostMatchesLabel | frontend/src/app/components/AssessmentModal.tsx:105-108 | the charged cost agrees with the shown price iff fewer than three hints were unlocked |
| AssessmentModal.ReadFormatClock | frontend/src/app/components/AssessmentModal.tsx:227-231 | the clock face reads back as whole minutes and remaining seconds, the seconds always in two digits |
| AssessmentModal.FormatClockInjective | frontend/src/app/components/AssessmentModal.tsx:227-231 | different timer values never show the same clock face |
| AssessmentModal.Effects | frontend/src/app/components/AssessmentModal.tsx:68-89 | after the effects the hint counter is 0 whenever the question index changed and kept otherwise; a countdown closure exists iff the countdown runs; it is a fresh closure over the new view when open, result or loading changed or none was held, and the held closure otherwise; nothing else changes |
| AssessmentModal.PayloadFor | frontend/src/app/components/AssessmentModal.tsx:210-216 | the submitted score is at most the max score, which is the question count, the mistakes are the captured wrong answers, and the session and level are those the closure captured |
| AssessmentModal.ApplyConsistent | frontend/src/app/components/AssessmentModal.tsx:38-89 | every event keeps the timer within 600, feedback present iff a timeout is pending, a countdown closure iff the countdown runs, and the pending index within its count |
| AssessmentModal.RunConsistent | frontend/src/app/components/AssessmentModal.tsx:38-89 | every event sequence from a fresh component keeps those invariants |
| AssessmentModal.SentScoreBounded | frontend/src/app/components/AssessmentModal.tsx:196-216 | every submission any event sends has a score no larger than its max score |
| AssessmentModal.UnlockHintBounded | frontend/src/app/components/AssessmentModal.tsx:102-103 | unlocking a hint keeps the hint counter within the current question's hint count, grows it by at most one, and changes nothing when all hints are out |
| AssessmentModal.HintsKeptByEvents | frontend/src/app/components/AssessmentModal.tsx:68-70 | every event other than a questions reply keeps the hint counter within the current question's hint count |
| AssessmentModal.PaidHintOutcomes | frontend/src/app/components/AssessmentModal.tsx:110-136 | a paid hint with too little XP, or with a declined or failed spend, changes nothing; only a confirmed spend deducts the cost and unlocks one hint |
| AssessmentModal.LateHintsFree | frontend/src/app/components/AssessmentModal.tsx:105-108 | a fourth or later hint unlocks without any charge although its button shows "10 XP" |
| AssessmentModal.AnswerIgnoredWhileLocked | frontend/src/app/components/AssessmentModal.tsx:160 | an answer while feedback or a result is shown changes nothing |
| AssessmentModal.AnswerRecorded | frontend/src/app/components/AssessmentModal.tsx:159-190 | otherwise the answer is stored under the question's id, feedback is success iff it equals the key, exactly one mistake (question, key, explanation, answer) is appended iff it does not; the index, questions and timer stay; the scheduled timeout captures the index, the question count and the view (level, session, answers, mistakes) from before the answer |
| AssessmentModal.UnkeyedAnswerIsMistake | frontend/src/app/components/AssessmentModal.tsx:163-180 | any answer to a question without a key is logged as a mistake |
| AssessmentModal.FeedbackLock | frontend/src/app/components/AssessmentModal.tsx:159-160 | a second answer before the feedback clears changes nothing |
| AssessmentModal.NavigationInRange | frontend/src/app/components/AssessmentModal.tsx:463-480 | Previous and Next keep the index in range, move by one, and Next moves only when the current question has a non-empty answer |
| AssessmentModal.FeedbackAdvance | frontend/src/app/components/AssessmentModal.tsx:183-190 | the timeout clears feedback, then either adds one to the live index or submits the captured view, as decided by the captured index and count; the submitted level, session, answers and mistakes are those of the render where the answer was given |
| AssessmentModal.FixedAdvanceInRange | frontend/src/app/components/AssessmentModal.tsx:183-190 | the corrected timeout keeps the index in range and submits the live answers and mistakes |
| AssessmentModal.TickCountsDown | frontend/src/app/components/AssessmentModal.tsx:74-89 | a tick without a running countdown changes nothing; above 1 it decrements the timer; at 1 or less it sets 0, stops the countdown and submits the view captured when the countdown started |
| AssessmentModal.TickLiveSubmitsLive | frontend/src/app/components/AssessmentModal.tsx:74-89 | the corrected countdown moves the state exactly as the original, and at its last second submits the live answers and mistakes; otherwise it sends nothing |
| AssessmentModal.TicksCountDown | frontend/src/app/components/AssessmentModal.tsx:78-85 | k ticks below the timer value lower it by exactly k and change nothing else |
| AssessmentModal.CloseResets | frontend/src/app/components/AssessmentModal.tsx:52-66 | closing resets questions, index, answers, result, review mode, timer and hints, and keeps feedback, the pending timeout and the mistakes |
| AssessmentModal.ReopenStartsClean | frontend/src/app/components/AssessmentModal.tsx:52-66 | with the corrected close, a reopened quiz has no mistakes, feedback or pending timeout |
| AssessmentModal.SubmitReplyOutcomes | frontend/src/app/components/AssessmentModal.tsx:218-224 | a failed submit leaves the result as it was and ends loading; a reply becomes the result and stops the countdown |
| AssessmentModal.LastAnswerDropped | frontend/src/app/components/AssessmentModal.tsx:183-204 | answering the only question correctly submits score 0 as written and 1 when corrected |
| AssessmentModal.TimeoutUsesStartView | frontend/src/app/components/AssessmentModal.tsx:74-89 | a timeout after one correct answer submits score 0 although the live answers score 1 |
| AssessmentModal.DoubleSubmission | frontend/src/app/components/AssessmentModal.tsx:183-190 | Complete Quest and the pending feedback timeout each submit, the second with the stale view |
| AssessmentModal.TimeoutKeepsCapturedLevel | frontend/src/app/components/AssessmentModal.tsx:183-190 | an answer at level 1, then close and reopen at level 2 before the timeout: the timeout submits the level-1 attempt as level 1, with the view from before the answer |
| AssessmentModal.AdvanceOverrunsAfterNext | frontend/src/app/components/AssessmentModal.tsx:183-190 | Next during the feedback window, then the timeout, moves the index to 2 of 2 questions; the corrected timeout stays at 1 |
| AssessmentModal.StaleMistakesCarried | frontend/src/app/components/AssessmentModal.tsx:57-64 | a mistake from an abandoned attempt is submitted with the next attempt as written, and not with the corrected close |
| AssessmentModal.Session.constructor | frontend/src/app/components/AssessmentModal.tsx:38-50 | a fresh component is closed, with an empty quiz, a 600-second timer and no hints |
| AssessmentModal.Session.RunEffects | frontend/src/app/components/AssessmentModal.tsx:68-89 | the component state becomes `Effects` of the old state |
| AssessmentModal.Session.ResetAttempt | frontend/src/app/components/AssessmentModal.tsx:57-64 | the state becomes the close-reset of the old state |
| AssessmentModal.Session.BeginSubmit | frontend/src/app/components/AssessmentModal.tsx:193-216 | submission sets loading and sends the payload `Submit` describes, scored by `ComputeScore` |
| AssessmentModal.Session.Open | frontend/src/app/components/AssessmentModal.tsx:52-56 | the state becomes `OpenStep` of the old state |
| AssessmentModal.Session.Close | frontend/src/app/components/AssessmentModal.tsx:56-65 | the state becomes `CloseStep` of the old state |
| AssessmentModal.Session.CloseFully | frontend/src/app/components/AssessmentModal.tsx:57-64 | the state becomes `CloseFullyStep` of the old state |
| AssessmentModal.Session.AssessmentLoaded | frontend/src/app/components/AssessmentModal.tsx:139-157 | the state becomes `LoadedStep` of the old state and reply |
| AssessmentModal.Session.XpLoaded | frontend/src/app/components/AssessmentModal.tsx:91-99 | the state becomes `XpLoadedStep` of the old state and reply |
| AssessmentModal.Session.UnlockHint | frontend/src/app/components/AssessmentModal.tsx:101-137 | the state becomes `UnlockHintStep` of the old state and spend reply |
| AssessmentModal.Session.Answer | frontend/src/app/components/AssessmentModal.tsx:159-191 | the state becomes `AnswerStep` of the old state and answer |
| AssessmentModal.Session.FeedbackTimeout | frontend/src/app/components/AssessmentModal.tsx:183-190 | state and sent payload are those of `FeedbackStep`, whose payload carries the level, session, answers and mistakes captured with the answer |
| AssessmentModal.Session.Tick | frontend/src/app/components/AssessmentModal.tsx:77-86 | state and sent payload are those of `TickStep` |
| AssessmentModal.Session.Previous | frontend/src/app/components/AssessmentModal.tsx:463-464 | the state becomes `PreviousStep` of the old state |
| AssessmentModal.Session.Next | frontend/src/app/components/AssessmentModal.tsx:479-480 | the state becomes `NextStep` of the old state |
| AssessmentModal.Session.CompleteQuest | frontend/src/app/components/AssessmentModal.tsx:470-472 | state and sent payload are those of `CompleteStep` |
| AssessmentModal.Session.SubmitCompleted | frontend/src/app/components/AssessmentModal.tsx:218-224 | the state becomes `SubmittedStep` of the old state and reply |
| AssessmentModal.Session.EnterReview | frontend/src/app/components/AssessmentModal.tsx:303 | the state becomes `ReviewStep` of the old state |
| AssessmentModal.Session.TickLive | frontend/src/app/components/AssessmentModal.tsx:77-86 | state and sent payload are those of the corrected `TickLiveStep` |
| AssessmentModal.Session.FeedbackTimeoutFixed | frontend/src/app/components/AssessmentModal.tsx:183-190 | state and sent payload are those of the corrected `FeedbackFixedStep` |
| AssessmentPathView.EffectiveLevel | frontend/src/app/components/AssessmentPathView.tsx:213 | the nodes use the reply's unlocked level when present and non-zero, and 1 when the reply or its level is missing or the level is zero |
| AssessmentPathView.LevelClickCases | frontend/src/app/components/AssessmentPathView.tsx:62-72 | a click opens the remedial report iff a cooldown runs on the clicked level; otherwise it opens the quiz for that level iff progress is known and its unlocked level reaches it; otherwise nothing |
| AssessmentPathView.UnlockedNodes | frontend/src/app/components/AssessmentPathView.tsx:212-234 | level 1 is always unlocked; levels 2 and 3 iff the effective level reaches them |
| AssessmentPathView.AtMostOneRemedial | frontend/src/app/components/AssessmentPathView.tsx:215-238 | no two nodes are remedial at once |
| AssessmentPathView.CompletedActiveExclusive | frontend/src/app/components/AssessmentPathView.tsx:270-271 | completed and active exclude each other, and one of them holds iff the level is at most the current one |
| AssessmentPathView.StatusLabelCases | frontend/src/app/components/AssessmentPathView.tsx:304-308 | "Completed" shows iff unlocked, not remedial and completed; "Available" iff unlocked, not remedial and not completed; a remedial node shows no label |
| AssessmentPathView.ClickMatchesNodes | frontend/src/app/components/AssessmentPathView.tsx:208-239 | for a service reply, clicking a node opens the remedial report exactly on the remedial node and the quiz exactly on the other unlocked nodes up to the unlocked level |
| AssessmentPathView.FailedAttemptShowsRemedial | frontend/src/app/components/AssessmentPathView.tsx:215-238 | within 600 seconds of a failed attempt, the refreshed map marks the reached level remedial and clicking it opens the remedial report, not the quiz; the report has the new plan when the attempt reported mistakes, and otherwise only the plan stored before, so a failure without mistakes and no earlier plan opens no report |
| AssessmentPathView.QuestMap.constructor | frontend/src/app/components/AssessmentPathView.tsx:26-33 | no progress, no level selected and both modals closed |
| AssessmentPathView.QuestMap.LevelClicked | frontend/src/app/components/AssessmentPathView.tsx:62-72 | the remedial report, the quiz for the level, or nothing, as `NodeClick` decides; a locked node's disabled button does nothing |
| AssessmentPathView.QuestMap.QuizComplete | frontend/src/app/components/AssessmentPathView.tsx:74-77 | the quiz closes, the level stays selected, and a refresh is requested for the classroom |
| AssessmentPathView.QuestMap.ModalClosed | frontend/src/app/components/AssessmentPathView.tsx:251 | only the quiz's open flag is cleared; the modal stays mounted |
| AssessmentPathView.QuestMap.RemedialClosed | frontend/src/app/components/AssessmentPathView.tsx:260 | only the remedial report's open flag is cleared |
| AssessmentPathView.QuestMap.ProgressReceived | frontend/src/app/components/AssessmentPathView.tsx:50-60 | a reply replaces the progress; a failure keeps the old one |
| RemedialModal.CheckNeedsSelection | frontend/src/app/components/RemedialModal.tsx:19 | without a non-empty selection or a practice question, checking changes nothing |
| RemedialModal.CheckJudges | frontend/src/app/components/RemedialModal.tsx:18-21 | checking sets the verdict to exactly whether the selection equals the expected answer, keeps the selection, and hides the Check button |
| RemedialModal.ActKeepsJudged | frontend/src/app/components/RemedialModal.tsx:18-21 | after any pick or check, every shown verdict is the verdict on the option currently picked |
| RemedialModal.SolvedStaysSolved | frontend/src/app/components/RemedialModal.tsx:75 | once the answer is judged correct, no sequence of picks and checks changes anything |
| RemedialModal.PickResets | frontend/src/app/components/RemedialModal.tsx:75-95 | before a correct verdict a pick selects the option and clears the verdict, and the Check button shows iff a practice question exists and the option is non-empty |
| RemedialModal.ReadFormatCountdown | frontend/src/app/components/RemedialModal.tsx:23-27 | the lock time reads back as whole minutes and the remaining seconds |
| RemedialModal.Practice.constructor | frontend/src/app/components/RemedialModal.tsx:13-14 | nothing selected and no verdict |
| RemedialModal.Practice.Check | frontend/src/app/components/RemedialModal.tsx:18-21 | the state becomes `CheckStep` of the plan and old state |
| RemedialModal.Practice.OptionClicked | frontend/src/app/components/RemedialModal.tsx:74-79 | the state becomes `PickStep` of the old state |
| RemedialModal.Practice.PlanReceived | frontend/src/app/components/RemedialModal.tsx:12-16 | a new plan keeps the selection and the verdict |
| TeacherAssessmentPreview.Toggled | frontend/src/app/components/TeacherAssessmentPreview.tsx:52-60 | the toggled element is in the result iff it was not before, and every other element keeps its membership |
| TeacherAssessmentPreview.ToggleTwice | frontend/src/app/components/TeacherAssessmentPreview.tsx:52-60 | toggling the same element twice restores the set |
| TeacherAssessmentPreview.ReadQuestKeyInverse | frontend/src/app/components/TeacherAssessmentPreview.tsx:63 | a quest key reads back as its chapter position and level |
| TeacherAssessmentPreview.QuestKeyInjective | frontend/src/app/components/TeacherAssessmentPreview.tsx:63 | different quests never share a key |
| TeacherAssessmentPreview.QuestToggleIsolated | frontend/src/app/components/TeacherAssessmentPreview.tsx:62-71 | toggling one quest leaves the expansion of every other quest unchanged |
| TeacherAssessmentPreview.AssessmentPreview.constructor | frontend/src/app/components/TeacherAssessmentPreview.tsx:32-35 | loading, no chapters, chapter 0 expanded and no quest expanded |
| TeacherAssessmentPreview.AssessmentPreview.AssessmentsReceived | frontend/src/app/components/TeacherAssessmentPreview.tsx:37-50 | loading ends; a reply without chapters gives none, a failed request keeps the old ones, and the expansions stay |
| TeacherAssessmentPreview.AssessmentPreview.ToggleChapter | frontend/src/app/components/TeacherAssessmentPreview.tsx:52-60 | the expanded chapters become the old set toggled at the index; nothing else changes |
| TeacherAssessmentPreview.AssessmentPreview.ToggleQuest | frontend/src/app/components/TeacherAssessmentPreview.tsx:62-71 | the expanded quests become the old set toggled at the quest's key; nothing else changes |

## Left out

- HTTP, JSON (de)serialisation and the progress file: replies are method parameters, and the file is the `records` map.
- `getmtime`/`getctime`: the stamp of a new history entry and of new mistakes is the `savedAt` parameter. The service takes it from the progress file's modification time before the save, or 0 when the file is absent (assessment_service.py:361, 376). A chapter file's `timestamp` is its creation time (assessment_service.py:60), which feeds only the lagging check.
- The stamps are stored as `str()` of that float, not as a number; the model keeps the number, so the string rendering is not modelled.
- `setTimeout`/`setInterval` scheduling is not modelled: the timers are explicit events.
- React's effect ordering is not modelled: the effects are run by `RunEffects` after each event.
- Wall-clock time is a `real` parameter rather than an integer, because the service stores `time.time()` floats. `int()` is `Floor`, which agrees with Python's truncation on the non-negative values where it is applied. `get_progress` reads `time.time()` three times (assessment_service.py:441, 443 and 455); the model uses one `now` for all three, so the instants between the reads are not modelled.
- AssessmentModal.UnlockHintBounded: the bound on the hint counter is proved for every event except a questions reply: a reply that arrives while hints are unlocked replaces the questions under an unchanged cursor without resetting `unlockedHints` (frontend/src/app/components/AssessmentModal.tsx:68-70 only resets on a cursor change), so the new question may have fewer hints than the counter.
- The LLM calls, prompts, PDF parsing and `generate_remedial_plan` are foreign calls. A remedial plan is an input of `submit`, and the generated quiz text is an input of `StripFences`.
- `.strip()` of surrounding whitespace before fence stripping is not modelled: the model has no notion of Unicode whitespace.
- The deadline message and `strftime` formatting in `get_progress` are left out: this is date formatting via the local time zone. `daysLate` is modelled.
- The generation cache: whether a cached quiz exists is the `cached` parameter, and cached content is not modelled.
- AssessmentModal.Session.UnlockHint: the hint unlock is atomic. The XP check, the spend reply and the increment happen in one step, so interleavings with other events while the spend request is in flight are not modelled.
- AssessmentModal.Session.Open: a change of the `level` prop while the modal is open is not modelled separately. Open takes the level.
- AssessmentPathView.QuestMap.QuizComplete: the progress refresh is returned as a request. Its reply arrives through `ProgressReceived`.
- TeacherAssessmentPreview.AssessmentPreview.ToggleQuest: quest levels are natural numbers, so negative levels in replies are not modelled.
- The short-answer heuristic uses string length in Dafny characters. JavaScript counts UTF-16 code units, so the two differ for characters outside the basic plane.
- Toasts, rendering, animation, the result screen's texts and the textarea's keystroke behaviour are not modelled: an answer is an arbitrary string.
- The classroom list, MistakesView, `get_teacher_analytics`, `get_all_assessments_for_teacher` and the other components are outside this model.

## Findings

| source | as written | input that shows it | evidently intended | confidence | as-written member | corrected member |
|---|---|---|---|---|---|---|
| frontend/src/app/components/AssessmentModal.tsx:105-108 | a fourth or later hint costs 0 XP | a question with four hints, the fourth unlocked with 0 XP | the price the button shows ("10 XP") | not executed | AssessmentModal.HintCostMatchesLabel | AssessmentModal.ListedHintCost |
| frontend/src/app/components/AssessmentModal.tsx:183-190 | the feedback timeout submits with the answers and mistakes from before the last answer | one question answered correctly: score 0 is sent | the last answer and mistake are part of the submission | not executed | AssessmentModal.LastAnswerDropped | AssessmentModal.Session.FeedbackTimeoutFixed |
| frontend/src/app/components/AssessmentModal.tsx:74-89 | the countdown submits the answers and mistakes captured when the interval started | two questions, first answered correctly, then 600 ticks: score 0 is sent | the answers at the time of the timeout are sent | not executed | AssessmentModal.TimeoutUsesStartView | AssessmentModal.TickLiveSubmitsLive |
| frontend/src/app/components/AssessmentModal.tsx:183-190 | the timeout adds 1 to the live index after checking the captured index | two questions, answer the first, press Next, wait: index 2 of 2 | the index stays within the questions | not executed | AssessmentModal.AdvanceOverrunsAfterNext | AssessmentModal.FixedAdvanceInRange |
| frontend/src/app/components/AssessmentModal.tsx:57-64 | closing does not clear the mistakes, and the quest map keeps the modal mounted | a wrong answer, close, reopen, answer both questions correctly: the old mistake is submitted | a new attempt starts without mistakes | not executed | AssessmentModal.StaleMistakesCarried | AssessmentModal.ReopenStartsClean |
| assessment_service.py:267-277 | a negative amount passes the balance check and credits XP | a failed level-1 attempt (0 XP), then spend -100: success, 100 XP | only non-negative amounts are spent | not executed | AssessmentService.NegativeSpendScenario | AssessmentService.ProgressStore.SpendXpChecked |
