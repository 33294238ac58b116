/**
  The timed quiz attempt of one level. The component's state fields, its
  effects (the close reset, the hint reset on a question change, the
  one-second countdown) and its handlers become the fields and methods of
  `Session`; each method is specified by a transition function on the
  value `ModalState`, and the properties of the attempt are lemmas about
  those functions.

  Timers are events of their own: `Tick` is one firing of the countdown
  interval, `FeedbackTimeout` the firing of the two-second feedback timer.
  Both run callbacks created at an earlier render, so they see the state of
  that render: the countdown submits the questions, answers and mistakes of
  the render at which the interval was started, the feedback timer those
  of the render on which the answer was given (before it was recorded).
  HTTP replies are parameters of the events that deliver them.
 */
module AssessmentModal {
  import opened Wrappers
  import opened Text
  import S = AssessmentService

  /** Seconds on the clock when an attempt starts. */
  const TimeLimit: nat := 600

  datatype QuestionKind = Mcq | ShortAnswer

  datatype Question = Question(
    id: int,
    text: string,
    options: Option<seq<string>>,
    correctAnswer: Option<string>,
    kind: Option<QuestionKind>,
    hints: seq<string>,
    explanation: Option<string>)

  datatype Feedback = Success | Error

  /** What a `submitAssessment` closure reads when it runs: the props and state of the render that created it. */
  datatype View = View(level: int, sessionId: string, questions: seq<Question>, userAnswers: map<int, string>,
                       wrongQuestions: seq<S.MistakeRecord>)

  /** A scheduled feedback timeout and what its closure captured. */
  datatype PendingAdvance = PendingAdvance(index: nat, count: nat, view: View)

  /** The body of the submit request. */
  datatype Payload = Payload(sessionId: string, level: int, score: nat, maxScore: nat, mistakes: seq<S.MistakeRecord>)

  /** Outcome of the spend request for a paid hint. */
  datatype SpendReply = Spent | Declined | SpendFailed

  /**
    The attempt's state. `pendingAdvance` is the scheduled feedback timer and
    `countdownView` the running countdown interval with the view its
    closure captured; the others are the component's own state and props.
   */
  datatype ModalState = ModalState(
    level: int,
    sessionId: string,
    isOpen: bool,
    loading: bool,
    questions: seq<Question>,
    currentIndex: nat,
    userAnswers: map<int, string>,
    timer: nat,
    result: Option<S.SubmitReply>,
    isReviewMode: bool,
    feedback: Option<Feedback>,
    wrongQuestions: seq<S.MistakeRecord>,
    userXP: int,
    unlockedHints: nat,
    pendingAdvance: Option<PendingAdvance>,
    countdownView: Option<View>)

  /** A transition and the submit request it sends, if any. */
  datatype Step = Step(next: ModalState, sent: Option<Payload>)

  // ---------------------------------------------------------------- scoring and review

  function AnswerOf(answers: map<int, string>, id: int): Option<string> {
    if id in answers then Some(answers[id]) else None
  }

  /** A question earns a point: a non-empty correct answer matched, or a short answer over five characters. */
  predicate ScoresPoint(q: Question, answers: map<int, string>) {
    || (q.correctAnswer.Some? && q.correctAnswer.value != "" && AnswerOf(answers, q.id) == q.correctAnswer)
    || (q.kind == Some(ShortAnswer) && AnswerOf(answers, q.id).Some? && |AnswerOf(answers, q.id).value| > 5)
  }

  /** The number of questions of `qs` that earn a point. */
  function ProvisionalScore(qs: seq<Question>, answers: map<int, string>): (score: nat)
    ensures score <= |qs|
    decreases |qs|
  {
    if qs == [] then 0
    else ProvisionalScore(qs[..|qs| - 1], answers) + (if ScoresPoint(qs[|qs| - 1], answers) then 1 else 0)
  }

  /** The scoring loop of `submitAssessment`. */
  method ComputeScore(qs: seq<Question>, answers: map<int, string>) returns (score: nat)
    ensures score == ProvisionalScore(qs, answers)
  {
    score := 0;
    var i := 0;
    while i < |qs|
      invariant 0 <= i <= |qs|
      invariant score == ProvisionalScore(qs[..i], answers)
    {
      assert qs[..i + 1][..i] == qs[..i];
      if ScoresPoint(qs[i], answers) {
        score := score + 1;
      }
      i := i + 1;
    }
    assert qs[..i] == qs;
  }

  /** The score is full exactly when every question earns its point. */
  lemma {:induction false} FullScoreIff(qs: seq<Question>, answers: map<int, string>)
    ensures ProvisionalScore(qs, answers) == |qs| <==> forall i :: 0 <= i < |qs| ==> ScoresPoint(qs[i], answers)
    decreases |qs|
  {
    if qs != [] {
      var init := qs[..|qs| - 1];
      FullScoreIff(init, answers);
      if forall i :: 0 <= i < |qs| ==> ScoresPoint(qs[i], answers) {
        assert forall i :: 0 <= i < |init| ==> ScoresPoint(init[i], answers) by {
          forall i | 0 <= i < |init| ensures ScoresPoint(init[i], answers) {
            assert init[i] == qs[i];
          }
        }
      }
      if ProvisionalScore(qs, answers) == |qs| {
        forall i | 0 <= i < |qs| ensures ScoresPoint(qs[i], answers) {
          if i < |init| {
            assert init[i] == qs[i];
          }
        }
      }
    }
  }

  /** With no answers recorded, nothing scores. */
  lemma {:induction false} NoAnswersScoreZero(qs: seq<Question>)
    ensures ProvisionalScore(qs, map[]) == 0
    decreases |qs|
  {
    if qs != [] {
      NoAnswersScoreZero(qs[..|qs| - 1]);
    }
  }

  /** The review screen's verdict for one question: the stored answer equals the expected one. */
  predicate ReviewCorrect(q: Question, answers: map<int, string>) {
    AnswerOf(answers, q.id) == q.correctAnswer
  }

  /**
    Review and score agree on questions with a non-empty expected answer
    that are not short answers; otherwise they can disagree both ways.
   */
  lemma ReviewAgreesWithScore(q: Question, answers: map<int, string>)
    ensures q.correctAnswer.Some? && q.correctAnswer.value != "" && q.kind != Some(ShortAnswer) ==>
      (ReviewCorrect(q, answers) <==> ScoresPoint(q, answers))
    ensures q.correctAnswer.None? && q.id !in answers ==> ReviewCorrect(q, answers) && !ScoresPoint(q, answers)
    ensures q.correctAnswer.None? && q.kind == Some(ShortAnswer) && q.id in answers && |answers[q.id]| > 5 ==>
      !ReviewCorrect(q, answers) && ScoresPoint(q, answers)
  {
  }

  // ---------------------------------------------------------------- hints

  /** The price `handleUnlockHint` charges for the next hint, given how many are unlocked. */
  function HintCost(unlocked: nat): (cost: nat)
    ensures cost <= 10
    ensures cost == 0 <==> unlocked != 1 && unlocked != 2
  {
    if unlocked == 0 then 0 else if unlocked == 1 then 5 else if unlocked == 2 then 10 else 0
  }

  /** The price tag on the "Unlock Next Hint" button. */
  function HintLabel(unlocked: nat): string {
    if unlocked == 0 then "FREE" else if unlocked == 1 then "5 XP" else "10 XP"
  }

  /** The XP amount a price tag announces. */
  function LabelPrice(tag: string): nat {
    if tag == "FREE" then 0
    else match IndexOf(tag, ' ')
      case Some(k) => if AllDigits(tag[..k]) then ParseNat(tag[..k]) else 0
      case None => 0
  }

  /** The three price tags read as 0, 5 and 10 XP. */
  lemma ReadPriceTags()
    ensures LabelPrice("FREE") == 0 && LabelPrice("5 XP") == 5 && LabelPrice("10 XP") == 10
  {
    IndexOfAfterDigits("5", ' ', "XP");
    assert "5 XP"[..1] == "5";
    assert ParseNat("5") == 5 by { assert "5"[..0] == []; }
    IndexOfAfterDigits("10", ' ', "XP");
    assert "10 XP"[..2] == "10";
    assert ParseNat("10") == 10 by { assert "10"[..1] == "1"; assert "1"[..0] == []; }
  }

  /** The price the button announces: free, then 5 XP, then 10 XP for every later hint. */
  function ListedHintCost(unlocked: nat): (cost: nat)
    ensures cost == LabelPrice(HintLabel(unlocked))
  {
    ReadPriceTags();
    if unlocked == 0 then 0 else if unlocked == 1 then 5 else 10
  }

  /** The charged price matches the price tag exactly for the first three hints. */
  lemma HintCostMatchesLabel(unlocked: nat)
    ensures HintCost(unlocked) == LabelPrice(HintLabel(unlocked)) <==> unlocked <= 2
  {
    ReadPriceTags();
  }

  // ---------------------------------------------------------------- the clock

  /** `formatTime`: whole minutes, a colon, and the seconds padded to two digits. */
  function FormatClock(seconds: nat): string {
    NatToString(seconds / 60) + ":" + PadStart2(NatToString(seconds % 60))
  }

  /** Reads a clock face back into minutes and seconds. */
  function ReadClock(face: string): Option<(nat, nat)> {
    match IndexOf(face, ':')
    case None => None
    case Some(k) =>
      var mins, secs := face[..k], face[k + 1..];
      if AllDigits(mins) && AllDigits(secs) then Some((ParseNat(mins), ParseNat(secs))) else None
  }

  lemma ShortNumeral(n: nat)
    requires n < 100
    ensures |NatToString(n)| <= 2
  {
  }

  /** The clock face shows exactly the minutes and seconds left, the seconds as two digits. */
  lemma ReadFormatClock(seconds: nat)
    ensures ReadClock(FormatClock(seconds)) == Some((seconds / 60, seconds % 60))
    ensures |PadStart2(NatToString(seconds % 60))| == 2
  {
    var mins := NatToString(seconds / 60);
    var secs := PadStart2(NatToString(seconds % 60));
    var face := FormatClock(seconds);
    PadStart2Digits(seconds % 60);
    ParseNatToString(seconds / 60);
    ShortNumeral(seconds % 60);
    assert face == mins + [':'] + secs;
    IndexOfAfterDigits(mins, ':', secs);
    assert face[..|mins|] == mins;
    assert face[|mins| + 1..] == secs;
  }

  /** Different remaining times never show the same clock face. */
  lemma FormatClockInjective(a: nat, b: nat)
    requires FormatClock(a) == FormatClock(b)
    ensures a == b
  {
    ReadFormatClock(a);
    ReadFormatClock(b);
  }

  // ---------------------------------------------------------------- transitions

  /** The component as first mounted for a session, closed and with no level yet. */
  function Initial(sessionId: string): ModalState {
    ModalState(0, sessionId, false, false, [], 0, map[], TimeLimit, None, false, None, [], 0, 0, None, None)
  }

  function ViewOf(s: ModalState): View {
    View(s.level, s.sessionId, s.questions, s.userAnswers, s.wrongQuestions)
  }

  /** The countdown effect's guard: open, no result yet, nothing loading. */
  predicate CountdownRunning(s: ModalState) {
    s.isOpen && s.result.None? && !s.loading
  }

  /** The question view is on screen with a question under the cursor. */
  predicate QuestionShown(s: ModalState) {
    s.isOpen && !s.loading && s.result.None? && !s.isReviewMode && s.currentIndex < |s.questions|
  }

  /** The Previous / Next / Complete footer is on screen. */
  predicate FooterShown(s: ModalState) {
    s.isOpen && s.result.None? && !s.isReviewMode && !s.loading
  }

  /** Next is enabled when the question under the cursor has a non-empty answer. */
  predicate NextEnabled(s: ModalState) {
    s.currentIndex < |s.questions| &&
    AnswerOf(s.userAnswers, s.questions[s.currentIndex].id).Some? &&
    AnswerOf(s.userAnswers, s.questions[s.currentIndex].id).value != ""
  }

  /** What must hold between the component state and its timers at every moment. */
  predicate Consistent(s: ModalState) {
    && s.timer <= TimeLimit
    && (s.feedback.Some? <==> s.pendingAdvance.Some?)
    && (s.countdownView.Some? <==> CountdownRunning(s))
    && (s.pendingAdvance.Some? ==> s.pendingAdvance.value.index < s.pendingAdvance.value.count)
  }

  /** The hints unlocked never exceed the hints of the question under the cursor. */
  predicate HintsWithin(s: ModalState) {
    s.currentIndex < |s.questions| ==> s.unlockedHints <= |s.questions[s.currentIndex].hints|
  }

  /** One of the countdown effect's inputs (open, result, loading) changed. */
  predicate GuardChanged(before: ModalState, after: ModalState) {
    after.isOpen != before.isOpen || after.result != before.result || after.loading != before.loading
  }

  /**
    The effects that follow a state change from `before` to `after`: the
    hint counter is reset when the cursor moved, and the countdown is
    stopped, or restarted with a closure over the new view, when its guard
    inputs (open, result, loading) changed.
   */
  function Effects(before: ModalState, after: ModalState): (s: ModalState)
    ensures s.currentIndex != before.currentIndex ==> s.unlockedHints == 0
    ensures s.currentIndex == before.currentIndex ==> s.unlockedHints == after.unlockedHints
    ensures s.countdownView.Some? <==> CountdownRunning(s)
    ensures CountdownRunning(s) && (GuardChanged(before, after) || after.countdownView.None?) ==>
      s.countdownView == Some(ViewOf(after))
    ensures CountdownRunning(s) && !GuardChanged(before, after) && after.countdownView.Some? ==>
      s.countdownView == after.countdownView
    ensures s == after.(unlockedHints := s.unlockedHints, countdownView := s.countdownView)
  {
    var hints := if after.currentIndex != before.currentIndex then 0 else after.unlockedHints;
    var restarted := GuardChanged(before, after);
    var countdown :=
      if !CountdownRunning(after) then None
      else if restarted || after.countdownView.None? then Some(ViewOf(after))
      else after.countdownView;
    after.(unlockedHints := hints, countdownView := countdown)
  }

  /** The reset the open/close effect performs when the modal is closed or lacks its props. */
  function Reset(s: ModalState): ModalState {
    s.(questions := [], currentIndex := 0, userAnswers := map[], result := None, isReviewMode := false,
       timer := TimeLimit, unlockedHints := 0)
  }

  /** The request body `submitAssessment` builds from the view its closure sees. */
  function PayloadFor(v: View): (p: Payload)
    ensures p.score <= p.maxScore == |v.questions| && p.mistakes == v.wrongQuestions
    ensures p.sessionId == v.sessionId && p.level == v.level
  {
    Payload(v.sessionId, v.level, ProvisionalScore(v.questions, v.userAnswers), |v.questions|, v.wrongQuestions)
  }

  /** `submitAssessment` run by a closure that sees `v`: loading starts and the request is sent. */
  function Submit(before: ModalState, s: ModalState, v: View): Step {
    Step(Effects(before, s.(loading := true)), Some(PayloadFor(v)))
  }

  /**
    The `isOpen` prop turns true with the `level` prop chosen on the quest
    map: with a level and a session the quiz and XP are requested.
   */
  function OpenStep(s: ModalState, level: int): ModalState {
    if s.isOpen then s
    else if level != 0 && s.sessionId != "" then Effects(s, s.(level := level, isOpen := true, loading := true))
    else Effects(s, Reset(s.(level := level, isOpen := true)))
  }

  /** The `isOpen` prop turns false. */
  function CloseStep(s: ModalState): ModalState {
    if !s.isOpen then s else Effects(s, Reset(s.(isOpen := false)))
  }

  /** Closing as intended: the attempt's mistakes, feedback and pending timeout go with it. */
  function CloseFullyStep(s: ModalState): ModalState {
    if !s.isOpen then s
    else Effects(s, Reset(s.(isOpen := false, wrongQuestions := [], feedback := None, pendingAdvance := None)))
  }

  /** The quiz request completes: `None` is a failure, `Some(None)` a reply without questions. */
  function LoadedStep(s: ModalState, reply: Option<Option<seq<Question>>>): ModalState {
    var withQuestions := if reply.Some? && reply.value.Some? then s.(questions := reply.value.value) else s;
    Effects(s, withQuestions.(loading := false))
  }

  /** The XP request completes: `None` is a failure, `Some(None)` a reply without `xp`. */
  function XpLoadedStep(s: ModalState, reply: Option<Option<int>>): ModalState {
    if reply.None? then s else s.(userXP := reply.value.GetOr(0))
  }

  /** "Unlock Next Hint", with the reply the spend request would get. */
  function UnlockHintStep(s: ModalState, spend: SpendReply): ModalState {
    if !QuestionShown(s) || s.unlockedHints >= |s.questions[s.currentIndex].hints| then s
    else
      var cost := HintCost(s.unlockedHints);
      if cost == 0 then s.(unlockedHints := s.unlockedHints + 1)
      else if s.userXP < cost then s
      else if spend == Spent then s.(userXP := s.userXP - cost, unlockedHints := s.unlockedHints + 1)
      else s
  }

  /** `handleAnswerInitial`: record the answer, log a mistake when wrong, and schedule the advance. */
  function AnswerStep(s: ModalState, answer: string): ModalState {
    if !QuestionShown(s) || s.feedback.Some? then s
    else
      var q := s.questions[s.currentIndex];
      var correct := q.correctAnswer == Some(answer);
      s.(userAnswers := s.userAnswers[q.id := answer],
         feedback := Some(if correct then Success else Error),
         wrongQuestions := if correct then s.wrongQuestions
                           else s.wrongQuestions + [S.MistakeRecord(q.text, q.correctAnswer, q.explanation, Some(answer))],
         pendingAdvance := Some(PendingAdvance(s.currentIndex, |s.questions|, ViewOf(s))))
  }

  /**
    The feedback timer fires: feedback clears, then the cursor is moved one
    past its current position when the answered question was not the last,
    and otherwise the captured view is submitted.
   */
  function FeedbackStep(s: ModalState): Step {
    match s.pendingAdvance
    case None => Step(s, None)
    case Some(p) =>
      var cleared := s.(feedback := None, pendingAdvance := None);
      if p.index < p.count - 1 then Step(Effects(s, cleared.(currentIndex := s.currentIndex + 1)), None)
      else Submit(s, cleared, p.view)
  }

  /** The countdown fires: one second off, or at the last second zero and a submit of the captured view. */
  function TickStep(s: ModalState): Step {
    match s.countdownView
    case None => Step(s, None)
    case Some(v) =>
      if s.timer <= 1 then Submit(s, s.(timer := 0), v)
      else Step(s.(timer := s.timer - 1), None)
  }

  /** `Math.min` on cursor positions. */
  function MinIndex(a: int, b: nat): (m: nat)
    requires a >= 0
    ensures m <= a && m <= b && (m == a || m == b)
  {
    if a < b then a else b
  }

  function PreviousStep(s: ModalState): ModalState {
    if FooterShown(s) && s.currentIndex != 0 then Effects(s, s.(currentIndex := s.currentIndex - 1)) else s
  }

  function NextStep(s: ModalState): ModalState {
    if FooterShown(s) && s.currentIndex != |s.questions| - 1 && NextEnabled(s) then
      Effects(s, s.(currentIndex := MinIndex(|s.questions| - 1, s.currentIndex + 1)))
    else s
  }

  /** "Complete Quest", shown on the last question, submits the current view. */
  function CompleteStep(s: ModalState): Step {
    if FooterShown(s) && s.currentIndex == |s.questions| - 1 then Submit(s, s, ViewOf(s)) else Step(s, None)
  }

  /** The submit request completes: `None` is a failure, which leaves the result unset. */
  function SubmittedStep(s: ModalState, reply: Option<S.SubmitReply>): ModalState {
    var withResult := if reply.Some? then s.(result := reply) else s;
    Effects(s, withResult.(loading := false))
  }

  /** "Review Answers" on the result screen. */
  function ReviewStep(s: ModalState): ModalState {
    if s.isOpen && !s.loading && s.result.Some? && !s.isReviewMode then s.(isReviewMode := true) else s
  }

  /** The countdown as intended: at zero it submits the answers and mistakes of the moment. */
  function TickLiveStep(s: ModalState): Step {
    match s.countdownView
    case None => Step(s, None)
    case Some(_) =>
      if s.timer <= 1 then Submit(s, s.(timer := 0), ViewOf(s))
      else Step(s.(timer := s.timer - 1), None)
  }

  /** The feedback timeout as intended: move to the question after the answered one, or submit what is recorded. */
  function FeedbackFixedStep(s: ModalState): Step {
    match s.pendingAdvance
    case None => Step(s, None)
    case Some(p) =>
      var cleared := s.(feedback := None, pendingAdvance := None);
      if p.index < p.count - 1 then Step(Effects(s, cleared.(currentIndex := p.index + 1)), None)
      else Submit(s, cleared, ViewOf(cleared))
  }

  datatype Event =
    | Opened(openLevel: int)
    | Closed
    | AssessmentLoaded(questionsReply: Option<Option<seq<Question>>>)
    | XpLoaded(xpReply: Option<Option<int>>)
    | HintClicked(spend: SpendReply)
    | Answered(answer: string)
    | FeedbackTimeout
    | Tick
    | PreviousClicked
    | NextClicked
    | CompleteClicked
    | SubmitCompleted(submitReply: Option<S.SubmitReply>)
    | ReviewClicked

  function Apply(s: ModalState, e: Event): Step {
    match e
    case Opened(l) => Step(OpenStep(s, l), None)
    case Closed => Step(CloseStep(s), None)
    case AssessmentLoaded(r) => Step(LoadedStep(s, r), None)
    case XpLoaded(r) => Step(XpLoadedStep(s, r), None)
    case HintClicked(r) => Step(UnlockHintStep(s, r), None)
    case Answered(a) => Step(AnswerStep(s, a), None)
    case FeedbackTimeout => FeedbackStep(s)
    case Tick => TickStep(s)
    case PreviousClicked => Step(PreviousStep(s), None)
    case NextClicked => Step(NextStep(s), None)
    case CompleteClicked => CompleteStep(s)
    case SubmitCompleted(r) => Step(SubmittedStep(s, r), None)
    case ReviewClicked => Step(ReviewStep(s), None)
  }

  /** The state after a sequence of events. */
  function Run(s: ModalState, events: seq<Event>): ModalState
    decreases |events|
  {
    if events == [] then s else Apply(Run(s, events[..|events| - 1]), events[|events| - 1]).next
  }

  /** The state after `k` firings of the countdown. */
  function Ticks(s: ModalState, k: nat): ModalState
    decreases k
  {
    if k == 0 then s else TickStep(Ticks(s, k - 1)).next
  }

  // ---------------------------------------------------------------- invariants

  /** Every event keeps the timers in step with the state, and the clock within 0..600. */
  lemma ApplyConsistent(s: ModalState, e: Event)
    requires Consistent(s)
    ensures Consistent(Apply(s, e).next)
  {
  }

  lemma {:induction false} RunConsistent(sessionId: string, events: seq<Event>)
    ensures Consistent(Run(Initial(sessionId), events))
    decreases |events|
  {
    if events != [] {
      RunConsistent(sessionId, events[..|events| - 1]);
      ApplyConsistent(Run(Initial(sessionId), events[..|events| - 1]), events[|events| - 1]);
    }
  }

  /** Every submit request scores at most one point per question it reports. */
  lemma SentScoreBounded(s: ModalState, e: Event)
    ensures Apply(s, e).sent.Some? ==> Apply(s, e).sent.value.score <= Apply(s, e).sent.value.maxScore
  {
  }

  // ---------------------------------------------------------------- hints

  /** Unlocking is a no-op once the question's hints are used up, so the counter never passes their number. */
  lemma UnlockHintBounded(s: ModalState, spend: SpendReply)
    requires HintsWithin(s)
    ensures HintsWithin(UnlockHintStep(s, spend))
    ensures UnlockHintStep(s, spend).unlockedHints <= s.unlockedHints + 1
    ensures QuestionShown(s) && s.unlockedHints >= |s.questions[s.currentIndex].hints| ==> UnlockHintStep(s, spend) == s
  {
  }

  /**
    Every event other than a questions reply keeps the hint counter within
    the current question's hints; a reply may replace the questions under
    an unchanged cursor without resetting the counter.
   */
  lemma HintsKeptByEvents(s: ModalState, e: Event)
    requires Consistent(s) && HintsWithin(s) && !e.AssessmentLoaded?
    ensures HintsWithin(Apply(s, e).next)
  {
  }

  /**
    A paid hint: too little XP, or a spend that was not confirmed, changes
    nothing; a confirmed spend charges exactly the cost and unlocks one hint.
   */
  lemma PaidHintOutcomes(s: ModalState, spend: SpendReply)
    requires QuestionShown(s) && s.unlockedHints < |s.questions[s.currentIndex].hints| && HintCost(s.unlockedHints) > 0
    ensures s.userXP < HintCost(s.unlockedHints) ==> UnlockHintStep(s, spend) == s
    ensures spend != Spent ==> UnlockHintStep(s, spend) == s
    ensures s.userXP >= HintCost(s.unlockedHints) && spend == Spent ==>
      UnlockHintStep(s, spend) == s.(userXP := s.userXP - HintCost(s.unlockedHints), unlockedHints := s.unlockedHints + 1)
  {
  }

  /** The fourth and later hints are handed out free, although the button asks 10 XP for them. */
  lemma LateHintsFree(s: ModalState, spend: SpendReply)
    requires QuestionShown(s) && 3 <= s.unlockedHints < |s.questions[s.currentIndex].hints|
    ensures UnlockHintStep(s, spend) == s.(unlockedHints := s.unlockedHints + 1)
    ensures LabelPrice(HintLabel(s.unlockedHints)) == 10
  {
    assert ListedHintCost(s.unlockedHints) == 10;
  }

  // ---------------------------------------------------------------- answers and navigation

  /** An answer while feedback or a result is showing is ignored. */
  lemma AnswerIgnoredWhileLocked(s: ModalState, answer: string)
    requires s.feedback.Some? || s.result.Some?
    ensures AnswerStep(s, answer) == s
  {
  }

  /**
    An accepted answer is stored under the question's id, and one mistake
    is appended exactly when it differs from the expected answer.
   */
  lemma AnswerRecorded(s: ModalState, answer: string)
    requires QuestionShown(s) && s.feedback.None?
    ensures var t, q := AnswerStep(s, answer), s.questions[s.currentIndex];
      && t.userAnswers == s.userAnswers[q.id := answer]
      && s.wrongQuestions <= t.wrongQuestions
      && (q.correctAnswer != Some(answer) <==> |t.wrongQuestions| == |s.wrongQuestions| + 1)
      && (q.correctAnswer == Some(answer) <==> t.wrongQuestions == s.wrongQuestions)
      && (q.correctAnswer != Some(answer) ==>
            t.wrongQuestions[|s.wrongQuestions|] == S.MistakeRecord(q.text, q.correctAnswer, q.explanation, Some(answer)))
      && t.feedback == Some(if q.correctAnswer == Some(answer) then Success else Error)
      && t.currentIndex == s.currentIndex && t.questions == s.questions && t.timer == s.timer
      && t.pendingAdvance == Some(PendingAdvance(s.currentIndex, |s.questions|, ViewOf(s)))
  {
  }

  /** A question without an expected answer, such as a short-answer question, logs any answer as a mistake. */
  lemma UnkeyedAnswerIsMistake(s: ModalState, answer: string)
    requires QuestionShown(s) && s.feedback.None? && s.questions[s.currentIndex].correctAnswer.None?
    ensures AnswerStep(s, answer).feedback == Some(Error)
    ensures |AnswerStep(s, answer).wrongQuestions| == |s.wrongQuestions| + 1
  {
  }

  /** One answer per feedback window: a second answer before the timeout changes nothing. */
  lemma FeedbackLock(s: ModalState, a: string, b: string)
    requires QuestionShown(s) && s.feedback.None?
    ensures AnswerStep(AnswerStep(s, a), b) == AnswerStep(s, a)
  {
  }

  /** Previous and Next keep the cursor on a question; Next moves only from an answered question. */
  lemma NavigationInRange(s: ModalState)
    requires s.currentIndex < |s.questions|
    ensures PreviousStep(s).currentIndex < |s.questions| && NextStep(s).currentIndex < |s.questions|
    ensures PreviousStep(s).currentIndex != s.currentIndex ==> PreviousStep(s).currentIndex == s.currentIndex - 1
    ensures NextStep(s).currentIndex != s.currentIndex ==>
      NextEnabled(s) && NextStep(s).currentIndex == s.currentIndex + 1 && NextStep(s).unlockedHints == 0
  {
  }

  /**
    The feedback timeout as written: feedback clears; if the answered
    question was not the last, the cursor moves one past where it is now;
    otherwise the view captured with the answer is submitted.
   */
  lemma FeedbackAdvance(s: ModalState)
    requires s.pendingAdvance.Some?
    ensures var p, st := s.pendingAdvance.value, FeedbackStep(s);
      && st.next.feedback.None? && st.next.pendingAdvance.None?
      && (p.index < p.count - 1 ==> st.sent.None? && st.next.currentIndex == s.currentIndex + 1 && st.next.unlockedHints == 0)
      && (p.index >= p.count - 1 ==> st.sent == Some(PayloadFor(p.view)) && st.next.loading)
  {
  }

  /**
    The corrected timeout keeps the cursor on a question and submits the
    answers and mistakes recorded at that moment.
   */
  lemma FixedAdvanceInRange(s: ModalState)
    requires s.pendingAdvance.Some? && s.pendingAdvance.value.index < s.pendingAdvance.value.count == |s.questions|
    ensures FeedbackFixedStep(s).sent.None? ==> FeedbackFixedStep(s).next.currentIndex < |s.questions|
    ensures FeedbackFixedStep(s).sent.Some? ==> FeedbackFixedStep(s).sent == Some(PayloadFor(ViewOf(s)))
  {
  }

  // ---------------------------------------------------------------- the countdown, closing, replies

  /** Each firing takes one second off; at one second or less the clock reads 0 and the captured view is submitted. */
  lemma TickCountsDown(s: ModalState)
    requires Consistent(s)
    ensures !CountdownRunning(s) ==> TickStep(s) == Step(s, None)
    ensures CountdownRunning(s) && s.timer > 1 ==> TickStep(s) == Step(s.(timer := s.timer - 1), None)
    ensures CountdownRunning(s) && s.timer <= 1 ==>
      && TickStep(s).next.timer == 0 && TickStep(s).next.loading && !CountdownRunning(TickStep(s).next)
      && TickStep(s).sent == Some(PayloadFor(s.countdownView.value))
  {
  }

  /** The corrected countdown counts down the same way, and at its last second it submits the answers and mistakes of the moment. */
  lemma TickLiveSubmitsLive(s: ModalState)
    requires Consistent(s)
    ensures TickLiveStep(s).next == TickStep(s).next
    ensures CountdownRunning(s) && s.timer <= 1 ==> TickLiveStep(s).sent == Some(PayloadFor(ViewOf(s)))
    ensures !(CountdownRunning(s) && s.timer <= 1) ==> TickLiveStep(s).sent.None?
  {
  }

  /** A running countdown loses exactly one second per firing until its last second. */
  lemma {:induction false} TicksCountDown(s: ModalState, k: nat)
    requires s.countdownView.Some? && k < s.timer
    ensures Ticks(s, k) == s.(timer := s.timer - k)
    decreases k
  {
    if k > 0 {
      TicksCountDown(s, k - 1);
    }
  }

  /**
    Closing resets the attempt (questions, cursor, answers, result, review,
    clock, hints) and stops the countdown, but keeps the feedback, its
    pending timeout, the mistake list and the loading flag.
   */
  lemma CloseResets(s: ModalState)
    requires s.isOpen
    ensures var t := CloseStep(s);
      && !t.isOpen && t.questions == [] && t.currentIndex == 0 && t.userAnswers == map[] && t.result.None?
      && !t.isReviewMode && t.timer == TimeLimit && t.unlockedHints == 0 && t.countdownView.None?
      && t.feedback == s.feedback && t.pendingAdvance == s.pendingAdvance && t.wrongQuestions == s.wrongQuestions
      && t.loading == s.loading && t.userXP == s.userXP
  {
  }

  /** With the corrected close, a reopened attempt starts with no mistakes, feedback or pending timeout. */
  lemma ReopenStartsClean(s: ModalState, level: int)
    requires s.isOpen
    ensures var t := OpenStep(CloseFullyStep(s), level);
      && t.wrongQuestions == [] && t.feedback.None? && t.pendingAdvance.None?
      && t.userAnswers == map[] && t.currentIndex == 0 && t.timer == TimeLimit && t.result.None?
  {
  }

  /** A failed submit leaves the result unset and the attempt on screen; a reply becomes the result. */
  lemma SubmitReplyOutcomes(s: ModalState, reply: S.SubmitReply)
    ensures SubmittedStep(s, None).result == s.result && !SubmittedStep(s, None).loading
    ensures SubmittedStep(s, Some(reply)).result == Some(reply) && !CountdownRunning(SubmittedStep(s, Some(reply)))
  {
  }

  // ---------------------------------------------------------------- scenarios

  function SampleQuestion(id: int): Question {
    Question(id, "q", Some(["a", "b"]), Some("a"), Some(Mcq), [], None)
  }

  /** A level-1 attempt of session "s" whose quiz has loaded. */
  function Started(qs: seq<Question>): ModalState {
    LoadedStep(OpenStep(Initial("s"), 1), Some(Some(qs)))
  }

  /**
    One question answered correctly: the timeout submits the view captured
    before the answer, scoring 0 with the point lost; the corrected timeout
    scores 1.
   */
  lemma LastAnswerDropped()
    ensures FeedbackStep(AnswerStep(Started([SampleQuestion(1)]), "a")).sent == Some(Payload("s", 1, 0, 1, []))
    ensures FeedbackFixedStep(AnswerStep(Started([SampleQuestion(1)]), "a")).sent == Some(Payload("s", 1, 1, 1, []))
  {
    var qs := [SampleQuestion(1)];
    assert qs[..0] == [];
    assert ProvisionalScore(qs, map[]) == 0;
    assert ProvisionalScore(qs, map[1 := "a"]) == 1;
  }

  /**
    Two questions, the first answered correctly, then the clock runs out:
    the countdown submits the view of its start and scores 0; the corrected
    countdown scores 1.
   */
  lemma TimeoutUsesStartView(k: nat)
    requires k == TimeLimit - 1
    ensures var t := Ticks(FeedbackStep(AnswerStep(Started([SampleQuestion(1), SampleQuestion(2)]), "a")).next, k);
      && TickStep(t).sent == Some(Payload("s", 1, 0, 2, []))
      && TickLiveStep(t).sent == Some(Payload("s", 1, 1, 2, []))
  {
    var qs := [SampleQuestion(1), SampleQuestion(2)];
    var loaded := Started(qs);
    assert loaded.countdownView == Some(View(1, "s", qs, map[], [])) && loaded.timer == TimeLimit;
    var answered := AnswerStep(loaded, "a");
    assert answered.userAnswers == map[1 := "a"] && answered.wrongQuestions == [];
    var s := FeedbackStep(answered).next;
    assert s == answered.(feedback := None, pendingAdvance := None, currentIndex := 1);
    TicksCountDown(s, k);
    var t := s.(timer := 1);
    assert qs[..1] == [SampleQuestion(1)] && qs[..1][..0] == [];
    assert ProvisionalScore(qs, map[]) == 0;
    assert ProvisionalScore(qs, map[1 := "a"]) == 1;
    assert TickStep(t).sent == Some(PayloadFor(View(1, "s", qs, map[], [])));
    assert TickLiveStep(t).sent == Some(PayloadFor(ViewOf(t)));
  }

  /** "Complete Quest" during the feedback on the last question, then the timeout: two submit requests. */
  lemma DoubleSubmission()
    ensures CompleteStep(AnswerStep(Started([SampleQuestion(1)]), "a")).sent == Some(Payload("s", 1, 1, 1, []))
    ensures FeedbackStep(CompleteStep(AnswerStep(Started([SampleQuestion(1)]), "a")).next).sent == Some(Payload("s", 1, 0, 1, []))
  {
    var qs := [SampleQuestion(1)];
    assert qs[..0] == [];
    assert ProvisionalScore(qs, map[]) == 0;
    assert ProvisionalScore(qs, map[1 := "a"]) == 1;
  }

  /**
    One question answered at level 1, then the modal closed and reopened at
    level 2 before the feedback timeout: the timeout still submits the
    level-1 attempt it captured, graded as level 1.
   */
  lemma TimeoutKeepsCapturedLevel()
    ensures OpenStep(CloseStep(AnswerStep(Started([SampleQuestion(1)]), "a")), 2).level == 2
    ensures FeedbackStep(OpenStep(CloseStep(AnswerStep(Started([SampleQuestion(1)]), "a")), 2)).sent
      == Some(Payload("s", 1, 0, 1, []))
  {
    var qs := [SampleQuestion(1)];
    assert qs[..0] == [];
    assert ProvisionalScore(qs, map[]) == 0;
  }

  /**
    Two questions; the first is answered and Next clicked during the
    feedback: the timeout then moves the cursor to 2, past the last
    question. The corrected timeout leaves it on the second question.
   */
  lemma AdvanceOverrunsAfterNext()
    ensures NextStep(AnswerStep(Started([SampleQuestion(1), SampleQuestion(2)]), "a")).currentIndex == 1
    ensures FeedbackStep(NextStep(AnswerStep(Started([SampleQuestion(1), SampleQuestion(2)]), "a"))).next.currentIndex == 2
    ensures FeedbackFixedStep(NextStep(AnswerStep(Started([SampleQuestion(1), SampleQuestion(2)]), "a"))).next.currentIndex == 1
  {
  }

  /**
    Two questions: the first answered wrongly, the modal closed and reopened
    for the same level, then both answered correctly and the quest
    completed. The request still carries the mistake of the abandoned
    attempt; with the corrected close it carries none.
   */
  lemma StaleMistakesCarried()
    ensures var qs := [SampleQuestion(1), SampleQuestion(2)];
      var abandoned := FeedbackStep(AnswerStep(Started(qs), "b")).next;
      && CompleteStep(AnswerAll(CloseStep(abandoned), qs)).sent
           == Some(Payload("s", 1, 2, 2, [S.MistakeRecord("q", Some("a"), None, Some("b"))]))
      && CompleteStep(AnswerAll(CloseFullyStep(abandoned), qs)).sent == Some(Payload("s", 1, 2, 2, []))
  {
    var qs := [SampleQuestion(1), SampleQuestion(2)];
    var abandoned := FeedbackStep(AnswerStep(Started(qs), "b")).next;
    AbandonedAttempt(qs);
    ReopenAfterClose(qs, abandoned);
    ReopenAfterFullClose(qs, abandoned);
  }

  /** The first of two questions answered wrongly and its feedback waited out. */
  lemma AbandonedAttempt(qs: seq<Question>)
    requires qs == [SampleQuestion(1), SampleQuestion(2)]
    ensures var abandoned := FeedbackStep(AnswerStep(Started(qs), "b")).next;
      && abandoned.wrongQuestions == [S.MistakeRecord("q", Some("a"), None, Some("b"))]
      && abandoned.isOpen && abandoned.pendingAdvance.None? && abandoned.feedback.None? && abandoned.sessionId == "s"
  {
    var loaded := Started(qs);
    assert loaded.questions == qs && loaded.currentIndex == 0 && QuestionShown(loaded);
    var answered := AnswerStep(loaded, "b");
    assert answered.wrongQuestions == [S.MistakeRecord("q", Some("a"), None, Some("b"))];
  }

  /** The close keeps the mistake, and the reopened attempt reports it. */
  lemma ReopenAfterClose(qs: seq<Question>, abandoned: ModalState)
    requires qs == [SampleQuestion(1), SampleQuestion(2)]
    requires abandoned.wrongQuestions == [S.MistakeRecord("q", Some("a"), None, Some("b"))]
    requires abandoned.isOpen && abandoned.pendingAdvance.None? && abandoned.feedback.None? && abandoned.sessionId == "s"
    ensures CompleteStep(AnswerAll(CloseStep(abandoned), qs)).sent
      == Some(Payload("s", 1, 2, 2, [S.MistakeRecord("q", Some("a"), None, Some("b"))]))
  {
    assert qs[..1] == [SampleQuestion(1)] && qs[..1][..0] == [];
    assert ProvisionalScore(qs, map[1 := "a", 2 := "a"]) == 2;
    var c := CloseStep(abandoned);
    assert c.wrongQuestions == abandoned.wrongQuestions && c.feedback.None? && c.pendingAdvance.None? && !c.isOpen;
    ReplayAfterReopen(c, qs);
  }

  /** The corrected close drops the mistake, and the reopened attempt reports none. */
  lemma ReopenAfterFullClose(qs: seq<Question>, abandoned: ModalState)
    requires qs == [SampleQuestion(1), SampleQuestion(2)]
    requires abandoned.isOpen && abandoned.sessionId == "s"
    ensures CompleteStep(AnswerAll(CloseFullyStep(abandoned), qs)).sent == Some(Payload("s", 1, 2, 2, []))
  {
    assert qs[..1] == [SampleQuestion(1)] && qs[..1][..0] == [];
    assert ProvisionalScore(qs, map[1 := "a", 2 := "a"]) == 2;
    ReplayAfterReopen(CloseFullyStep(abandoned), qs);
  }

  /** Reopen at level 1, load `qs`, answer "a" to the first question, wait out the feedback, answer "a" again. */
  function AnswerAll(closed: ModalState, qs: seq<Question>): ModalState {
    var r := LoadedStep(OpenStep(closed, 1), Some(Some(qs)));
    AnswerStep(FeedbackStep(AnswerStep(r, "a")).next, "a")
  }

  lemma ReplayAfterReopen(closed: ModalState, qs: seq<Question>)
    requires qs == [SampleQuestion(1), SampleQuestion(2)]
    requires !closed.isOpen && closed.feedback.None? && closed.pendingAdvance.None? && closed.sessionId == "s"
    requires closed.currentIndex == 0 && closed.result.None? && !closed.isReviewMode
    ensures var t := AnswerAll(closed, qs);
      && t.userAnswers == closed.userAnswers[1 := "a"][2 := "a"] && t.wrongQuestions == closed.wrongQuestions
      && CompleteStep(t).sent == Some(PayloadFor(ViewOf(t)))
  {
  }

  // ---------------------------------------------------------------- the component

  class Session {
    const sessionId: string
    var level: int
    var isOpen: bool
    var loading: bool
    var questions: seq<Question>
    var currentIndex: nat
    var userAnswers: map<int, string>
    var timer: nat
    var result: Option<S.SubmitReply>
    var isReviewMode: bool
    var feedback: Option<Feedback>
    var wrongQuestions: seq<S.MistakeRecord>
    var userXP: int
    var unlockedHints: nat
    /** The scheduled feedback timeout, if any, with what its closure captured. */
    var pendingAdvance: Option<PendingAdvance>
    /** The running countdown interval, if any, with the view its closure captured. */
    var countdownView: Option<View>

    function State(): ModalState
      reads this
    {
      ModalState(level, sessionId, isOpen, loading, questions, currentIndex, userAnswers, timer, result,
                 isReviewMode, feedback, wrongQuestions, userXP, unlockedHints, pendingAdvance, countdownView)
    }

    /** What a `submitAssessment` closure created at this render would see. */
    function CurrentView(): View
      reads this
    {
      View(level, sessionId, questions, userAnswers, wrongQuestions)
    }

    /** The component as mounted, with the modal closed. */
    constructor (sessionId: string)
      ensures State() == Initial(sessionId)
    {
      this.sessionId := sessionId;
      level := 0;
      isOpen := false;
      loading := false;
      questions := [];
      currentIndex := 0;
      userAnswers := map[];
      timer := TimeLimit;
      result := None;
      isReviewMode := false;
      feedback := None;
      wrongQuestions := [];
      userXP := 0;
      unlockedHints := 0;
      pendingAdvance := None;
      countdownView := None;
    }

    /** The effects that run after the handler that started in state `before`. */
    method RunEffects(before: ModalState)
      modifies this
      ensures State() == Effects(before, old(State()))
    {
      if currentIndex != before.currentIndex {
        unlockedHints := 0;
      }
      if !(isOpen && result.None? && !loading) {
        countdownView := None;
      } else if isOpen != before.isOpen || result != before.result || loading != before.loading || countdownView.None? {
        countdownView := Some(CurrentView());
      }
    }

    method ResetAttempt()
      modifies this
      ensures State() == Reset(old(State()))
    {
      questions := [];
      currentIndex := 0;
      userAnswers := map[];
      result := None;
      isReviewMode := false;
      timer := TimeLimit;
      unlockedHints := 0;
    }

    /** `submitAssessment` with the view `v` its closure sees. */
    method BeginSubmit(before: ModalState, v: View) returns (sent: Option<Payload>)
      modifies this
      ensures State() == Submit(before, old(State()), v).next
      ensures sent == Submit(before, old(State()), v).sent
    {
      loading := true;
      var score := ComputeScore(v.questions, v.userAnswers);
      sent := Some(Payload(v.sessionId, v.level, score, |v.questions|, v.wrongQuestions));
      RunEffects(before);
    }

    method Open(newLevel: int)
      modifies this
      ensures State() == OpenStep(old(State()), newLevel)
    {
      if isOpen {
        return;
      }
      var before := State();
      level := newLevel;
      isOpen := true;
      if level != 0 && sessionId != "" {
        loading := true;
      } else {
        ResetAttempt();
      }
      RunEffects(before);
    }

    method Close()
      modifies this
      ensures State() == CloseStep(old(State()))
    {
      if !isOpen {
        return;
      }
      var before := State();
      isOpen := false;
      ResetAttempt();
      RunEffects(before);
    }

    /** Closing as intended: the attempt's mistakes, feedback and pending timeout are discarded. */
    method CloseFully()
      modifies this
      ensures State() == CloseFullyStep(old(State()))
    {
      if !isOpen {
        return;
      }
      var before := State();
      isOpen := false;
      wrongQuestions := [];
      feedback := None;
      pendingAdvance := None;
      ResetAttempt();
      RunEffects(before);
    }

    method AssessmentLoaded(reply: Option<Option<seq<Question>>>)
      modifies this
      ensures State() == LoadedStep(old(State()), reply)
    {
      var before := State();
      if reply.Some? && reply.value.Some? {
        questions := reply.value.value;
      }
      loading := false;
      RunEffects(before);
    }

    method XpLoaded(reply: Option<Option<int>>)
      modifies this
      ensures State() == XpLoadedStep(old(State()), reply)
    {
      if reply.Some? {
        userXP := reply.value.GetOr(0);
      }
    }

    method UnlockHint(spend: SpendReply)
      modifies this
      ensures State() == UnlockHintStep(old(State()), spend)
    {
      if !QuestionShown(State()) || unlockedHints >= |questions[currentIndex].hints| {
        return;
      }
      var cost := HintCost(unlockedHints);
      if cost > 0 {
        if userXP < cost {
          return;
        }
        if spend != Spent {
          return;
        }
        userXP := userXP - cost;
      }
      unlockedHints := unlockedHints + 1;
    }

    method Answer(answer: string)
      modifies this
      ensures State() == AnswerStep(old(State()), answer)
    {
      if !QuestionShown(State()) || feedback.Some? {
        return;
      }
      var q := questions[currentIndex];
      var captured := PendingAdvance(currentIndex, |questions|, CurrentView());
      userAnswers := userAnswers[q.id := answer];
      if q.correctAnswer == Some(answer) {
        feedback := Some(Success);
      } else {
        feedback := Some(Error);
        wrongQuestions := wrongQuestions + [S.MistakeRecord(q.text, q.correctAnswer, q.explanation, Some(answer))];
      }
      pendingAdvance := Some(captured);
    }

    method FeedbackTimeout() returns (sent: Option<Payload>)
      modifies this
      ensures State() == FeedbackStep(old(State())).next
      ensures sent == FeedbackStep(old(State())).sent
    {
      if pendingAdvance.None? {
        return None;
      }
      var p := pendingAdvance.value;
      var before := State();
      feedback := None;
      pendingAdvance := None;
      if p.index < p.count - 1 {
        currentIndex := currentIndex + 1;
        RunEffects(before);
        sent := None;
      } else {
        sent := BeginSubmit(before, p.view);
      }
    }

    method Tick() returns (sent: Option<Payload>)
      modifies this
      ensures State() == TickStep(old(State())).next
      ensures sent == TickStep(old(State())).sent
    {
      if countdownView.None? {
        return None;
      }
      var v := countdownView.value;
      if timer <= 1 {
        var before := State();
        timer := 0;
        sent := BeginSubmit(before, v);
      } else {
        timer := timer - 1;
        sent := None;
      }
    }

    method Previous()
      modifies this
      ensures State() == PreviousStep(old(State()))
    {
      if !FooterShown(State()) || currentIndex == 0 {
        return;
      }
      var before := State();
      currentIndex := currentIndex - 1;
      RunEffects(before);
    }

    method Next()
      modifies this
      ensures State() == NextStep(old(State()))
    {
      if !FooterShown(State()) || currentIndex == |questions| - 1 || !NextEnabled(State()) {
        return;
      }
      var before := State();
      currentIndex := MinIndex(|questions| - 1, currentIndex + 1);
      RunEffects(before);
    }

    method CompleteQuest() returns (sent: Option<Payload>)
      modifies this
      ensures State() == CompleteStep(old(State())).next
      ensures sent == CompleteStep(old(State())).sent
    {
      if !FooterShown(State()) || currentIndex != |questions| - 1 {
        return None;
      }
      sent := BeginSubmit(State(), CurrentView());
    }

    method SubmitCompleted(reply: Option<S.SubmitReply>)
      modifies this
      ensures State() == SubmittedStep(old(State()), reply)
    {
      var before := State();
      if reply.Some? {
        result := reply;
      }
      loading := false;
      RunEffects(before);
    }

    method EnterReview()
      modifies this
      ensures State() == ReviewStep(old(State()))
    {
      if isOpen && !loading && result.Some? && !isReviewMode {
        isReviewMode := true;
      }
    }

    /** The countdown as intended: at zero it submits what is recorded now. */
    method TickLive() returns (sent: Option<Payload>)
      modifies this
      ensures State() == TickLiveStep(old(State())).next
      ensures sent == TickLiveStep(old(State())).sent
    {
      if countdownView.None? {
        return None;
      }
      if timer <= 1 {
        var before := State();
        timer := 0;
        sent := BeginSubmit(before, CurrentView());
      } else {
        timer := timer - 1;
        sent := None;
      }
    }

    /** The feedback timeout as intended: next question after the answered one, or submit what is recorded. */
    method FeedbackTimeoutFixed() returns (sent: Option<Payload>)
      modifies this
      ensures State() == FeedbackFixedStep(old(State())).next
      ensures sent == FeedbackFixedStep(old(State())).sent
    {
      if pendingAdvance.None? {
        return None;
      }
      var p := pendingAdvance.value;
      var before := State();
      feedback := None;
      pendingAdvance := None;
      if p.index < p.count - 1 {
        currentIndex := p.index + 1;
        RunEffects(before);
        sent := None;
      } else {
        sent := BeginSubmit(before, CurrentView());
      }
    }
  }
}
