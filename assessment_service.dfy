/**
  The progress and XP ledger of the assessment back end. The JSON progress
  file becomes the fields of a `ProgressStore` object: a map from session id
  to progress record, together with the order in which the session keys
  appear in the file (Python dictionaries keep insertion order, and the
  global mistake listing follows it). Wall-clock time and file modification
  times are `real` parameters, `random.randint` is a parameter constrained
  to its range, and the language-model calls are parameters holding their
  replies.
 */
module AssessmentService {
  import opened Wrappers

  /** Seconds a failed attempt locks the level (`COOLDOWN_SECONDS`). */
  const CooldownSeconds: int := 600
  /** Seconds after a chapter's upload before its learner counts as lagging. */
  const DeadlineSeconds: int := 5 * 24 * 3600
  const SecondsPerDay: int := 24 * 3600

  // ---------------------------------------------------------------- records

  datatype PracticeQuestion = PracticeQuestion(
    question: string,
    options: seq<string>,
    correctAnswer: Option<string>,
    explanation: Option<string>)

  /** A remedial plan as produced by the language model. */
  datatype RemedialPlan = RemedialPlan(
    diagnosis: string,
    explanation: string,
    practice: Option<PracticeQuestion>)

  /** A mistake as the front end submits it. */
  datatype MistakeRecord = MistakeRecord(
    question: string,
    correctAnswer: Option<string>,
    explanation: Option<string>,
    userAnswer: Option<string>)

  /** A mistake as the store keeps it. */
  datatype StoredMistake = StoredMistake(
    question: string,
    correctAnswer: Option<string>,
    explanation: Option<string>,
    userAnswer: Option<string>,
    level: int,
    comments: string,
    timestamp: real)

  datatype HistoryEntry = HistoryEntry(
    level: int, score: int, maxScore: int, passed: bool, xpGained: int, timestamp: real)

  /**
    One session's progress record. An absent "mistakes" key reads the same
    as an empty list everywhere in the service, so it is an empty sequence.
   */
  datatype Progress = Progress(
    xp: int,
    unlockedLevel: int,
    chapterIndex: nat,
    history: seq<HistoryEntry>,
    mistakes: seq<StoredMistake>,
    remedialPlan: Option<RemedialPlan>,
    retryAvailableAt: Option<real>)

  /** The reply of `submit_assessment_result`. */
  datatype SubmitReply = SubmitReply(
    passed: bool, xpGained: int, newTotalXp: int, unlockedLevel: int, score: int)

  datatype Grade = Grade(passed: bool, xpGained: int)

  /** An entry of a mistake listing; the global listing tags each with its session. */
  datatype ListedMistake = ListedMistake(mistake: StoredMistake, sessionId: Option<string>)

  /** An uploaded chapter document, as listed oldest first. */
  datatype ChapterFile = ChapterFile(filename: string, timestamp: real)

  datatype Status = OnTrack | Lagging

  datatype ChapterProgress = ChapterProgress(
    title: string, next: Option<string>, status: Status, daysLate: int)

  datatype CooldownView = CooldownView(record: Progress, remaining: Option<int>)

  /** What `get_progress` returns. */
  datatype ProgressView = ProgressView(
    record: Progress,
    currentChapterTitle: string,
    nextChapterTitle: Option<string>,
    status: Status,
    daysLate: int,
    totalChapters: nat,
    cooldownRemaining: Option<int>)

  /** How `generate_assessment` proceeds before it calls the model. */
  datatype GenerationStep =
    | FromCache
    | NoDocuments
    | AllChaptersCompleted
    | ContentMissing(filename: string)
    | Generate(chapter: ChapterFile)

  /** The record a new session starts with (also `get_progress`'s default). */
  function NewProgress(): Progress {
    Progress(0, 1, 0, [], [], None, None)
  }

  function RecordOr(records: map<string, Progress>, sessionId: string): Progress {
    if sessionId in records then records[sessionId] else NewProgress()
  }

  predicate RecordValid(p: Progress) {
    && p.xp >= 0
    && 1 <= p.unlockedLevel <= 3
    && DistinctQuestions(p.mistakes)
  }

  // ---------------------------------------------------------------- grading

  /** Lowest XP award of a pass at `level`; every range is 50 wide. */
  function XpFloor(level: int): int {
    if level == 1 then 50 else if level == 2 then 100 else 650
  }

  /**
    The pass rule and XP award of `submit_assessment_result`. The award
    `random.randint(lo, lo + 50)` is `lo + roll` for a `roll` in 0..50.
   */
  function GradeAttempt(level: int, score: int, roll: int): (g: Grade)
    requires 0 <= roll <= 50
    ensures g.passed <==> (level == 1 && score >= 8) || (level == 2 && score >= 7) || (level == 3 && score > 0)
    ensures g.passed ==> XpFloor(level) <= g.xpGained <= XpFloor(level) + 50
    ensures !g.passed ==> g.xpGained == 0
  {
    if level == 1 && score >= 8 then Grade(true, 50 + roll)
    else if level == 2 && score >= 7 then Grade(true, 100 + roll)
    else if level == 3 && score > 0 then Grade(true, 150 + roll + 500)
    else Grade(false, 0)
  }

  /** A higher score never turns a pass into a failure, and earns the same award. */
  lemma GradeMonotone(level: int, s1: int, s2: int, roll: int)
    requires 0 <= roll <= 50 && s1 <= s2
    ensures GradeAttempt(level, s1, roll).passed ==> GradeAttempt(level, s2, roll) == GradeAttempt(level, s1, roll)
  {
  }

  /** Only levels 1 to 3 can be passed, and a pass always earns at least 50 XP. */
  lemma PassNeedsKnownLevel(level: int, score: int, roll: int)
    requires 0 <= roll <= 50
    ensures GradeAttempt(level, score, roll).passed ==> level in {1, 2, 3} && GradeAttempt(level, score, roll).xpGained >= 50
  {
  }

  // ---------------------------------------------------------------- mistakes

  predicate HasQuestion(ms: seq<StoredMistake>, q: string) {
    exists i :: 0 <= i < |ms| && ms[i].question == q
  }

  predicate DistinctQuestions(ms: seq<StoredMistake>) {
    forall i, j :: 0 <= i < j < |ms| ==> ms[i].question != ms[j].question
  }

  function StoredFrom(m: MistakeRecord, level: int, stamp: real): StoredMistake {
    StoredMistake(m.question, m.correctAnswer, m.explanation, m.userAnswer, level, "", stamp)
  }

  /**
    The stored mistakes after `incoming` is merged in, one at a time, each
    kept only when no mistake with the same question text is stored yet.
   */
  function Merged(stored: seq<StoredMistake>, incoming: seq<MistakeRecord>, level: int, stamp: real): seq<StoredMistake>
    decreases |incoming|
  {
    if incoming == [] then stored
    else
      var s := Merged(stored, incoming[..|incoming| - 1], level, stamp);
      var m := incoming[|incoming| - 1];
      if HasQuestion(s, m.question) then s else s + [StoredFrom(m, level, stamp)]
  }

  /** The loop of `submit_assessment_result` that stores new mistakes. */
  method MergeMistakes(stored: seq<StoredMistake>, incoming: seq<MistakeRecord>, level: int, stamp: real)
    returns (merged: seq<StoredMistake>)
    ensures merged == Merged(stored, incoming, level, stamp)
  {
    merged := stored;
    var i := 0;
    while i < |incoming|
      invariant 0 <= i <= |incoming|
      invariant merged == Merged(stored, incoming[..i], level, stamp)
    {
      var m := incoming[i];
      assert incoming[..i + 1][..i] == incoming[..i];
      var seen := exists k :: 0 <= k < |merged| && merged[k].question == m.question;
      if !seen {
        merged := merged + [StoredFrom(m, level, stamp)];
      }
      i := i + 1;
    }
    assert incoming[..|incoming|] == incoming;
  }

  /** Merging only appends: the mistakes stored before stay, in place. */
  lemma {:induction false} MergedExtends(stored: seq<StoredMistake>, incoming: seq<MistakeRecord>, level: int, stamp: real)
    ensures stored <= Merged(stored, incoming, level, stamp)
    decreases |incoming|
  {
    if incoming != [] {
      MergedExtends(stored, incoming[..|incoming| - 1], level, stamp);
    }
  }

  /** Merging keeps the stored question texts pairwise distinct. */
  lemma {:induction false} MergedDistinct(stored: seq<StoredMistake>, incoming: seq<MistakeRecord>, level: int, stamp: real)
    ensures DistinctQuestions(stored) ==> DistinctQuestions(Merged(stored, incoming, level, stamp))
    decreases |incoming|
  {
    if incoming != [] {
      MergedDistinct(stored, incoming[..|incoming| - 1], level, stamp);
    }
  }

  /** A question is stored after the merge iff it was stored before or was submitted. */
  lemma {:induction false} MergedQuestions(stored: seq<StoredMistake>, incoming: seq<MistakeRecord>, level: int, stamp: real, q: string)
    ensures HasQuestion(Merged(stored, incoming, level, stamp), q) <==>
            (HasQuestion(stored, q) || exists i :: 0 <= i < |incoming| && incoming[i].question == q)
    decreases |incoming|
  {
    if incoming != [] {
      var init := incoming[..|incoming| - 1];
      MergedQuestions(stored, init, level, stamp, q);
      var s := Merged(stored, init, level, stamp);
      var m := incoming[|incoming| - 1];
      if !HasQuestion(s, m.question) {
        var t := s + [StoredFrom(m, level, stamp)];
        if HasQuestion(s, q) {
          var i :| 0 <= i < |s| && s[i].question == q;
          assert t[i].question == q;
        }
        if m.question == q {
          assert t[|s|].question == q;
        }
        if HasQuestion(t, q) && !HasQuestion(s, q) {
          assert incoming[|incoming| - 1].question == q;
        }
      }
      if exists i :: 0 <= i < |init| && init[i].question == q {
        var i :| 0 <= i < |init| && init[i].question == q;
        assert incoming[i].question == q;
      }
      if exists i :: 0 <= i < |incoming| && incoming[i].question == q {
        var i :| 0 <= i < |incoming| && incoming[i].question == q;
        if i < |init| {
          assert init[i].question == q;
        }
      }
    }
  }

  /** Every entry the merge adds is a submitted mistake, at `level`, with no comment. */
  lemma {:induction false} MergedNewEntries(stored: seq<StoredMistake>, incoming: seq<MistakeRecord>, level: int, stamp: real, k: nat)
    requires |stored| <= k < |Merged(stored, incoming, level, stamp)|
    ensures var e := Merged(stored, incoming, level, stamp)[k];
            e.level == level && e.comments == "" && e.timestamp == stamp &&
            exists i :: 0 <= i < |incoming| && e == StoredFrom(incoming[i], level, stamp)
    decreases |incoming|
  {
    var init := incoming[..|incoming| - 1];
    var s := Merged(stored, init, level, stamp);
    if k < |s| {
      MergedNewEntries(stored, init, level, stamp, k);
      var e := s[k];
      var i :| 0 <= i < |init| && e == StoredFrom(init[i], level, stamp);
      assert incoming[i] == init[i];
    } else {
      assert incoming[|incoming| - 1] == incoming[|incoming| - 1];
    }
  }

  predicate FirstMatch(ms: seq<StoredMistake>, q: string, k: nat) {
    k < |ms| && ms[k].question == q && forall j :: 0 <= j < k ==> ms[j].question != q
  }

  /** The search loop of `update_mistake_comment`: the first mistake with question `q`. */
  method FindQuestion(ms: seq<StoredMistake>, q: string) returns (k: Option<nat>)
    ensures k.Some? ==> FirstMatch(ms, q, k.value)
    ensures k.None? ==> !HasQuestion(ms, q)
  {
    var i := 0;
    while i < |ms|
      invariant 0 <= i <= |ms|
      invariant forall j :: 0 <= j < i ==> ms[j].question != q
    {
      if ms[i].question == q {
        return Some(i);
      }
      i := i + 1;
    }
    return None;
  }

  /** With distinct question texts the first match is the only match. */
  lemma FirstMatchIsOnly(ms: seq<StoredMistake>, q: string, k: nat, j: nat)
    requires DistinctQuestions(ms) && FirstMatch(ms, q, k) && j < |ms| && ms[j].question == q
    ensures j == k
  {
  }

  function Tagged(ms: seq<StoredMistake>, sessionId: string): (r: seq<ListedMistake>)
    ensures |r| == |ms|
    ensures forall k :: 0 <= k < |ms| ==> r[k] == ListedMistake(ms[k], Some(sessionId))
  {
    seq(|ms|, k requires 0 <= k < |ms| => ListedMistake(ms[k], Some(sessionId)))
  }

  function Untagged(ms: seq<StoredMistake>): (r: seq<ListedMistake>)
    ensures |r| == |ms|
    ensures forall k :: 0 <= k < |ms| ==> r[k] == ListedMistake(ms[k], None)
  {
    seq(|ms|, k requires 0 <= k < |ms| => ListedMistake(ms[k], None))
  }

  /** The global listing: every session's mistakes, in key order, tagged with the session. */
  function AllMistakes(keys: seq<string>, records: map<string, Progress>): seq<ListedMistake>
    requires forall k :: k in keys ==> k in records
    decreases |keys|
  {
    if keys == [] then []
    else
      var sid := keys[|keys| - 1];
      AllMistakes(keys[..|keys| - 1], records) + Tagged(records[sid].mistakes, sid)
  }

  /** Every listed entry is a stored mistake of the session it is tagged with. */
  lemma {:induction false} AllMistakesSound(keys: seq<string>, records: map<string, Progress>, x: ListedMistake)
    requires forall k :: k in keys ==> k in records
    requires x in AllMistakes(keys, records)
    ensures x.sessionId.Some? && x.sessionId.value in keys && x.mistake in records[x.sessionId.value].mistakes
    decreases |keys|
  {
    var init := keys[..|keys| - 1];
    var sid := keys[|keys| - 1];
    var t := Tagged(records[sid].mistakes, sid);
    if x in AllMistakes(init, records) {
      AllMistakesSound(init, records, x);
      assert x.sessionId.value in init;
    } else {
      assert x in t;
      var k :| 0 <= k < |t| && t[k] == x;
      assert x.mistake == records[sid].mistakes[k];
    }
  }

  /** Every stored mistake of every listed session appears, tagged with its session. */
  lemma {:induction false} AllMistakesComplete(keys: seq<string>, records: map<string, Progress>, sid: string, k: nat)
    requires forall key :: key in keys ==> key in records
    requires sid in keys && k < |records[sid].mistakes|
    ensures ListedMistake(records[sid].mistakes[k], Some(sid)) in AllMistakes(keys, records)
    decreases |keys|
  {
    var init := keys[..|keys| - 1];
    var last := keys[|keys| - 1];
    if sid == last {
      assert Tagged(records[sid].mistakes, sid)[k] == ListedMistake(records[sid].mistakes[k], Some(sid));
    } else {
      assert sid in init;
      AllMistakesComplete(init, records, sid, k);
    }
  }

  /**
    The record `submit_assessment_result` writes back after one attempt:
    XP awarded, level or chapter index moved on a pass, cooldown and
    remedial plan set on a failure (the plan only when there are mistakes),
    the attempt appended to the history and the mistakes merged in.
    `savedAt` is the stamp of the new history entry and mistakes: the
    progress file's modification time before this save, or 0 without a file.
   */
  function AfterAttempt(before: Progress, level: int, score: int, maxScore: int, mistakes: seq<MistakeRecord>,
                        now: real, roll: int, plan: RemedialPlan, savedAt: real): (after: Progress)
    requires 0 <= roll <= 50
    ensures RecordValid(before) ==> RecordValid(after)
    ensures after.xp == before.xp + GradeAttempt(level, score, roll).xpGained
    ensures GradeAttempt(level, score, roll).passed ==> after.remedialPlan.None? && after.retryAvailableAt.None?
    ensures !GradeAttempt(level, score, roll).passed ==>
      && after.unlockedLevel == before.unlockedLevel
      && after.chapterIndex == before.chapterIndex
      && after.retryAvailableAt == Some(now + CooldownSeconds as real)
      && after.remedialPlan == (if |mistakes| > 0 then Some(plan) else before.remedialPlan)
    ensures GradeAttempt(level, score, roll).passed && level == 3 ==>
      after.chapterIndex == before.chapterIndex + 1 && after.unlockedLevel == 1
    ensures GradeAttempt(level, score, roll).passed && level != 3 ==>
      && after.chapterIndex == before.chapterIndex
      && after.unlockedLevel >= before.unlockedLevel
      && after.unlockedLevel >= level + 1
    ensures GradeAttempt(level, score, roll).passed && level == 1 ==>
      after.unlockedLevel == (if before.unlockedLevel < 2 then 2 else before.unlockedLevel)
    ensures GradeAttempt(level, score, roll).passed && level == 2 ==>
      after.unlockedLevel == (if before.unlockedLevel < 3 then 3 else before.unlockedLevel)
    ensures after.history == before.history + [HistoryEntry(level, score, maxScore,
      GradeAttempt(level, score, roll).passed, GradeAttempt(level, score, roll).xpGained, savedAt)]
    ensures before.mistakes <= after.mistakes
    ensures after.mistakes == Merged(before.mistakes, mistakes, level, savedAt)
  {
    var g := GradeAttempt(level, score, roll);
    var graded :=
      if !g.passed then
        before.(retryAvailableAt := Some(now + CooldownSeconds as real),
                remedialPlan := if |mistakes| > 0 then Some(plan) else before.remedialPlan)
      else
        var moved :=
          if level == 1 then before.(unlockedLevel := if before.unlockedLevel < 2 then 2 else before.unlockedLevel)
          else if level == 2 then before.(unlockedLevel := if before.unlockedLevel < 3 then 3 else before.unlockedLevel)
          else before.(chapterIndex := before.chapterIndex + 1, unlockedLevel := 1);
        moved.(xp := moved.xp + g.xpGained, remedialPlan := None, retryAvailableAt := None);
    MergedExtends(before.mistakes, mistakes, level, savedAt);
    MergedDistinct(before.mistakes, mistakes, level, savedAt);
    graded.(history := before.history + [HistoryEntry(level, score, maxScore, g.passed, g.xpGained, savedAt)],
            mistakes := Merged(before.mistakes, mistakes, level, savedAt))
  }

  /** The steps `submit_assessment_result` applies to the session's record. */
  method ApplyAttempt(before: Progress, level: int, score: int, maxScore: int, mistakes: seq<MistakeRecord>,
                      now: real, roll: int, plan: RemedialPlan, savedAt: real)
    returns (user: Progress)
    requires 0 <= roll <= 50
    ensures user == AfterAttempt(before, level, score, maxScore, mistakes, now, roll, plan, savedAt)
  {
    user := before;
    var g := GradeAttempt(level, score, roll);
    if g.passed {
      if level == 1 {
        if user.unlockedLevel < 2 {
          user := user.(unlockedLevel := 2);
        }
      } else if level == 2 {
        if user.unlockedLevel < 3 {
          user := user.(unlockedLevel := 3);
        }
      } else {
        user := user.(chapterIndex := user.chapterIndex + 1, unlockedLevel := 1);
      }
      user := user.(xp := user.xp + g.xpGained, remedialPlan := None, retryAvailableAt := None);
    } else {
      user := user.(retryAvailableAt := Some(now + CooldownSeconds as real));
      if |mistakes| > 0 {
        user := user.(remedialPlan := Some(plan));
      }
    }
    user := user.(history := user.history + [HistoryEntry(level, score, maxScore, g.passed, g.xpGained, savedAt)]);
    var merged := MergeMistakes(user.mistakes, mistakes, level, savedAt);
    user := user.(mistakes := merged);
  }

  // ---------------------------------------------------------------- text cleanup

  /**
    The markdown-fence cleanup applied to model output: a leading "```json"
    or "```" is dropped together with the last three characters, with
    Python's slice clamping (`content[7:-3]`, `content[3:-3]`).
   */
  function StripFences(content: string): (r: string)
    ensures |r| <= |content|
    ensures !(|content| >= 3 && content[..3] == "```") ==> r == content
  {
    if |content| >= 7 && content[..7] == "```json" then
      (if |content| >= 10 then content[7..|content| - 3] else "")
    else if |content| >= 3 && content[..3] == "```" then
      (if |content| >= 6 then content[3..|content| - 3] else "")
    else content
  }

  lemma StripJsonFence(body: string)
    ensures StripFences("```json" + body + "```") == body
  {
    var c := "```json" + body + "```";
    assert c[..7] == "```json";
    assert c[7..|c| - 3] == body;
  }

  lemma StripPlainFence(body: string)
    requires !(|body| >= 4 && body[..4] == "json")
    ensures StripFences("```" + body + "```") == body
  {
    var c := "```" + body + "```";
    assert c[..3] == "```";
    assert c[3..|c| - 3] == body;
    if |c| >= 7 {
      if |body| >= 4 {
        assert c[3..7] == body[..4];
      } else {
        assert c[3 + |body|] == '`';
      }
    }
  }

  // ---------------------------------------------------------------- chapters and cooldown

  /**
    The checks `generate_assessment` makes before calling the model: the
    cache (keyed by session and level only), the document list, the chapter
    index and the extracted text of the chosen chapter.
   */
  function GenerationPlan(cached: bool, chapterIndex: nat, files: seq<ChapterFile>, context: string): (step: GenerationStep)
    ensures cached ==> step == FromCache
    ensures step.Generate? <==> !cached && chapterIndex < |files| && context != ""
    ensures step.Generate? ==> step.chapter == files[chapterIndex]
    ensures step == AllChaptersCompleted <==> !cached && 0 < |files| <= chapterIndex
  {
    if cached then FromCache
    else if |files| == 0 then NoDocuments
    else if chapterIndex >= |files| then AllChaptersCompleted
    else if context == "" then ContentMissing(files[chapterIndex].filename)
    else Generate(files[chapterIndex])
  }

  /** The cooldown part of `get_progress`. */
  function CooldownOf(p: Progress, now: real): (v: CooldownView)
    ensures p.retryAvailableAt.None? ==> v == CooldownView(p, None)
    ensures p.retryAvailableAt.Some? && p.retryAvailableAt.value - now > 0.0 ==>
      && v.record == p
      && v.remaining.Some? && v.remaining.value >= 0
      && v.remaining.value as real <= p.retryAvailableAt.value - now < v.remaining.value as real + 1.0
    ensures p.retryAvailableAt.Some? && p.retryAvailableAt.value - now <= 0.0 ==>
      v == CooldownView(p.(retryAvailableAt := None, remedialPlan := None), None)
  {
    match p.retryAvailableAt
    case None => CooldownView(p, None)
    case Some(t) =>
      var remaining := t - now;
      if remaining > 0.0 then CooldownView(p, Some(remaining.Floor))
      else CooldownView(p.(retryAvailableAt := None, remedialPlan := None), None)
  }

  /**
    After a failed attempt at time `t0`, the cooldown seen at `now` is at
    most 600 seconds, positive for the first 599 seconds, and gone (with the
    remedial plan) from 600 seconds on.
   */
  lemma CooldownAfterFailure(p: Progress, t0: real, now: real)
    requires p.retryAvailableAt == Some(t0 + CooldownSeconds as real) && t0 <= now
    ensures var v := CooldownOf(p, now);
      && (v.remaining.Some? ==> v.remaining.value <= CooldownSeconds)
      && (now <= t0 + (CooldownSeconds - 1) as real ==> v.remaining.Some? && v.remaining.value >= 1)
      && (now >= t0 + CooldownSeconds as real ==> v.remaining.None? && v.record.remedialPlan.None?)
  {
    var v := CooldownOf(p, now);
    if now <= t0 + (CooldownSeconds - 1) as real {
      assert v.remaining.value as real + 1.0 > 1.0;
    }
  }

  /** The chapter-progress part of `get_progress`. */
  function ChapterProgressOf(files: seq<ChapterFile>, index: nat, now: real): (c: ChapterProgress)
    ensures c.status == Lagging <==> index < |files| && now > files[index].timestamp + DeadlineSeconds as real
    ensures c.status == Lagging ==>
      && c.daysLate >= 0
      && c.daysLate as real * SecondsPerDay as real <= now - (files[index].timestamp + DeadlineSeconds as real)
      && now - (files[index].timestamp + DeadlineSeconds as real) < (c.daysLate + 1) as real * SecondsPerDay as real
    ensures c.next.Some? <==> index + 1 < |files|
    ensures index < |files| ==> c.title == files[index].filename
    ensures index + 1 < |files| ==> c.next == Some(files[index + 1].filename)
    ensures index >= |files| ==> c.title == "All Chapters Mastered!"
  {
    if index < |files| then
      var deadline := files[index].timestamp + DeadlineSeconds as real;
      var next := if index + 1 < |files| then Some(files[index + 1].filename) else None;
      if now > deadline then
        ChapterProgress(files[index].filename, next, Lagging, ((now - deadline) / SecondsPerDay as real).Floor)
      else
        ChapterProgress(files[index].filename, next, OnTrack, 0)
    else ChapterProgress("All Chapters Mastered!", None, OnTrack, 0)
  }

  /** Once lagging on a chapter, a learner stays lagging on it as time passes. */
  lemma LaggingPersists(files: seq<ChapterFile>, index: nat, t1: real, t2: real)
    requires t1 <= t2 && ChapterProgressOf(files, index, t1).status == Lagging
    ensures ChapterProgressOf(files, index, t2).status == Lagging
  {
  }

  function ViewOf(p: Progress, files: seq<ChapterFile>, now: real): ProgressView {
    var c := ChapterProgressOf(files, p.chapterIndex, now);
    var v := CooldownOf(p, now);
    ProgressView(v.record, c.title, c.next, c.status, c.daysLate, |files|, v.remaining)
  }

  // ---------------------------------------------------------------- the store

  class ProgressStore {
    /** Session ids in the order their keys appear in the progress file. */
    var order: seq<string>
    var records: map<string, Progress>

    ghost predicate Valid()
      reads this
    {
      && (forall sid :: sid in records <==> sid in order)
      && (forall i, j :: 0 <= i < j < |order| ==> order[i] != order[j])
      && (forall sid :: sid in records ==> RecordValid(records[sid]))
    }

    /** An absent progress file reads as an empty store. */
    constructor ()
      ensures Valid() && order == [] && records == map[]
    {
      order := [];
      records := map[];
    }

    /** `spend_xp`, as written: any amount at most the balance is deducted. */
    method SpendXp(sessionId: string, amount: int) returns (ok: bool)
      requires Valid()
      modifies this
      ensures Valid() && order == old(order)
      ensures ok <==> sessionId in old(records) && old(records)[sessionId].xp >= amount
      ensures ok ==> records == old(records)[sessionId := old(records)[sessionId].(xp := old(records)[sessionId].xp - amount)]
      ensures !ok ==> records == old(records)
    {
      if sessionId !in records {
        return false;
      }
      if records[sessionId].xp >= amount {
        var user := records[sessionId];
        records := records[sessionId := user.(xp := user.xp - amount)];
        return true;
      }
      return false;
    }

    /** `spend_xp` as its documentation intends it: a negative amount is refused. */
    method SpendXpChecked(sessionId: string, amount: int) returns (ok: bool)
      requires Valid()
      modifies this
      ensures Valid() && order == old(order)
      ensures ok <==> amount >= 0 && sessionId in old(records) && old(records)[sessionId].xp >= amount
      ensures ok ==> records == old(records)[sessionId := old(records)[sessionId].(xp := old(records)[sessionId].xp - amount)]
      ensures !ok ==> records == old(records)
      ensures forall sid :: sid in records ==> records[sid].xp <= old(records)[sid].xp
    {
      if amount < 0 {
        return false;
      }
      ok := SpendXp(sessionId, amount);
    }

    /**
      `submit_assessment_result`: the session's record (created on first
      use) is replaced by its state after the attempt, and the reply reports
      the grade and the new totals.
     */
    method SubmitResult(sessionId: string, level: int, score: int, maxScore: int, mistakes: seq<MistakeRecord>,
                        now: real, roll: int, plan: RemedialPlan, savedAt: real)
      returns (reply: SubmitReply)
      requires Valid() && 0 <= roll <= 50
      modifies this
      ensures Valid()
      ensures order == if sessionId in old(records) then old(order) else old(order) + [sessionId]
      ensures records == old(records)[sessionId :=
        AfterAttempt(RecordOr(old(records), sessionId), level, score, maxScore, mistakes, now, roll, plan, savedAt)]
      ensures reply == SubmitReply(GradeAttempt(level, score, roll).passed, GradeAttempt(level, score, roll).xpGained,
                                   records[sessionId].xp, records[sessionId].unlockedLevel, score)
    {
      if sessionId !in records {
        records := records[sessionId := NewProgress()];
        order := order + [sessionId];
      }
      var user := ApplyAttempt(records[sessionId], level, score, maxScore, mistakes, now, roll, plan, savedAt);
      records := records[sessionId := user];
      var g := GradeAttempt(level, score, roll);
      reply := SubmitReply(g.passed, g.xpGained, user.xp, user.unlockedLevel, score);
    }

    /** `get_mistakes`: one session's stored mistakes, or with "all" every session's, tagged. */
    method GetMistakes(sessionId: string) returns (listed: seq<ListedMistake>)
      requires Valid()
      ensures sessionId == "all" ==> listed == AllMistakes(order, records)
      ensures sessionId != "all" && sessionId !in records ==> listed == []
      ensures sessionId != "all" && sessionId in records ==> listed == Untagged(records[sessionId].mistakes)
    {
      if sessionId == "all" {
        listed := [];
        var i := 0;
        while i < |order|
          invariant 0 <= i <= |order|
          invariant listed == AllMistakes(order[..i], records)
        {
          var sid := order[i];
          var ms := records[sid].mistakes;
          var j := 0;
          while j < |ms|
            invariant 0 <= j <= |ms|
            invariant listed == AllMistakes(order[..i], records) + Tagged(ms[..j], sid)
          {
            assert Tagged(ms[..j + 1], sid) == Tagged(ms[..j], sid) + [ListedMistake(ms[j], Some(sid))];
            listed := listed + [ListedMistake(ms[j], Some(sid))];
            j := j + 1;
          }
          assert ms[..j] == ms;
          assert order[..i + 1][..i] == order[..i];
          i := i + 1;
        }
        assert order[..i] == order;
        return;
      }
      if sessionId !in records {
        return [];
      }
      return Untagged(records[sessionId].mistakes);
    }

    /** `update_mistake_comment`: comment the first mistake with the given question text. */
    method UpdateMistakeComment(sessionId: string, questionText: string, comment: string) returns (found: bool)
      requires Valid()
      modifies this
      ensures Valid() && order == old(order)
      ensures found <==> sessionId in old(records) && HasQuestion(old(records)[sessionId].mistakes, questionText)
      ensures !found ==> records == old(records)
      ensures found ==> var ms := old(records)[sessionId].mistakes;
        exists k: nat :: FirstMatch(ms, questionText, k) &&
          records == old(records)[sessionId := old(records)[sessionId].(mistakes := ms[k := ms[k].(comments := comment)])]
    {
      if sessionId !in records {
        return false;
      }
      var user := records[sessionId];
      var k := FindQuestion(user.mistakes, questionText);
      if k.None? {
        return false;
      }
      var ms := user.mistakes;
      var i := k.value;
      var updated := ms[i := ms[i].(comments := comment)];
      assert forall a :: 0 <= a < |ms| ==> updated[a].question == ms[a].question;
      records := records[sessionId := user.(mistakes := updated)];
      return true;
    }

    /**
      `get_progress`: the record (or the default one) with the chapter status
      and the cooldown applied. The expired-cooldown cleanup is applied to the
      returned copy only; the store itself is not written.
     */
    function GetProgress(sessionId: string, files: seq<ChapterFile>, now: real): (v: ProgressView)
      reads this
      ensures v.totalChapters == |files|
      ensures v.record.xp == RecordOr(records, sessionId).xp
      ensures v.record.unlockedLevel == RecordOr(records, sessionId).unlockedLevel
      ensures v.status == Lagging <==>
        (RecordOr(records, sessionId).chapterIndex < |files| &&
         now > files[RecordOr(records, sessionId).chapterIndex].timestamp + DeadlineSeconds as real)
      ensures v.cooldownRemaining.Some? <==>
        (RecordOr(records, sessionId).retryAvailableAt.Some? && RecordOr(records, sessionId).retryAvailableAt.value > now)
    {
      ViewOf(RecordOr(records, sessionId), files, now)
    }

    /** The plan `generate_assessment` follows for this session's current chapter. */
    function GenerationStepFor(sessionId: string, cached: bool, files: seq<ChapterFile>, context: string): (step: GenerationStep)
      reads this
      ensures step.Generate? ==>
        RecordOr(records, sessionId).chapterIndex < |files| && step.chapter == files[RecordOr(records, sessionId).chapterIndex]
    {
      GenerationPlan(cached, RecordOr(records, sessionId).chapterIndex, files, context)
    }
  }

  /**
    A negative amount passes `spend_xp`'s balance check and credits XP:
    a session that failed once (0 XP) gains 100 XP by "spending" -100.
   */
  method NegativeSpendScenario() returns (asWritten: bool, xpAfter: int, checked: bool)
    ensures asWritten && xpAfter == 100
    ensures !checked
  {
    var plan := RemedialPlan("", "", None);
    var store := new ProgressStore();
    var _ := store.SubmitResult("s", 1, 0, 10, [], 0.0, 0, plan, 0.0);
    asWritten := store.SpendXp("s", -100);
    xpAfter := store.records["s"].xp;
    var fixedStore := new ProgressStore();
    var _ := fixedStore.SubmitResult("s", 1, 0, 10, [], 0.0, 0, plan, 0.0);
    checked := fixedStore.SpendXpChecked("s", -100);
  }
}
