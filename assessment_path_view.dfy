/**
  The quest map of one classroom: three level nodes whose lock, remedial
  and completion badges derive from the progress reply, and the click
  handler that opens either the quiz or the remedial report. The JSON
  fields of the reply may be missing, so they are optional here, and the
  JavaScript defaults (`unlocked_level || 1`, `cooldown_remaining || 0`)
  are written out.
 */
module AssessmentPathView {
  import opened Wrappers
  import S = AssessmentService

  /** The fields of a progress reply the quest map reads. */
  datatype ProgressInfo = ProgressInfo(
    xp: Option<int>,
    unlockedLevel: Option<int>,
    cooldownRemaining: Option<int>,
    remedialPlan: Option<S.RemedialPlan>)

  datatype ClickEffect = OpenRemedial | OpenAssessment(level: int) | NoEffect

  /** The level the nodes are drawn against: `unlocked_level`, or 1 when absent or zero. */
  function EffectiveLevel(p: Option<ProgressInfo>): (l: int)
    ensures p.Some? && p.value.unlockedLevel.Some? && p.value.unlockedLevel.value != 0 ==> l == p.value.unlockedLevel.value
    ensures p.None? || p.value.unlockedLevel.None? || p.value.unlockedLevel.value == 0 ==> l == 1
  {
    if p.Some? && p.value.unlockedLevel.Some? && p.value.unlockedLevel.value != 0 then p.value.unlockedLevel.value else 1
  }

  /** `cooldown_remaining || 0`. */
  function CooldownOrZero(p: Option<ProgressInfo>): int {
    if p.Some? && p.value.cooldownRemaining.Some? then p.value.cooldownRemaining.value else 0
  }

  /** Node `level` of the map is unlocked: level 1 always, the others once the effective level reaches them. */
  predicate NodeUnlocked(p: Option<ProgressInfo>, level: int) {
    level == 1 || EffectiveLevel(p) >= level
  }

  /** Node `level` wears the remedial badge: a cooldown runs and it is the current level. */
  predicate NodeRemedial(p: Option<ProgressInfo>, level: int) {
    CooldownOrZero(p) > 0 && EffectiveLevel(p) == level
  }

  predicate IsCompleted(currentLevel: int, level: int) {
    currentLevel > level
  }

  predicate IsActive(currentLevel: int, level: int) {
    currentLevel == level
  }

  /** The status line under a node: shown only when unlocked and not remedial. */
  function StatusLabel(unlocked: bool, remedial: bool, currentLevel: int, level: int): Option<string> {
    if unlocked && !remedial then Some(if IsCompleted(currentLevel, level) then "Completed" else "Available") else None
  }

  /** `handleLevelClick`, reading the raw `unlocked_level` of the reply. */
  function LevelClick(p: Option<ProgressInfo>, level: int): ClickEffect {
    if p.Some? && p.value.cooldownRemaining.Some? && p.value.cooldownRemaining.value > 0
       && p.value.unlockedLevel == Some(level) then OpenRemedial
    else if p.Some? && p.value.unlockedLevel.Some? && p.value.unlockedLevel.value >= level then OpenAssessment(level)
    else NoEffect
  }

  /** A click on a node: a locked node's button is disabled. */
  function NodeClick(p: Option<ProgressInfo>, level: int): ClickEffect {
    if NodeUnlocked(p, level) then LevelClick(p, level) else NoEffect
  }

  /**
    The click handler: the remedial report when a cooldown runs on the
    clicked level, otherwise the quiz iff progress is known and reaches the
    level, otherwise nothing.
   */
  lemma LevelClickCases(p: Option<ProgressInfo>, level: int)
    ensures LevelClick(p, level) == OpenRemedial <==>
      p.Some? && CooldownOrZero(p) > 0 && p.value.unlockedLevel == Some(level)
    ensures LevelClick(p, level).OpenAssessment? <==>
      && !(p.Some? && CooldownOrZero(p) > 0 && p.value.unlockedLevel == Some(level))
      && p.Some? && p.value.unlockedLevel.Some? && p.value.unlockedLevel.value >= level
    ensures LevelClick(p, level).OpenAssessment? ==> LevelClick(p, level).level == level
  {
  }

  /** Level 1 is always open; levels 2 and 3 open once the effective level reaches them. */
  lemma UnlockedNodes(p: Option<ProgressInfo>)
    ensures NodeUnlocked(p, 1)
    ensures NodeUnlocked(p, 2) <==> EffectiveLevel(p) >= 2
    ensures NodeUnlocked(p, 3) <==> EffectiveLevel(p) >= 3
    ensures NodeUnlocked(p, 3) ==> NodeUnlocked(p, 2)
  {
  }

  /** At most one node is remedial. */
  lemma AtMostOneRemedial(p: Option<ProgressInfo>, a: int, b: int)
    requires NodeRemedial(p, a) && NodeRemedial(p, b)
    ensures a == b
  {
  }

  /** A node is never both completed and active; below the current level it is completed. */
  lemma CompletedActiveExclusive(currentLevel: int, level: int)
    ensures !(IsCompleted(currentLevel, level) && IsActive(currentLevel, level))
    ensures IsCompleted(currentLevel, level) || IsActive(currentLevel, level) <==> level <= currentLevel
  {
  }

  /** "Completed" shows iff the node is unlocked, not remedial and completed; "Available" iff not completed. */
  lemma StatusLabelCases(unlocked: bool, remedial: bool, currentLevel: int, level: int)
    ensures StatusLabel(unlocked, remedial, currentLevel, level) == Some("Completed") <==>
      unlocked && !remedial && IsCompleted(currentLevel, level)
    ensures StatusLabel(unlocked, remedial, currentLevel, level) == Some("Available") <==>
      unlocked && !remedial && !IsCompleted(currentLevel, level)
    ensures remedial ==> StatusLabel(unlocked, remedial, currentLevel, level).None?
  {
  }

  /**
    With a reply from the service (an `unlocked_level` of at least 1), a
    click on a node does what the node shows: the remedial report exactly
    on the remedial node, the quiz exactly on the other unlocked nodes.
   */
  lemma ClickMatchesNodes(p: Option<ProgressInfo>, level: int)
    requires p.Some? && p.value.unlockedLevel.Some? && p.value.unlockedLevel.value >= 1
    ensures NodeClick(p, level) == OpenRemedial <==> NodeUnlocked(p, level) && NodeRemedial(p, level)
    ensures NodeClick(p, level).OpenAssessment? <==> NodeUnlocked(p, level) && !NodeRemedial(p, level) && level <= EffectiveLevel(p)
  {
  }

  /** The fields the map reads from a `get_progress` reply. */
  function InfoOf(v: S.ProgressView): ProgressInfo {
    ProgressInfo(Some(v.record.xp), Some(v.record.unlockedLevel), v.cooldownRemaining, v.record.remedialPlan)
  }

  /**
    A failed attempt at time `t0` marks the node of the level reached as
    remedial during the next 599 seconds when the map is refreshed, and
    clicking it opens the remedial report rather than the quiz. The report
    has a plan to show when the attempt reported mistakes; a failure
    without mistakes and no earlier plan leaves it with none.
   */
  lemma FailedAttemptShowsRemedial(store: S.Progress, level: int, score: int, maxScore: int,
                                   mistakes: seq<S.MistakeRecord>, t0: real, roll: int, plan: S.RemedialPlan,
                                   savedAt: real, files: seq<S.ChapterFile>, now: real)
    requires S.RecordValid(store) && 0 <= roll <= 50 && !S.GradeAttempt(level, score, roll).passed
    requires t0 <= now <= t0 + (S.CooldownSeconds - 1) as real
    ensures var after := S.AfterAttempt(store, level, score, maxScore, mistakes, t0, roll, plan, savedAt);
      var info := Some(InfoOf(S.ViewOf(after, files, now)));
      && NodeRemedial(info, after.unlockedLevel)
      && NodeClick(info, after.unlockedLevel) == OpenRemedial
      && (|mistakes| > 0 ==> info.value.remedialPlan == Some(plan))
      && (|mistakes| == 0 ==> info.value.remedialPlan == store.remedialPlan)
  {
    var after := S.AfterAttempt(store, level, score, maxScore, mistakes, t0, roll, plan, savedAt);
    S.CooldownAfterFailure(after, t0, now);
  }

  /** The quest map's own state. */
  class QuestMap {
    /** The selected classroom, whose id is the session id. */
    const classroom: string
    var progress: Option<ProgressInfo>
    var isModalOpen: bool
    var selectedLevel: Option<int>
    var isRemedialOpen: bool

    constructor (classroom: string)
      ensures this.classroom == classroom
      ensures progress.None? && !isModalOpen && selectedLevel.None? && !isRemedialOpen
    {
      this.classroom := classroom;
      progress := None;
      isModalOpen := false;
      selectedLevel := None;
      isRemedialOpen := false;
    }

    /** The quiz modal is mounted once a level has been selected. */
    predicate AssessmentMounted()
      reads this
    {
      selectedLevel.Some? && selectedLevel.value != 0
    }

    /** The remedial report is shown when it was opened and the progress carries a plan. */
    predicate RemedialShown()
      reads this
    {
      isRemedialOpen && progress.Some? && progress.value.remedialPlan.Some?
    }

    /** A click on node `level`. */
    method LevelClicked(level: int)
      modifies this
      ensures NodeClick(old(progress), level) == OpenRemedial ==>
        isRemedialOpen && isModalOpen == old(isModalOpen) && selectedLevel == old(selectedLevel)
      ensures NodeClick(old(progress), level) == OpenAssessment(level) ==>
        isModalOpen && selectedLevel == Some(level) && isRemedialOpen == old(isRemedialOpen)
      ensures NodeClick(old(progress), level) == NoEffect ==>
        isModalOpen == old(isModalOpen) && selectedLevel == old(selectedLevel) && isRemedialOpen == old(isRemedialOpen)
      ensures progress == old(progress)
    {
      if !NodeUnlocked(progress, level) {
        return;
      }
      if progress.Some? && progress.value.cooldownRemaining.Some? && progress.value.cooldownRemaining.value > 0
         && progress.value.unlockedLevel == Some(level) {
        isRemedialOpen := true;
        return;
      }
      if progress.Some? && progress.value.unlockedLevel.Some? && progress.value.unlockedLevel.value >= level {
        selectedLevel := Some(level);
        isModalOpen := true;
      }
    }

    /**
      `handleQuizComplete`: the quiz modal closes (it stays mounted) and a
      progress refresh is requested for the classroom, returned here.
     */
    method QuizComplete() returns (refreshFor: string)
      modifies this
      ensures !isModalOpen && refreshFor == classroom
      ensures selectedLevel == old(selectedLevel) && progress == old(progress) && isRemedialOpen == old(isRemedialOpen)
    {
      isModalOpen := false;
      refreshFor := classroom;
    }

    /** The quiz modal's close button. */
    method ModalClosed()
      modifies this
      ensures !isModalOpen
      ensures selectedLevel == old(selectedLevel) && progress == old(progress) && isRemedialOpen == old(isRemedialOpen)
    {
      isModalOpen := false;
    }

    method RemedialClosed()
      modifies this
      ensures !isRemedialOpen
      ensures selectedLevel == old(selectedLevel) && progress == old(progress) && isModalOpen == old(isModalOpen)
    {
      isRemedialOpen := false;
    }

    /** A progress request completes; a failure (`None`) keeps what was shown. */
    method ProgressReceived(reply: Option<ProgressInfo>)
      modifies this
      ensures progress == if reply.Some? then reply else old(progress)
      ensures selectedLevel == old(selectedLevel) && isModalOpen == old(isModalOpen) && isRemedialOpen == old(isRemedialOpen)
    {
      if reply.Some? {
        progress := reply;
      }
    }
  }
}
