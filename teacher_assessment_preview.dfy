/**
  The teacher's read-only preview of every generated quest, grouped by
  chapter, with collapsible chapters and quests. Expansion is kept as two
  sets: chapter positions, and quest keys "<chapter position>-<level>".
 */
module TeacherAssessmentPreview {
  import opened Wrappers
  import opened Text

  datatype Quest = Quest(level: nat, questions: seq<string>, timerSeconds: int)

  datatype Chapter = Chapter(chapterName: string, chapterIndex: int, quests: seq<Quest>)

  /** `x` removed from `s` when present, added otherwise. */
  function Toggled<T(!new)>(s: set<T>, x: T): (r: set<T>)
    ensures x in r <==> x !in s
    ensures forall y :: y != x ==> (y in r <==> y in s)
  {
    if x in s then s - {x} else s + {x}
  }

  /** Toggling twice restores the set. */
  lemma ToggleTwice<T(!new)>(s: set<T>, x: T)
    ensures Toggled(Toggled(s, x), x) == s
  {
  }

  /** The key of quest `level` of the chapter at `chapter`. */
  function QuestKey(chapter: nat, level: nat): string {
    NatToString(chapter) + "-" + NatToString(level)
  }

  /** Reads a quest key back into its chapter position and level. */
  function ReadQuestKey(k: string): Option<(nat, nat)> {
    match IndexOf(k, '-')
    case None => None
    case Some(i) =>
      if AllDigits(k[..i]) && AllDigits(k[i + 1..]) then Some((ParseNat(k[..i]), ParseNat(k[i + 1..]))) else None
  }

  lemma ReadQuestKeyInverse(chapter: nat, level: nat)
    ensures ReadQuestKey(QuestKey(chapter, level)) == Some((chapter, level))
  {
    var c := NatToString(chapter);
    var l := NatToString(level);
    var k := QuestKey(chapter, level);
    ParseNatToString(chapter);
    ParseNatToString(level);
    assert k == c + ['-'] + l;
    IndexOfAfterDigits(c, '-', l);
    assert k[..|c|] == c;
    assert k[|c| + 1..] == l;
  }

  /** Different quests never share a key. */
  lemma QuestKeyInjective(c1: nat, l1: nat, c2: nat, l2: nat)
    requires QuestKey(c1, l1) == QuestKey(c2, l2)
    ensures c1 == c2 && l1 == l2
  {
    ReadQuestKeyInverse(c1, l1);
    ReadQuestKeyInverse(c2, l2);
  }

  /** Toggling one quest leaves the expansion of every other quest as it was. */
  lemma QuestToggleIsolated(s: set<string>, c: nat, l: nat, c2: nat, l2: nat)
    requires (c2, l2) != (c, l)
    ensures QuestKey(c2, l2) in Toggled(s, QuestKey(c, l)) <==> QuestKey(c2, l2) in s
  {
    if QuestKey(c2, l2) == QuestKey(c, l) {
      QuestKeyInjective(c2, l2, c, l);
    }
  }

  class AssessmentPreview {
    const sessionId: string
    var chapters: seq<Chapter>
    var loading: bool
    var expandedChapters: set<nat>
    var expandedQuests: set<string>

    /** The first chapter starts expanded, no quest does, and the assessments are loading. */
    constructor (sessionId: string)
      ensures this.sessionId == sessionId
      ensures chapters == [] && loading && expandedChapters == {0} && expandedQuests == {}
    {
      this.sessionId := sessionId;
      chapters := [];
      loading := true;
      expandedChapters := {0};
      expandedQuests := {};
    }

    /** The assessments request completes: `None` is a failure, `Some(None)` a reply without chapters. */
    method AssessmentsReceived(reply: Option<Option<seq<Chapter>>>)
      modifies this
      ensures !loading
      ensures chapters == if reply.None? then old(chapters) else reply.value.GetOr([])
      ensures expandedChapters == old(expandedChapters) && expandedQuests == old(expandedQuests)
    {
      if reply.Some? {
        chapters := reply.value.GetOr([]);
      }
      loading := false;
    }

    method ToggleChapter(index: nat)
      modifies this
      ensures expandedChapters == Toggled(old(expandedChapters), index)
      ensures chapters == old(chapters) && loading == old(loading) && expandedQuests == old(expandedQuests)
    {
      var newExpanded := expandedChapters;
      if index in newExpanded {
        newExpanded := newExpanded - {index};
      } else {
        newExpanded := newExpanded + {index};
      }
      expandedChapters := newExpanded;
    }

    method ToggleQuest(chapterIndex: nat, level: nat)
      modifies this
      ensures expandedQuests == Toggled(old(expandedQuests), QuestKey(chapterIndex, level))
      ensures chapters == old(chapters) && loading == old(loading) && expandedChapters == old(expandedChapters)
    {
      var key := QuestKey(chapterIndex, level);
      var newExpanded := expandedQuests;
      if key in newExpanded {
        newExpanded := newExpanded - {key};
      } else {
        newExpanded := newExpanded + {key};
      }
      expandedQuests := newExpanded;
    }
  }
}
