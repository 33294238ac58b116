/**
  The remedial report shown while a level is locked after a failed
  attempt: a practice question whose options can be picked and checked,
  and the remaining lock time. The component keeps its selection while it
  is closed, so its state lives in `Practice` independently of `isOpen`.
 */
module RemedialModal {
  import opened Wrappers
  import opened Text
  import S = AssessmentService

  /** The practice state: the picked option (`null` is `None`) and the verdict (`null` is `None`). */
  datatype PracticeState = PracticeState(selectedOption: Option<string>, isCorrect: Option<bool>)

  datatype PracticeAction = Pick(option: string) | CheckAnswer

  /** `!selectedOption` is false: an option is picked and it is not the empty string. */
  predicate HasSelection(st: PracticeState) {
    st.selectedOption.Some? && st.selectedOption.value != ""
  }

  /** `handleCheck`: with a selection and a practice question, judge the selection. */
  function CheckStep(plan: S.RemedialPlan, st: PracticeState): PracticeState {
    if !HasSelection(st) || plan.practice.None? then st
    else st.(isCorrect := Some(st.selectedOption == plan.practice.value.correctAnswer))
  }

  /** An option button: ignored once the answer was judged correct, otherwise it selects and clears the verdict. */
  function PickStep(st: PracticeState, option: string): PracticeState {
    if st.isCorrect == Some(true) then st else PracticeState(Some(option), None)
  }

  function ActStep(plan: S.RemedialPlan, st: PracticeState, a: PracticeAction): PracticeState {
    match a
    case Pick(o) => PickStep(st, o)
    case CheckAnswer => CheckStep(plan, st)
  }

  function Replay(plan: S.RemedialPlan, st: PracticeState, actions: seq<PracticeAction>): PracticeState
    decreases |actions|
  {
    if actions == [] then st else ActStep(plan, Replay(plan, st, actions[..|actions| - 1]), actions[|actions| - 1])
  }

  /** "Check Answer" is on screen: a practice question, a selection, and no verdict yet. */
  predicate CheckButtonShown(plan: S.RemedialPlan, st: PracticeState) {
    plan.practice.Some? && HasSelection(st) && st.isCorrect.None?
  }

  /** Every verdict on screen is the verdict on the option currently picked. */
  predicate Judged(plan: S.RemedialPlan, st: PracticeState) {
    st.isCorrect.Some? ==>
      && HasSelection(st) && plan.practice.Some?
      && st.isCorrect.value == (st.selectedOption == plan.practice.value.correctAnswer)
  }

  /** Without a selection or a practice question, checking changes nothing. */
  lemma CheckNeedsSelection(plan: S.RemedialPlan, st: PracticeState)
    requires !HasSelection(st) || plan.practice.None?
    ensures CheckStep(plan, st) == st
  {
  }

  /** Checking sets the verdict to exactly whether the picked option is the expected answer, and hides the button. */
  lemma CheckJudges(plan: S.RemedialPlan, st: PracticeState)
    requires HasSelection(st) && plan.practice.Some?
    ensures CheckStep(plan, st).isCorrect == Some(st.selectedOption == plan.practice.value.correctAnswer)
    ensures CheckStep(plan, st).selectedOption == st.selectedOption
    ensures !CheckButtonShown(plan, CheckStep(plan, st))
  {
  }

  /** Picks and checks keep every shown verdict about the option picked. */
  lemma ActKeepsJudged(plan: S.RemedialPlan, st: PracticeState, a: PracticeAction)
    requires Judged(plan, st)
    ensures Judged(plan, ActStep(plan, st, a))
  {
  }

  /** Once the answer is judged correct, no pick or check changes anything. */
  lemma {:induction false} SolvedStaysSolved(plan: S.RemedialPlan, st: PracticeState, actions: seq<PracticeAction>)
    requires st.isCorrect == Some(true) && Judged(plan, st)
    ensures Replay(plan, st, actions) == st
    decreases |actions|
  {
    if actions != [] {
      SolvedStaysSolved(plan, st, actions[..|actions| - 1]);
    }
  }

  /** Before a correct verdict, a pick selects the option and clears the verdict, showing the button again. */
  lemma PickResets(plan: S.RemedialPlan, st: PracticeState, option: string)
    requires st.isCorrect != Some(true)
    ensures PickStep(st, option) == PracticeState(Some(option), None)
    ensures CheckButtonShown(plan, PickStep(st, option)) <==> plan.practice.Some? && option != ""
  {
  }

  /** `formatTime`: minutes, "m ", seconds, "s". */
  function FormatCountdown(seconds: nat): string {
    NatToString(seconds / 60) + "m " + NatToString(seconds % 60) + "s"
  }

  /** Reads a lock time back into minutes and seconds. */
  function ReadCountdown(t: string): Option<(nat, nat)> {
    match IndexOf(t, 'm')
    case None => None
    case Some(k) =>
      var rest := t[k + 1..];
      if |rest| >= 2 && rest[0] == ' ' && rest[|rest| - 1] == 's'
         && AllDigits(t[..k]) && AllDigits(rest[1..|rest| - 1])
      then Some((ParseNat(t[..k]), ParseNat(rest[1..|rest| - 1])))
      else None
  }

  /** The lock time shows exactly the whole minutes and the remaining seconds. */
  lemma ReadFormatCountdown(seconds: nat)
    ensures ReadCountdown(FormatCountdown(seconds)) == Some((seconds / 60, seconds % 60))
  {
    var mins := NatToString(seconds / 60);
    var secs := NatToString(seconds % 60);
    var t := FormatCountdown(seconds);
    ParseNatToString(seconds / 60);
    ParseNatToString(seconds % 60);
    assert t == mins + ['m'] + (" " + secs + "s");
    IndexOfAfterDigits(mins, 'm', " " + secs + "s");
    assert t[..|mins|] == mins;
    var rest := t[|mins| + 1..];
    assert rest == " " + secs + "s";
    assert rest[1..|rest| - 1] == secs;
  }

  /** The component's practice state, kept across openings. */
  class Practice {
    var plan: S.RemedialPlan
    var selectedOption: Option<string>
    var isCorrect: Option<bool>

    function State(): PracticeState
      reads this
    {
      PracticeState(selectedOption, isCorrect)
    }

    constructor (plan: S.RemedialPlan)
      ensures this.plan == plan && State() == PracticeState(None, None)
    {
      this.plan := plan;
      selectedOption := None;
      isCorrect := None;
    }

    method Check()
      modifies this
      ensures State() == CheckStep(old(plan), old(State())) && plan == old(plan)
    {
      if selectedOption.None? || selectedOption.value == "" || plan.practice.None? {
        return;
      }
      isCorrect := Some(selectedOption == plan.practice.value.correctAnswer);
    }

    method OptionClicked(option: string)
      modifies this
      ensures State() == PickStep(old(State()), option) && plan == old(plan)
    {
      if isCorrect != Some(true) {
        selectedOption := Some(option);
        isCorrect := None;
      }
    }

    /** A progress refresh brings a new plan; the selection and verdict stay as they were. */
    method PlanReceived(newPlan: S.RemedialPlan)
      modifies this
      ensures plan == newPlan && State() == old(State())
    {
      plan := newPlan;
    }
  }
}
