/**
 * Judging a submitted answer on the MCQ and SBA pages, and what the verdict
 * box shows: the headline, the correct letter when the answer is wrong, and
 * the explanation sections, which differ between the two kinds of question.
 */
module Answers {
  import opened Wrappers
  import opened Bank
  import opened Labels

  /** The errors the judging expression can raise. */
  datatype EvalError =
    | NoSelection      // the radio of an empty options list returns None; `65 + None` raises TypeError
    | LabelOutOfRange  // `chr` of a code point above 0x10FFFF raises ValueError

  /** One titled paragraph of the verdict box, e.g. "Explanation" and the item's text. */
  datatype Section = Section(heading: string, body: Value)

  /**
   * The verdict box: "Correct!" or "Incorrect", the correct answer shown only
   * on a wrong answer, then the explanation sections in display order.
   */
  datatype Verdict = Verdict(correct: bool, shownAnswer: Option<Value>, sections: seq<Section>)

  datatype QuestionKind = Mcq | Sba

  /** `question.get("correct_answer", "")` */
  function CorrectAnswer(q: Item): Value
  {
    Get(q, "correct_answer", Blank)
  }

  /**
   * `chr(65 + selected) == correct_answer`: right exactly when the answer
   * names the selected option; fails as Python does without a selection or
   * past the last code point.
   */
  function Judge(q: Item, selected: Option<nat>): (r: Result<bool, EvalError>)
    ensures r.Failure? <==> selected.None? || FirstLetter + selected.value > MaxCodePoint
    ensures selected.None? ==> r == Failure(NoSelection)
    ensures selected.Some? && FirstLetter + selected.value > MaxCodePoint ==> r == Failure(LabelOutOfRange)
    ensures r.Success? ==> (r.value <==> AnswerIndex(CorrectAnswer(q)) == selected)
  {
    match selected
    case None => Failure(NoSelection)
    case Some(i) =>
      if FirstLetter + i > MaxCodePoint then Failure(LabelOutOfRange)
      else Success(LabelIs(CorrectAnswer(q), i))
  }

  /** The MCQ verdict: one `explanation` on both branches, the letter only when wrong. */
  function EvaluateMcq(q: Item, selected: Option<nat>): (r: Result<Verdict, EvalError>)
    ensures r.Failure? <==> selected.None? || FirstLetter + selected.value > MaxCodePoint
    ensures selected.None? ==> r == Failure(NoSelection)
    ensures selected.Some? && FirstLetter + selected.value > MaxCodePoint ==> r == Failure(LabelOutOfRange)
    ensures r.Success? ==> (r.value.correct <==> AnswerIndex(CorrectAnswer(q)) == selected)
    ensures r.Success? ==> (r.value.shownAnswer.None? <==> r.value.correct)
    ensures r.Success? && !r.value.correct ==> r.value.shownAnswer == Some(CorrectAnswer(q))
    ensures r.Success? ==> r.value.sections == [Section("Explanation", Get(q, "explanation", Blank))]
  {
    match Judge(q, selected)
    case Failure(e) => Failure(e)
    case Success(ok) =>
      var explanation := [Section("Explanation", Get(q, "explanation", Blank))];
      if ok then Success(Verdict(true, None, explanation))
      else Success(Verdict(false, Some(CorrectAnswer(q)), explanation))
  }

  /**
   * The SBA verdict: `explanation_correct` alone when right; when wrong the
   * letter, then why the right option is right, then why the others are wrong.
   */
  function EvaluateSba(q: Item, selected: Option<nat>): (r: Result<Verdict, EvalError>)
    ensures r.Failure? <==> selected.None? || FirstLetter + selected.value > MaxCodePoint
    ensures selected.None? ==> r == Failure(NoSelection)
    ensures selected.Some? && FirstLetter + selected.value > MaxCodePoint ==> r == Failure(LabelOutOfRange)
    ensures r.Success? ==> (r.value.correct <==> AnswerIndex(CorrectAnswer(q)) == selected)
    ensures r.Success? && r.value.correct ==>
      r.value.shownAnswer.None? && r.value.sections == [Section("Explanation", Get(q, "explanation_correct", Blank))]
    ensures r.Success? && !r.value.correct ==>
      && r.value.shownAnswer == Some(CorrectAnswer(q))
      && r.value.sections == [Section("Why this is correct", Get(q, "explanation_correct", Blank)),
                              Section("Why others are incorrect", Get(q, "explanation_incorrect", Blank))]
  {
    match Judge(q, selected)
    case Failure(e) => Failure(e)
    case Success(ok) =>
      var why := Get(q, "explanation_correct", Blank);
      if ok then Success(Verdict(true, None, [Section("Explanation", why)]))
      else Success(Verdict(false, Some(CorrectAnswer(q)),
                           [Section("Why this is correct", why),
                            Section("Why others are incorrect", Get(q, "explanation_incorrect", Blank))]))
  }

  function Evaluate(kind: QuestionKind, q: Item, selected: Option<nat>): Result<Verdict, EvalError>
  {
    match kind
    case Mcq => EvaluateMcq(q, selected)
    case Sba => EvaluateSba(q, selected)
  }

  /**
   * The verdict box under a question: shown when its Submit button was
   * pressed or the page's "Show Answers" box is ticked, absent otherwise.
   */
  function AnswerPanel(kind: QuestionKind, q: Item, selected: Option<nat>, pressed: bool, showAnswers: bool)
    : (r: Result<Option<Verdict>, EvalError>)
    ensures !(pressed || showAnswers) ==> r == Success(None)
    ensures pressed || showAnswers ==> (r.Failure? <==> Evaluate(kind, q, selected).Failure?)
    ensures (pressed || showAnswers) && r.Success? ==> r.value == Some(Evaluate(kind, q, selected).value)
    ensures (pressed || showAnswers) && Evaluate(kind, q, selected).Failure? ==>
      r == Failure(Evaluate(kind, q, selected).error)
  {
    if pressed || showAnswers then
      match Evaluate(kind, q, selected)
      case Failure(e) => Failure(e)
      case Success(v) => Success(Some(v))
    else Success(None)
  }

  /** MCQ and SBA pages judge a selection alike; only the explanation differs. */
  lemma {:induction false} KindsJudgeAlike(q: Item, selected: Option<nat>)
    ensures EvaluateMcq(q, selected).Success? <==> EvaluateSba(q, selected).Success?
    ensures EvaluateMcq(q, selected).Success? ==>
      EvaluateMcq(q, selected).value.correct == EvaluateSba(q, selected).value.correct
      && EvaluateMcq(q, selected).value.shownAnswer == EvaluateSba(q, selected).value.shownAnswer
  {
  }

  /** Without a `correct_answer` field every selection is judged incorrect. */
  lemma MissingAnswerNeverCorrect(kind: QuestionKind, q: Item, selected: Option<nat>)
    requires "correct_answer" !in q
    requires Evaluate(kind, q, selected).Success?
    ensures !Evaluate(kind, q, selected).value.correct
    ensures Evaluate(kind, q, selected).value.shownAnswer == Some(Blank)
  {
  }

  /** No two selections of one question are both judged correct. */
  lemma AtMostOneSelectionCorrect(kind: QuestionKind, q: Item, i: nat, j: nat)
    requires i != j
    requires Evaluate(kind, q, Some(i)).Success? && Evaluate(kind, q, Some(j)).Success?
    ensures !(Evaluate(kind, q, Some(i)).value.correct && Evaluate(kind, q, Some(j)).value.correct)
  {
  }

  /** When `correct_answer` is the letter of option k, selecting option i is right exactly when i == k. */
  lemma NamedOptionIsTheCorrectOne(kind: QuestionKind, q: Item, k: nat, i: nat)
    requires FirstLetter + k < SurrogateStart && FirstLetter + i < SurrogateStart
    requires CorrectAnswer(q) == Text([LetterAt(k)])
    ensures Evaluate(kind, q, Some(i)).Success?
    ensures Evaluate(kind, q, Some(i)).value.correct <==> i == k
  {
    LetterRoundTrip(k);
  }

  /** Options A1..D1 with answer "B": option 1 is right, option 0 is wrong and shows "B". */
  lemma McqScenario(explanation: string)
    ensures var q := map["options" := TextList(["A1", "B1", "C1", "D1"]),
                         "correct_answer" := Text("B"), "explanation" := Text(explanation)];
      && EvaluateMcq(q, Some(1)) == Success(Verdict(true, None, [Section("Explanation", Text(explanation))]))
      && EvaluateMcq(q, Some(0)) == Success(Verdict(false, Some(Text("B")), [Section("Explanation", Text(explanation))]))
  {
  }

  /** The MCQ explanation does not depend on the selection or on the verdict. */
  lemma McqExplanationIgnoresSelection(q: Item, i: Option<nat>, j: Option<nat>)
    requires EvaluateMcq(q, i).Success? && EvaluateMcq(q, j).Success?
    ensures EvaluateMcq(q, i).value.sections == EvaluateMcq(q, j).value.sections
  {
  }

  /**
   * A wrong SBA answer shows the same rationale as a right one, and adds the
   * rationale against the other options after it.
   */
  lemma SbaWrongExtendsRight(q: Item, right: nat, wrong: nat)
    requires EvaluateSba(q, Some(right)).Success? && EvaluateSba(q, Some(right)).value.correct
    requires EvaluateSba(q, Some(wrong)).Success? && !EvaluateSba(q, Some(wrong)).value.correct
    ensures var r, w := EvaluateSba(q, Some(right)).value.sections, EvaluateSba(q, Some(wrong)).value.sections;
      |r| == 1 && |w| == 2 && w[0].body == r[0].body
      && w[1].body == Get(q, "explanation_incorrect", Blank)
  {
  }

  /** A ticked "Show Answers" reveals every verdict, pressed or not. */
  lemma ShowAnswersRevealsAll(kind: QuestionKind, q: Item, selected: Option<nat>, pressed: bool)
    requires Evaluate(kind, q, selected).Success?
    ensures AnswerPanel(kind, q, selected, pressed, true) == Success(Some(Evaluate(kind, q, selected).value))
  {
  }
}
