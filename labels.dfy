/**
 * Option letters: the option at index x of a question is labelled `chr(65 + x)`,
 * positionally; the letter is never stored with the option.
 */
module Labels {
  import opened Wrappers
  import opened Bank

  /** `ord('A')` */
  const FirstLetter := 65

  /** The largest argument Python's `chr` accepts. */
  const MaxCodePoint := 0x10FFFF

  /** The first surrogate code point; every label below it is a Dafny `char`. */
  const SurrogateStart := 0xD800

  /** `chr(65 + i)`, for labels below the surrogate block. */
  function LetterAt(i: nat): (c: char)
    requires FirstLetter + i < SurrogateStart
    ensures c as int == FirstLetter + i
    ensures i < 26 ==> 'A' <= c <= 'Z'
    ensures i == 0 ==> c == 'A'
  {
    (FirstLetter + i) as char
  }

  /** Distinct indices get distinct labels, increasing with the index. */
  lemma LettersIncrease(i: nat, j: nat)
    requires i < j && FirstLetter + j < SurrogateStart
    ensures LetterAt(i) < LetterAt(j)
  {
  }

  /**
   * `chr(65 + i) == v`: true exactly when `v` is the one-character text of
   * code point 65 + i. Bank texts are Dafny strings, which hold no lone
   * surrogate, so a label in the surrogate block never compares equal here.
   */
  predicate LabelIs(v: Value, i: nat)
  {
    v.Text? && |v.s| == 1 && v.s[0] as int == FirstLetter + i
  }

  /** The option index a `correct_answer` names, if it is a single character from 'A' on. */
  function AnswerIndex(v: Value): (r: Option<nat>)
    ensures forall i: nat :: LabelIs(v, i) <==> r == Some(i)
  {
    if v.Text? && |v.s| == 1 && v.s[0] as int >= FirstLetter
    then Some(v.s[0] as int - FirstLetter)
    else None
  }

  /** The letter of index i decodes back to i. */
  lemma LetterRoundTrip(i: nat)
    requires FirstLetter + i < SurrogateStart
    ensures AnswerIndex(Text([LetterAt(i)])) == Some(i)
    ensures LabelIs(Text([LetterAt(i)]), i)
  {
  }

  /** `f"{chr(65+x)}. {options[x]}"`: the radio line of option x. */
  function OptionLine(options: Value, x: nat): (line: string)
    requires x < Len(options) && FirstLetter + x < SurrogateStart
    ensures |line| >= 3 && line[0] == LetterAt(x) && line[1..3] == ". "
    ensures line[3..] == Elements(options)[x]
  {
    [LetterAt(x)] + ". " + Elements(options)[x]
  }

  /** The radio lines for `range(len(options))`, in option order. */
  function OptionLines(options: Value): (lines: seq<string>)
    requires FirstLetter + Len(options) <= SurrogateStart
    ensures |lines| == Len(options)
    ensures forall x :: 0 <= x < |lines| ==> lines[x] == OptionLine(options, x)
  {
    seq(Len(options), x requires 0 <= x < Len(options) => OptionLine(options, x))
  }

  /**
   * The label of each radio line decodes back to its position, so distinct
   * lines carry distinct labels; with at most 26 options they are 'A'..'Z'.
   */
  lemma OptionLabelsDecode(options: Value, x: nat, y: nat)
    requires FirstLetter + Len(options) <= SurrogateStart
    requires x < Len(options) && y < Len(options)
    ensures AnswerIndex(Text([OptionLines(options)[x][0]])) == Some(x)
    ensures x != y ==> OptionLines(options)[x][0] != OptionLines(options)[y][0]
    ensures Len(options) <= 26 ==> 'A' <= OptionLines(options)[x][0] <= 'Z'
  {
    LetterRoundTrip(x);
  }
}
