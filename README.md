# Reproductive & Renal Pathology quiz: model of the question logic

The app is a Streamlit study tool. It renders four collections from one question bank: multiple-choice
questions (MCQ), single-best-answer questions (SBA), clinical problems and study notes. Beneath the
page markup it has three pieces of logic:

- a **system filter**: "All", "Renal" or "Reproductive", applied to every collection;
- the **answer judgement**: the option at index x is labelled `chr(65 + x)`, the label is compared
  with the item's `correct_answer`, and a verdict box is assembled, differently for MCQ and SBA;
- the **field defaults and reveal rules**: `dict.get(key, default)` on every shown field, key
  concepts only when the key exists, and a count of 0 for a missing collection.

This project models that logic as pure Dafny functions, with lemmas about them.

- `wrappers.dfy` defines `Option` and `Result`.
- `bank.dfy` defines the bank.
  - An item is a map from field name to `Value`, where a value is a text or a list of texts.
  - The bank is a map from collection name to its items.
  - `Get` is `dict.get`.
  - `Len` and `Elements` give Python's `len()` and iteration of a value. A text iterates as
    one-character texts.
- `system_filter.dfy` holds the filter and the page listing: the count, or the "none found" warning.
  It also holds the numbered question headings.
- `labels.dfy` holds the option letters, the radio lines `A. …`, and the decoding of a
  `correct_answer` back to an option index.
- `answers.dfy` holds the MCQ and SBA verdicts and the Submit / "Show Answers" reveal.
- `problems.dfy` holds the clinical-problem reveal, with its bulleted key concepts, and the
  study-note expander.

The radio's selection is an input, `Option<nat>`. For an empty options list the widget returns
`None`, so `chr(65 + None)` raises TypeError. That case is the `NoSelection` error. A selection whose
code point exceeds `0x10FFFF` makes `chr` raise ValueError, which is `LabelOutOfRange`. In the
app that error cannot actually arise at the judgement: the radio renders every option through its
label function (line 208 of app.py), so an options list long enough to allow such a selection
raises the same ValueError while the radio is drawn, before the button is read. The
judgement compares code points, so it is total over the other selections.

Two behaviours of the code a reader might not expect:

- A problem without `key_concepts` shows no key-concept section at all (`None`). It does not show an
  empty list.
- The clinical-problem page has no "Show Answers" box. Only its button reveals a problem.

## Model

| member | source | states |
|---|---|---|
| Bank.Elements | reproductive-renal-pathology-app/app.py:326 | iterating a value yields its list entries, or the one-character texts of a text; as many as `len()` |
| Bank.HomeCounts | reproductive-renal-pathology-app/app.py:104-110 | each home-page figure is the length of its collection, 0 when the top-level key is missing |
| SystemFilter.Keep | reproductive-renal-pathology-app/app.py:189 | the comprehension's result holds only matching items of the input, no more of any item than the input has, and is no longer |
| SystemFilter.FilterBySystem | reproductive-renal-pathology-app/app.py:186-189 | "All" leaves the collection exactly as it is; any other selector keeps only items whose `system` is that text, without adding or duplicating any item |
| SystemFilter.KeepConcat | reproductive-renal-pathology-app/app.py:189 | filtering a concatenation is concatenating the filtered parts: each item is decided on its own, in order |
| SystemFilter.KeepComplete | reproductive-renal-pathology-app/app.py:189 | every matching item of the input survives the filter |
| SystemFilter.KeepIdempotent | reproductive-renal-pathology-app/app.py:250 | filtering an already filtered list changes nothing |
| SystemFilter.FilterIdempotent | reproductive-renal-pathology-app/app.py:304-305 | applying the page filter twice with one selector equals applying it once |
| SystemFilter.MissingSystemDropped | reproductive-renal-pathology-app/app.py:305 | an item without a `system` field is dropped by every selector except "All", since None never equals a string |
| SystemFilter.PositionsFromMatch | reproductive-renal-pathology-app/app.py:343 | the match positions lie in range, strictly increase, and a position is among them exactly when its item's `system` equals the selector |
| SystemFilter.PositionsFromSelect | reproductive-renal-pathology-app/app.py:343 | the filtered list is, element by element, the items at the match positions |
| SystemFilter.FilterSelectsMatchesInOrder | reproductive-renal-pathology-app/app.py:342-343 | the k-th item shown is the item at the k-th matching position; positions increase, so the original relative order is kept |
| SystemFilter.DistinctSelectorsDisjoint | reproductive-renal-pathology-app/app.py:249-250 | no item is listed under two different systems |
| SystemFilter.SystemsPartition | reproductive-renal-pathology-app/app.py:176-189 | when every item is tagged Renal or Reproductive, the two system views together list every item exactly once by count |
| SystemFilter.ListPage | reproductive-renal-pathology-app/app.py:191-194 | the warning appears exactly when the filtered list is empty; otherwise the reported count is its positive length |
| SystemFilter.ListedCountIsMatchCount | reproductive-renal-pathology-app/app.py:186-194 | the count a page reports is the number of matching items; with "All" it equals the home-page figure of that collection |
| SystemFilter.Headings | reproductive-renal-pathology-app/app.py:197-202 | the listed questions are numbered from 1 in filtered order, with `system` defaulting to "Unknown" and `question` to "" |
| SystemFilter.FilteredHeadingsNameSelector | reproductive-renal-pathology-app/app.py:313-317 | under a real selector every listed heading shows that system, never "Unknown" |
| Labels.LetterAt | reproductive-renal-pathology-app/app.py:208 | the label of index i is the character with code point 65 + i: 'A' for 0, and within 'A'..'Z' below 26 |
| Labels.LettersIncrease | reproductive-renal-pathology-app/app.py:207-208 | labels strictly increase with the index, so distinct options get distinct labels |
| Labels.AnswerIndex | reproductive-renal-pathology-app/app.py:213-216 | decoding a `correct_answer` gives index i exactly when `chr(65 + i)` equals it; at most one index does |
| Labels.LetterRoundTrip | reproductive-renal-pathology-app/app.py:214-216 | the label of index i decodes back to i and compares equal to the one-letter answer |
| Labels.OptionLine | reproductive-renal-pathology-app/app.py:208 | a radio line is the option's letter, ". ", then the option text |
| Labels.OptionLines | reproductive-renal-pathology-app/app.py:204-208 | one radio line per option of `range(len(options))`, in option order |
| Labels.OptionLabelsDecode | reproductive-renal-pathology-app/app.py:265-269 | the letter of each radio line decodes to its position; lines of distinct options have distinct letters, all in 'A'..'Z' for at most 26 options |
| Answers.Judge | reproductive-renal-pathology-app/app.py:213-216 | the answer is right exactly when `correct_answer` names the selected option; no selection fails with `NoSelection` (TypeError) and a code point past 0x10FFFF fails with `LabelOutOfRange` (ValueError) |
| Answers.EvaluateMcq | reproductive-renal-pathology-app/app.py:213-225 | correct iff the letters match; the correct answer is shown exactly when wrong; both branches show the one `explanation` (default "") |
| Answers.EvaluateSba | reproductive-renal-pathology-app/app.py:274-286 | right: only `explanation_correct`, no letter shown; wrong: the letter, then `explanation_correct`, then `explanation_incorrect`, each defaulting to "" |
| Answers.AnswerPanel | reproductive-renal-pathology-app/app.py:212 | the verdict is shown exactly when Submit was pressed or "Show Answers" is ticked, and a judging error then propagates unchanged; otherwise nothing is shown and no error is raised |
| Answers.KindsJudgeAlike | reproductive-renal-pathology-app/app.py:274-277 | MCQ and SBA judge a selection identically and show the same correct answer; only the explanations differ |
| Answers.MissingAnswerNeverCorrect | reproductive-renal-pathology-app/app.py:213 | without `correct_answer` every selection is incorrect and the shown answer is "" |
| Answers.AtMostOneSelectionCorrect | reproductive-renal-pathology-app/app.py:214-216 | no two different selections of one question are both judged correct |
| Answers.NamedOptionIsTheCorrectOne | reproductive-renal-pathology-app/app.py:275-277 | when `correct_answer` is option k's letter, selecting i succeeds and is right exactly when i == k |
| Answers.McqScenario | reproductive-renal-pathology-app/app.py:213-225 | options A1..D1 with answer "B": option 1 is "Correct" with the explanation; option 0 is "Incorrect", shows "B" and the same explanation |
| Answers.McqExplanationIgnoresSelection | reproductive-renal-pathology-app/app.py:217-225 | the MCQ explanation is the same whatever the selection and verdict |
| Answers.SbaWrongExtendsRight | reproductive-renal-pathology-app/app.py:277-286 | a wrong SBA answer shows the same rationale as a right one, then adds `explanation_incorrect` after it |
| Answers.ShowAnswersRevealsAll | reproductive-renal-pathology-app/app.py:273 | a ticked "Show Answers" reveals every verdict, whether or not its button was pressed |
| Problems.Bullet | reproductive-renal-pathology-app/app.py:327 | a concept line is the bullet and a space, followed by the concept unchanged |
| Problems.ConceptLines | reproductive-renal-pathology-app/app.py:326-327 | one bulleted line per concept, in source order |
| Problems.ConceptLinesRoundTrip | reproductive-renal-pathology-app/app.py:326-327 | stripping the bullets gives back exactly the concepts, in order |
| Problems.RevealProblem | reproductive-renal-pathology-app/app.py:320-327 | only the button reveals a problem; the answer defaults to ""; key concepts appear exactly when the key is present, one bullet per element in order |
| Problems.NoteEntry | reproductive-renal-pathology-app/app.py:349-352 | a note shows its title, system and content, each defaulting to "" when missing |

## Left out

- Loading `questions_database.json` and `@st.cache_data` are not modelled: this is file I/O and
  framework caching. The bank is an already parsed input.
- The `st.session_state` initialisation is not modelled: its variables are never read.
- The page router, the CSS, the HTML strings and the static Home/About text are not modelled. They
  are rendering only. Verdict sections keep the field values, not the HTML text.
- Buttons, the "Show Answers" checkbox and the radio are inputs. Widget keys are not modelled. That
  includes the duplicate key that two items without `id` produce.
- Field values are modelled as texts or lists of texts. Numbers, booleans, null and nested objects
  would make Python display their `str()` or raise TypeError in `len()` or in iteration; they are
  not modelled.
- Items that are not objects, and collections that are not arrays, are not modelled. Such values
  either raise (in `.get`, in `len()`, or when the filter iterates them) or, when empty or null,
  lead to the "none found" warning or a 0 home-page figure.
- Labels.LetterAt: requires the code point 65 + i to be below 0xD800. A Dafny `char` cannot hold a
  lone surrogate, and only option lists of more than 55,000 entries reach that range. The judgement
  itself has no such bound.
- Labels.OptionLine: has the same bound as LetterAt, for the same reason.
- Labels.OptionLines: has the same bound as LetterAt, for the same reason.
- Bank texts that contain lone surrogates (JSON escapes such as `\ud800`) are not modelled: a Dafny
  string cannot hold them. For such a text, and only with 55,232 or more options, Python can judge a
  surrogate label correct where `LabelIs` says false.
- The page-level effect of a judging error is not modelled. The TypeError or ValueError raised at
  lines 214 and 275 of app.py is not caught, so it ends the page run at that question. With
  "Show Answers" ticked, one question without options hides every later question and its verdict.
  The model returns the error for that question alone (`AnswerPanel`), and says nothing about the
  questions after it.
