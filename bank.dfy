/**
 * The question bank as the app sees it once the JSON document is parsed:
 * four top-level collections of items, each item a dictionary of fields.
 */
module Bank {
  /** A field value of an item: a text, or a list of texts (the options, the key concepts). */
  datatype Value = Text(s: string) | TextList(elems: seq<string>)

  /** One question, problem or note: field name to value. */
  type Item = map<string, Value>

  /** The parsed document: top-level collection name to its items. */
  type Bank = map<string, seq<Item>>

  const McqKey := "mcq"
  const SbaKey := "sba"
  const ProblemsKey := "problems"
  const NotesKey := "shortNotes"

  /** The default of every displayed text field. */
  const Blank := Text("")

  /** `item.get(key, default)` */
  function Get(item: Item, key: string, default: Value): Value
  {
    if key in item then item[key] else default
  }

  /** Python's `len()` of a field value: characters of a text, entries of a list. */
  function Len(v: Value): nat
  {
    match v
    case Text(s) => |s|
    case TextList(elems) => |elems|
  }

  /** What a Python `for` loop over the value yields: one-character texts of a text, entries of a list. */
  function Elements(v: Value): (r: seq<string>)
    ensures |r| == Len(v)
    ensures v.TextList? ==> r == v.elems
    ensures v.Text? ==> forall k :: 0 <= k < |r| ==> r[k] == [v.s[k]]
  {
    match v
    case Text(s) => seq(|s|, k requires 0 <= k < |s| => [s[k]])
    case TextList(elems) => elems
  }

  /** `questions_data.get(key, [])` */
  function Collection(bank: Bank, key: string): seq<Item>
  {
    if key in bank then bank[key] else []
  }

  /** The four figures of the home page. */
  datatype Counts = Counts(mcq: nat, sba: nat, problems: nat, notes: nat)

  function HomeCounts(bank: Bank): (c: Counts)
    ensures McqKey !in bank ==> c.mcq == 0
    ensures SbaKey !in bank ==> c.sba == 0
    ensures ProblemsKey !in bank ==> c.problems == 0
    ensures NotesKey !in bank ==> c.notes == 0
    ensures McqKey in bank ==> c.mcq == |bank[McqKey]|
    ensures SbaKey in bank ==> c.sba == |bank[SbaKey]|
    ensures ProblemsKey in bank ==> c.problems == |bank[ProblemsKey]|
    ensures NotesKey in bank ==> c.notes == |bank[NotesKey]|
  {
    Counts(|Collection(bank, McqKey)|, |Collection(bank, SbaKey)|,
           |Collection(bank, ProblemsKey)|, |Collection(bank, NotesKey)|)
  }
}
