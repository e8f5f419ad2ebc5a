/**
 * The clinical-problem and study-note pages: what a problem reveals when its
 * "Show Answer" button is pressed, and what a note's expander shows.
 */
module Problems {
  import opened Wrappers
  import opened Bank

  /** The bullet written before each key concept. */
  const BulletPrefix := "\U{2022} "

  /** `f"• {concept}"` */
  function Bullet(concept: string): (line: string)
    ensures |line| == |concept| + 2 && line[..2] == BulletPrefix && line[2..] == concept
  {
    BulletPrefix + concept
  }

  /** The key-concept lines, one bullet per concept, in source order. */
  function ConceptLines(concepts: seq<string>): (lines: seq<string>)
    ensures |lines| == |concepts|
    ensures forall k :: 0 <= k < |lines| ==>
      |lines[k]| >= 2 && lines[k][..2] == BulletPrefix && lines[k][2..] == concepts[k]
  {
    if concepts == [] then []
    else [Bullet(concepts[0])] + ConceptLines(concepts[1..])
  }

  /** Reads a concept back from its line: the text after the bullet. */
  function StripBullets(lines: seq<string>): seq<string>
  {
    if lines == [] then []
    else [if |lines[0]| >= 2 && lines[0][..2] == BulletPrefix then lines[0][2..] else lines[0]]
         + StripBullets(lines[1..])
  }

  /** Stripping the bullets gives back the concepts, in order. */
  lemma {:induction false} ConceptLinesRoundTrip(concepts: seq<string>)
    ensures StripBullets(ConceptLines(concepts)) == concepts
  {
    if concepts != [] {
      ConceptLinesRoundTrip(concepts[1..]);
      assert ConceptLines(concepts)[1..] == ConceptLines(concepts[1..]);
    }
  }

  /** A revealed problem: its answer, and the key-concept lines when the item has that key. */
  datatype ProblemView = ProblemView(answer: Value, keyConcepts: Option<seq<string>>)

  /**
   * What pressing "Show Answer" reveals. The page has no "Show Answers" box,
   * so only the button reveals a problem.
   */
  function RevealProblem(p: Item, pressed: bool): (r: Option<ProblemView>)
    ensures r.Some? <==> pressed
    ensures r.Some? ==> r.value.answer == Get(p, "answer", Blank)
    ensures r.Some? ==> (r.value.keyConcepts.Some? <==> "key_concepts" in p)
    ensures r.Some? && "key_concepts" in p ==>
      var lines := r.value.keyConcepts.value;
      && |lines| == Len(p["key_concepts"])
      && forall k :: 0 <= k < |lines| ==>
           |lines[k]| >= 2 && lines[k][..2] == BulletPrefix && lines[k][2..] == Elements(p["key_concepts"])[k]
  {
    if !pressed then None
    else
      var concepts :=
        if "key_concepts" in p then Some(ConceptLines(Elements(Get(p, "key_concepts", TextList([]))))) else None;
      Some(ProblemView(Get(p, "answer", Blank), concepts))
  }

  /** The expander of a study note: `f"📝 {title} - {system}"` over the note's `content`. */
  datatype NoteView = NoteView(title: Value, system: Value, content: Value)

  function NoteEntry(n: Item): (v: NoteView)
    ensures "title" !in n ==> v.title == Blank
    ensures "system" !in n ==> v.system == Blank
    ensures "content" !in n ==> v.content == Blank
    ensures "title" in n ==> v.title == n["title"]
    ensures "system" in n ==> v.system == n["system"]
    ensures "content" in n ==> v.content == n["content"]
  {
    NoteView(Get(n, "title", Blank), Get(n, "system", Blank), Get(n, "content", Blank))
  }
}
