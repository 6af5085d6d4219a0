/**
 * The shape of the notification bodies. Every message the notifier writes is
 * a sequence of blocks separated by a blank line ("\n\n"): paragraphs of
 * lines, and sections made of a heading line followed by body lines. A padded
 * section also carries a newline before and after, which is how the session
 * report and the quick notification splice optional sections into their
 * templates.
 */
module Markdown {
  import opened Wrappers
  import opened JsText

  datatype Block =
    | Para(lines: seq<string>)
    | Section(padded: bool, heading: string, body: seq<string>)

  function RenderBlock(b: Block): string {
    match b
    case Para(lines) => Join(lines, "\n")
    case Section(padded, heading, body) =>
      var s := Join([heading] + body, "\n");
      if padded then "\n" + s + "\n" else s
  }

  function RenderAll(doc: seq<Block>): (r: seq<string>)
    ensures |r| == |doc|
    ensures forall i :: 0 <= i < |doc| ==> r[i] == RenderBlock(doc[i])
  {
    if doc == [] then [] else [RenderBlock(doc[0])] + RenderAll(doc[1..])
  }

  /** The text of a document: its blocks, rendered, separated by blank lines. */
  function Render(doc: seq<Block>): string {
    Join(RenderAll(doc), "\n\n")
  }

  /** A document of one block is that block, and a longer one is its first block, a blank line and the rest. */
  lemma RenderCons(b: Block, rest: seq<Block>)
    ensures Render([b] + rest) == if rest == [] then RenderBlock(b) else RenderBlock(b) + "\n\n" + Render(rest)
  {
    assert ([b] + rest)[0] == b;
    assert ([b] + rest)[1..] == rest;
    var all := RenderAll([b] + rest);
    assert all == [RenderBlock(b)] + RenderAll(rest);
    assert all[1..] == RenderAll(rest);
  }

  /** Two non-empty documents put together render as the first, a blank line, and the second. */
  lemma {:induction false} RenderAppend(a: seq<Block>, b: seq<Block>)
    requires a != [] && b != []
    ensures Render(a + b) == Render(a) + "\n\n" + Render(b)
  {
    assert a + b == [a[0]] + (a[1..] + b);
    RenderCons(a[0], a[1..] + b);
    RenderCons(a[0], a[1..]);
    assert a == [a[0]] + a[1..];
    if a[1..] != [] {
      RenderAppend(a[1..], b);
    }
  }

  /** A document with an optional block spliced between two parts. */
  lemma RenderSplice(a: seq<Block>, middle: seq<Block>, b: seq<Block>)
    requires a != [] && b != [] && |middle| <= 1
    ensures Render(a + middle + b)
            == Render(a) + (if middle == [] then "" else "\n\n" + RenderBlock(middle[0])) + ("\n\n" + Render(b))
  {
    if middle == [] {
      assert a + middle + b == a + b;
      RenderAppend(a, b);
    } else {
      RenderAppend(a + middle, b);
      RenderAppend(a, middle);
      RenderCons(middle[0], []);
      assert middle == [middle[0]] + [];
    }
  }

  /** A non-empty document ends with the text of its last block. */
  lemma {:induction false} RenderEndsWithLast(doc: seq<Block>)
    requires doc != []
    ensures EndsWith(Render(doc), RenderBlock(doc[|doc| - 1]))
  {
    RenderCons(doc[0], doc[1..]);
    assert doc == [doc[0]] + doc[1..];
    if |doc| > 1 {
      RenderEndsWithLast(doc[1..]);
      var last := RenderBlock(doc[|doc| - 1]);
      var r := Render(doc[1..]);
      var whole := RenderBlock(doc[0]) + "\n\n" + r;
      assert whole[|whole| - |last|..] == r[|r| - |last|..];
    }
  }

  /** A non-empty document starts with the text of its first block. */
  lemma RenderStartsWithFirst(doc: seq<Block>)
    requires doc != []
    ensures StartsWith(Render(doc), RenderBlock(doc[0]))
  {
    RenderCons(doc[0], doc[1..]);
    assert doc == [doc[0]] + doc[1..];
  }

  /** A paragraph of one line is that line. */
  lemma ParaText1(a: string)
    ensures RenderBlock(Para([a])) == a
  {
  }

  /** A paragraph of two lines is the lines with a newline between them. */
  lemma ParaText2(a: string, b: string)
    ensures RenderBlock(Para([a, b])) == a + "\n" + b
  {
    Join2(a, b, "\n");
  }

  /** An unpadded section with one body line: the heading, a newline, the line. */
  lemma SectionText1(heading: string, a: string)
    ensures RenderBlock(Section(false, heading, [a])) == heading + "\n" + a
  {
    Join2(heading, a, "\n");
    assert [heading] + [a] == [heading, a];
  }

  /** An unpadded section with two body lines. */
  lemma SectionText2(heading: string, a: string, b: string)
    ensures RenderBlock(Section(false, heading, [a, b])) == heading + "\n" + a + "\n" + b
  {
    Join3(heading, a, b, "\n");
    assert [heading] + [a, b] == [heading, a, b];
  }

  /** The body of the first section with the given heading. */
  function Find(doc: seq<Block>, heading: string): (r: Option<seq<string>>)
    ensures r.Some? ==> exists i :: 0 <= i < |doc| && doc[i].Section? && doc[i].heading == heading && doc[i].body == r.value
    ensures r.None? <==> forall i :: 0 <= i < |doc| && doc[i].Section? ==> doc[i].heading != heading
  {
    if doc == [] then None
    else if doc[0].Section? && doc[0].heading == heading then Some(doc[0].body)
    else
      var r := Find(doc[1..], heading);
      assert forall i :: 1 <= i < |doc| ==> doc[i] == doc[1..][i - 1];
      r
  }

  /** True iff the document has a section under `heading`. */
  predicate HasSection(doc: seq<Block>, heading: string) {
    Find(doc, heading).Some?
  }

  /** A document of one block has a section under `h` iff that block is one. */
  lemma FindSingle(b: Block, h: string)
    ensures Find([b], h) == if b.Section? && b.heading == h then Some(b.body) else None
  {
    assert [b][1..] == [];
  }

  /** Looking a heading up in two documents put together. */
  lemma {:induction false} FindAppend(a: seq<Block>, b: seq<Block>, heading: string)
    ensures Find(a + b, heading) == if Find(a, heading).Some? then Find(a, heading) else Find(b, heading)
  {
    if a == [] {
      assert a + b == b;
    } else {
      assert (a + b)[0] == a[0];
      assert (a + b)[1..] == a[1..] + b;
      FindAppend(a[1..], b, heading);
    }
  }
}
