/** The parts of a streamed reply, and the merge of its fragments into the blocks
    the provider sent. */
module Coalesce {
  import opened Seqs

  datatype Kind = Text | Reasoning | Other

  /** plain says the part carries no data, type or metadata, as a delta's does. */
  datatype Part = Part(kind: Kind, text: string, signature: seq<nat>, plain: bool)

  predicate Mergeable(p: Part)
  {
    p.kind != Other && p.plain
  }

  /** A block still receiving deltas takes p. A signature closes a block. */
  predicate Joins(block: Part, p: Part)
  {
    Mergeable(block) && block.signature == [] && Mergeable(p) && p.kind == block.kind
  }

  function Join(block: Part, p: Part): (r: Part)
  {
    block.(text := block.text + p.text, signature := p.signature)
  }

  function Add(blocks: seq<Part>, p: Part): (r: seq<Part>)
  {
    if blocks != [] && Joins(Last(blocks), p)
    then blocks[|blocks| - 1 := Join(Last(blocks), p)]
    else blocks + [p]
  }

  function Blocks(parts: seq<Part>): (r: seq<Part>)
  {
    if parts == [] then [] else Add(Blocks(parts[..|parts| - 1]), Last(parts))
  }

  /** The blocks so far, with the text of the open one written. */
  function Written(out: seq<Part>, open: int, text: string): (r: seq<Part>)
    requires -1 <= open < |out|
  {
    if open == -1 then out else out[open := out[open].(text := text)]
  }

  /** What the loop knows: a block is open exactly when it can still grow. */
  predicate OpenIs(out: seq<Part>, open: int, text: string)
  {
    && -1 <= open < |out| && (open == -1 ==> text == "")
    && (open >= 0 ==> open == |out| - 1)
    && (out != [] ==> (open >= 0 <==> Mergeable(Last(out)) && Last(out).signature == []))
  }

  lemma WriteNew(out: seq<Part>, open: int, text: string, p: Part)
    requires OpenIs(out, open, text) && !(open >= 0 && Mergeable(p) && p.kind == out[open].kind)
    ensures Written(out, open, text) + [p] == Add(Written(out, open, text), p)
    ensures Written(Written(out, open, text) + [p], |out|, "" + p.text) == Add(Written(out, open, text), p)
  {
    assert "" + p.text == p.text;
    assert out != [] ==> Last(Written(out, open, text)).kind == Last(out).kind;
  }

  /** The merge as one loop, which writes a block's text when the block closes. */
  method CoalesceDeltas(parts: seq<Part>) returns (out: seq<Part>)
    ensures out == Blocks(parts)
  {
    if |parts| < 2 {
      assert |parts| == 1 ==> parts[..0] == [];
      return parts;
    }
    out := [];
    var text := "";
    var open := -1;
    for i := 0 to |parts|
      invariant OpenIs(out, open, text)
      invariant Written(out, open, text) == Blocks(parts[..i])
    {
      assert parts[..i + 1][..i] == parts[..i];
      var part := parts[i];
      var mergeable := (part.kind == Text || part.kind == Reasoning) && part.plain;
      assert Blocks(parts[..i + 1]) == Add(Blocks(parts[..i]), part);
      hide Blocks, Add;
      if open >= 0 && mergeable && part.kind == out[open].kind {
        text := text + part.text;
        out := out[open := out[open].(signature := part.signature)];
      } else {
        WriteNew(out, open, text, part);
        if open >= 0 { out, text, open := out[open := out[open].(text := text)], "", -1; }
        out := out + [part];
        if mergeable {
          open := |out| - 1;
          text := text + part.text;
        }
      }
      if open >= 0 && |out[open].signature| > 0 {
        out, text, open := out[open := out[open].(text := text)], "", -1;
      }
    }
    assert parts[..|parts|] == parts;
    if open >= 0 { out := out[open := out[open].(text := text)]; }
  }

  // ----- what the merge keeps -----

  /** The text of one kind, in order. */
  function TextOf(kind: Kind, parts: seq<Part>): (t: string)
  {
    if parts == [] then "" else
    TextOf(kind, parts[..|parts| - 1]) + if Last(parts).kind == kind then Last(parts).text else ""
  }

  /** The signatures, in order. */
  function Signatures(parts: seq<Part>): (s: seq<seq<nat>>)
  {
    if parts == [] then [] else
    Signatures(parts[..|parts| - 1]) + if Last(parts).signature == [] then [] else [Last(parts).signature]
  }

  /** Two neighbours that are one block. */
  predicate Merged(blocks: seq<Part>)
  {
    forall i :: 0 < i < |blocks| ==> !Joins(blocks[i - 1], blocks[i])
  }

  lemma PushParts(parts: seq<Part>, p: Part)
    ensures forall k :: TextOf(k, parts + [p]) == TextOf(k, parts) + if p.kind == k then p.text else ""
    ensures Signatures(parts + [p]) == Signatures(parts) + if p.signature == [] then [] else [p.signature]
    ensures Blocks(parts + [p]) == Add(Blocks(parts), p)
  {
    assert (parts + [p])[..|parts|] == parts;
  }

  lemma AddKeeps(blocks: seq<Part>, p: Part)
    ensures forall k :: TextOf(k, Add(blocks, p)) == TextOf(k, blocks) + if p.kind == k then p.text else ""
    ensures Signatures(Add(blocks, p)) == Signatures(blocks) + if p.signature == [] then [] else [p.signature]
  {
    PushParts(blocks, p);
    if blocks != [] && Joins(Last(blocks), p) {
      var front, last := blocks[..|blocks| - 1], Last(blocks);
      assert blocks == front + [last] && Add(blocks, p) == front + [Join(last, p)];
      hide TextOf, Signatures, Add;
      PushParts(front, last);
      PushParts(front, Join(last, p));
      TextJoins(front, last, p);
    }
  }

  lemma TextJoins(front: seq<Part>, last: Part, p: Part)
    requires last.kind == p.kind
    ensures forall k ::
      TextOf(k, front + [Join(last, p)]) == TextOf(k, front + [last]) + if p.kind == k then p.text else ""
  {
    hide TextOf, Signatures;
    PushParts(front, last);
    PushParts(front, Join(last, p));
    forall k ensures TextOf(k, front + [Join(last, p)]) ==
      TextOf(k, front + [last]) + if p.kind == k then p.text else ""
    {
      if p.kind == k {
        assert TextOf(k, front) + (last.text + p.text) == (TextOf(k, front) + last.text) + p.text;
      } else {
        assert TextOf(k, front + [last]) + "" == TextOf(k, front + [last]);
      }
    }
  }

  lemma AddMerged(blocks: seq<Part>, p: Part)
    requires Merged(blocks)
    ensures Merged(Add(blocks, p))
  {
  }

  /** The merge keeps the text of each kind and every signature, in order, and no two
      neighbours are left that are one block. */
  lemma {:induction false} MergeKeeps(parts: seq<Part>)
    ensures forall k :: TextOf(k, Blocks(parts)) == TextOf(k, parts)
    ensures Signatures(Blocks(parts)) == Signatures(parts)
    ensures Merged(Blocks(parts))
  {
    if parts != [] {
      var front := parts[..|parts| - 1];
      MergeKeeps(front);
      assert parts == front + [Last(parts)];
      PushParts(front, Last(parts));
      hide TextOf, Signatures, Merged, Add, Blocks;
      AddKeeps(Blocks(front), Last(parts));
      AddMerged(Blocks(front), Last(parts));
    }
  }

  /** Two neighbours become one block exactly when both are text or both reasoning,
      neither carries more than a delta does, and the first is not signed yet. The block
      has the text of both and the signature of the second. */
  lemma TwoParts(a: Part, b: Part)
    ensures var one := a.kind == b.kind != Other && a.plain && b.plain && a.signature == [];
      Blocks([a, b]) == if one then [Part(a.kind, a.text + b.text, b.signature, true)] else [a, b]
  {
    assert [a, b][..1] == [a] && [a][..0] == [];
    assert Blocks([a]) == Add([], a) == [a];
    assert Blocks([a, b]) == Add([a], b);
  }

  // ----- and in what order -----

  /** What a reader of the parts sees, a letter at a time. */
  datatype Token = Letter(kind: Kind, c: char) | Signed(kind: Kind, signature: seq<nat>) | Whole(part: Part)

  function Letters(kind: Kind, text: string): (s: seq<Token>)
  {
    seq(|text|, i requires 0 <= i < |text| => Letter(kind, text[i]))
  }

  function Tokens(p: Part): (s: seq<Token>)
  {
    if !Mergeable(p) then [Whole(p)]
    else Letters(p.kind, p.text) + if p.signature == [] then [] else [Signed(p.kind, p.signature)]
  }

  function Reads(parts: seq<Part>): (s: seq<Token>)
  {
    if parts == [] then [] else Reads(parts[..|parts| - 1]) + Tokens(Last(parts))
  }

  lemma AddReads(blocks: seq<Part>, p: Part)
    ensures Reads(Add(blocks, p)) == Reads(blocks) + Tokens(p)
  {
    if blocks != [] && Joins(Last(blocks), p) {
      var front, last := blocks[..|blocks| - 1], Last(blocks);
      var r := Add(blocks, p);
      assert r[..|r| - 1] == front && Last(r) == Join(last, p);
      assert Letters(p.kind, last.text + p.text) == Letters(p.kind, last.text) + Letters(p.kind, p.text);
      assert Tokens(Join(last, p)) == Tokens(last) + Tokens(p);
    } else {
      assert (blocks + [p])[..|blocks|] == blocks;
    }
  }

  /** The merged parts read exactly as the fragments do. */
  lemma {:induction false} MergeReads(parts: seq<Part>)
    ensures Reads(Blocks(parts)) == Reads(parts)
  {
    if parts != [] {
      MergeReads(parts[..|parts| - 1]);
      AddReads(Blocks(parts[..|parts| - 1]), Last(parts));
    }
  }

  /** What is merged already stays as it is, and nothing else does. */
  lemma {:induction false} MergedStays(blocks: seq<Part>)
    ensures Blocks(blocks) == blocks <==> Merged(blocks)
  {
    MergeKeeps(blocks);
    if Merged(blocks) && blocks != [] {
      MergedStays(blocks[..|blocks| - 1]);
    }
  }

  /** Merging a prefix early changes nothing, so merging twice is merging once. */
  lemma {:induction false} MergeEarly(a: seq<Part>, b: seq<Part>)
    ensures Blocks(Blocks(a) + b) == Blocks(a + b)
  {
    if b == [] {
      MergeKeeps(a);
      MergedStays(Blocks(a));
      assert Blocks(a) + b == Blocks(a) && a + b == a;
    } else {
      MergeEarly(a, b[..|b| - 1]);
      assert (Blocks(a) + b)[..|Blocks(a) + b| - 1] == Blocks(a) + b[..|b| - 1];
      assert (a + b)[..|a + b| - 1] == a + b[..|b| - 1];
    }
  }
}
