/** The design document as the design tool's REST API returns it, and the two
    walkers over it in src/pages/api/convert.ts: `collectTextNodes` and
    `flattenFrames`. */
module DesignTree {
  import opened Seqs

  datatype Option<T> = None | Some(value: T)

  /** One node of the document. `nodeType` is the API's `type` string
      ("DOCUMENT", "CANVAS", "FRAME", "TEXT", "GROUP", ...); `characters` is
      the text of a TEXT node, the empty string when the field is absent
      (the walker treats both alike); an absent `children` list is `[]`. */
  datatype Node = Node(id: string, name: string, nodeType: string, characters: string, children: seq<Node>)

  const FrameType: string := "FRAME"
  const TextType: string := "TEXT"

  predicate IsFrame(n: Node)
  {
    n.nodeType == FrameType
  }

  /** A node whose `characters` the text walker picks up. */
  predicate HasText(n: Node)
  {
    n.nodeType == TextType && n.characters != ""
  }

  function CharactersOf(n: Node): string
  {
    n.characters
  }

  /** The nodes of the subtree at `n` in depth-first pre-order: the node,
      then each child's subtree in child order. This is the reference order
      both walkers are proved against. */
  function PreOrder(n: Node): (r: seq<Node>)
    ensures |r| >= 1 && r[0] == n
    decreases n, 1
  {
    [n] + PreOrderAll(n.children)
  }

  function PreOrderAll(cs: seq<Node>): seq<Node>
    decreases cs, 0
  {
    if cs == [] then [] else PreOrderAll(cs[..|cs| - 1]) + PreOrder(cs[|cs| - 1])
  }

  /** Pre-order of an optional root: an absent document has no nodes. */
  function PreOrderOf(root: Option<Node>): seq<Node>
  {
    if root.None? then [] else PreOrder(root.value)
  }

  /** The texts below `n`, gathered the way `collectTextNodes` does: the node's
      own `characters` if it is a TEXT node with non-empty characters, then
      the texts of each child in order. The strings are kept as they are. */
  function TextsOf(n: Node): (texts: seq<string>)
    ensures texts == Map(Filter(PreOrder(n), HasText), CharactersOf)
    decreases n, 1
  {
    var r := (if HasText(n) then [n.characters] else []) + TextsOfAll(n.children);
    var own := if HasText(n) then [n] else [];
    FilterHead(n, HasText);
    MapAppend(own, Filter(PreOrderAll(n.children), HasText), CharactersOf);
    assert Map(own, CharactersOf) == if HasText(n) then [n.characters] else [];
    r
  }

  function TextsOfAll(cs: seq<Node>): (texts: seq<string>)
    ensures texts == Map(Filter(PreOrderAll(cs), HasText), CharactersOf)
    decreases cs, 0
  {
    if cs == [] then []
    else
      var init, last := cs[..|cs| - 1], cs[|cs| - 1];
      var r := TextsOfAll(init) + TextsOf(last);
      FilterStep(cs, |cs| - 1, HasText);
      assert cs[..|cs| - 1 + 1] == cs;
      MapAppend(Filter(PreOrderAll(init), HasText), Filter(PreOrder(last), HasText), CharactersOf);
      r
  }

  /** The FRAME nodes of the subtree at `n`, gathered the way
      `flattenFrames` pushes them: the node itself if it is a FRAME, then the
      frames of each child in order. */
  function FramesIn(n: Node): seq<Node>
    decreases n, 1
  {
    (if IsFrame(n) then [n] else []) + FramesInAll(n.children)
  }

  function FramesInAll(cs: seq<Node>): seq<Node>
    decreases cs, 0
  {
    if cs == [] then [] else FramesInAll(cs[..|cs| - 1]) + FramesIn(cs[|cs| - 1])
  }

  /** The frames gathered are the FRAME nodes of the pre-order. */
  lemma {:induction false} FramesInIsFilter(n: Node)
    ensures FramesIn(n) == Filter(PreOrder(n), IsFrame)
    decreases n, 1
  {
    FramesInAllIsFilter(n.children);
    FilterHead(n, IsFrame);
  }

  lemma {:induction false} FramesInAllIsFilter(cs: seq<Node>)
    ensures FramesInAll(cs) == Filter(PreOrderAll(cs), IsFrame)
    decreases cs, 0
  {
    if cs != [] {
      FramesInAllIsFilter(cs[..|cs| - 1]);
      FramesInIsFilter(cs[|cs| - 1]);
      FilterStep(cs, |cs| - 1, IsFrame);
      assert cs[..|cs| - 1 + 1] == cs;
    }
  }

  /** `collectTextNodes(node)`: a null node gives no texts. */
  function CollectTextNodes(node: Option<Node>): (texts: seq<string>)
    ensures texts == Map(Filter(PreOrderOf(node), HasText), CharactersOf)
    ensures forall t :: t in texts ==> t != ""
  {
    var texts := if node.None? then [] else TextsOf(node.value);
    var kept := Filter(PreOrderOf(node), HasText);
    FilterMembers(PreOrderOf(node), HasText);
    assert texts == Map(kept, CharactersOf);
    forall t | t in texts
      ensures t != ""
    {
      var i :| 0 <= i < |texts| && texts[i] == t;
      assert t == CharactersOf(kept[i]);
      assert HasText(kept[i]);
    }
    texts
  }

  /** The caller-owned `frames` array that `flattenFrames` pushes into. */
  class FrameCollector {
    var frames: seq<Node>

    constructor ()
      ensures frames == []
    {
      frames := [];
    }

    /** `flattenFrames(node, frames)`: appends every FRAME node of the subtree,
        in pre-order; a null node appends nothing. */
    method Flatten(node: Option<Node>)
      modifies this
      ensures frames == old(frames) + Filter(PreOrderOf(node), IsFrame)
    {
      if node.Some? {
        FlattenNode(node.value);
        FramesInIsFilter(node.value);
      }
    }

    method FlattenNode(n: Node)
      modifies this
      ensures frames == old(frames) + FramesIn(n)
      decreases n
    {
      if IsFrame(n) {
        frames := frames + [n];
      }
      ghost var before := frames;
      var children := n.children;
      var i := 0;
      assert children[..0] == [];
      while i < |children|
        invariant 0 <= i <= |children|
        invariant frames == before + FramesInAll(children[..i])
      {
        FlattenNode(children[i]);
        assert children[..i + 1][..i] == children[..i];
        i := i + 1;
      }
      assert children[..i] == children;
    }
  }

  /** Filtering a subtree: the root's own contribution, then its children's. */
  lemma FilterHead(n: Node, p: Node -> bool)
    ensures Filter(PreOrder(n), p) == (if p(n) then [n] else []) + Filter(PreOrderAll(n.children), p)
  {
    var rest := PreOrderAll(n.children);
    assert PreOrder(n) == [n] + rest;
    assert Filter([n], p) == (if p(n) then [n] else []) by {
      assert [n][..0] == [];
      assert Filter([n][..0], p) == [];
    }
    FilterAppend([n], rest, p);
  }

  /** Filtering the subtrees of the first i + 1 children extends the result
      for the first i by the (i+1)-th child's subtree. */
  lemma FilterStep(cs: seq<Node>, i: nat, p: Node -> bool)
    requires i < |cs|
    ensures Filter(PreOrderAll(cs[..i + 1]), p) == Filter(PreOrderAll(cs[..i]), p) + Filter(PreOrder(cs[i]), p)
  {
    assert cs[..i + 1][..i] == cs[..i];
    FilterAppend(PreOrderAll(cs[..i]), PreOrder(cs[i]), p);
  }

  /** Every collected node is a FRAME node of the tree, and every FRAME node
      of the tree is collected. */
  lemma FlattenedAreExactlyTheFrames(root: Option<Node>)
    ensures forall m :: m in Filter(PreOrderOf(root), IsFrame) ==> IsFrame(m) && m in PreOrderOf(root)
    ensures forall m :: m in PreOrderOf(root) && IsFrame(m) ==> m in Filter(PreOrderOf(root), IsFrame)
  {
    FilterMembers(PreOrderOf(root), IsFrame);
    forall m | m in PreOrderOf(root) && IsFrame(m)
      ensures m in Filter(PreOrderOf(root), IsFrame)
    {
      FilterKeeps(PreOrderOf(root), IsFrame, m);
    }
  }

  lemma {:induction false} FilterKeeps(s: seq<Node>, p: Node -> bool, m: Node)
    requires m in s && p(m)
    ensures m in Filter(s, p)
    decreases |s|
  {
    if s[|s| - 1] != m {
      assert m in s[..|s| - 1] by {
        var i :| 0 <= i < |s| && s[i] == m;
        assert s[..|s| - 1][i] == m;
      }
      FilterKeeps(s[..|s| - 1], p, m);
    }
  }
}
