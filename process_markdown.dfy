/**
 * The markdown processor (packages/putout/lib/cli/processor/process-markdown.js).
 *
 * `preProcess` collects, in visit order, the fenced code nodes whose
 * language is exactly `js`, `javascript` or `typescript`, each with the
 * fence's start line. `postProcess` walks the same nodes again and assigns
 * the k-th rewritten code to the k-th such node, taking them from a copy of
 * the list. A parsed document is the sequence of its nodes in visit order;
 * parsing and stringifying are collaborators and not part of this model.
 */
module ProcessMarkdown {
  import opened Wrappers
  import opened Places

  /** A markdown node: a code node with its language, content and start
      position, or any other node. */
  datatype MdNode = Code(lang: Option<string>, value: string, line: int, column: int) | Text(content: string)

  /** The markdown library: parse to nodes in visit order, and stringify. */
  datatype Markdown = Markdown(parse: string -> seq<MdNode>, stringify: seq<MdNode> -> string)

  /** The only extension this processor claims. */
  const Extensions: seq<string> := ["md"]

  /** `/^(js|javascript|typescript)$/.test(lang)`; a missing language tests as `"undefined"`. */
  predicate AllowListed(lang: Option<string>) {
    lang.Some? && (lang.value == "js" || lang.value == "javascript" || lang.value == "typescript")
  }

  predicate IsJsCode(n: MdNode) {
    n.Code? && AllowListed(n.lang)
  }

  /** The number of allow-listed code nodes. */
  function CountCodes(nodes: seq<MdNode>): nat
    decreases |nodes|
  {
    if nodes == [] then 0
    else CountCodes(nodes[..|nodes| - 1]) + (if IsJsCode(nodes[|nodes| - 1]) then 1 else 0)
  }

  /** What `preProcess` extracts from the nodes. */
  function Extract(nodes: seq<MdNode>): (list: seq<Segment>)
    ensures |list| == CountCodes(nodes)
    decreases |nodes|
  {
    if nodes == [] then []
    else
      var last := nodes[|nodes| - 1];
      Extract(nodes[..|nodes| - 1]) + (if IsJsCode(last) then [Segment(last.value, last.line)] else [])
  }

  /** Nothing is extracted exactly when no node is an allow-listed code node. */
  lemma {:induction false} ExtractEmptyIff(nodes: seq<MdNode>)
    ensures Extract(nodes) == [] <==> forall i :: 0 <= i < |nodes| ==> !IsJsCode(nodes[i])
    decreases |nodes|
  {
    if nodes != [] {
      var n := |nodes| - 1;
      ExtractEmptyIff(nodes[..n]);
      assert forall i :: 0 <= i < n ==> nodes[..n][i] == nodes[i];
    }
  }

  /** `preProcess`: the visit that pushes one segment per allow-listed code node. */
  method PreProcess(md: Markdown, rawSource: string) returns (list: seq<Segment>)
    ensures list == Extract(md.parse(rawSource))
  {
    var nodes := md.parse(rawSource);
    list := [];
    for i := 0 to |nodes|
      invariant list == Extract(nodes[..i])
    {
      assert nodes[..i + 1][..i] == nodes[..i];
      var node := nodes[i];
      if !(node.Code? && AllowListed(node.lang)) {
        continue;
      }
      list := list + [Segment(node.value, node.line)];
    }
    assert nodes[..|nodes|] == nodes;
  }

  /** The allow-listed code nodes before index `i` are fewer than all of them,
      by one more when node `i` is itself one. */
  lemma {:induction false} CountPrefix(nodes: seq<MdNode>, i: nat)
    requires i <= |nodes|
    ensures CountCodes(nodes[..i]) <= CountCodes(nodes)
    ensures i < |nodes| && IsJsCode(nodes[i]) ==> CountCodes(nodes[..i]) < CountCodes(nodes)
    decreases |nodes| - i
  {
    if i < |nodes| {
      assert nodes[..i + 1][..i] == nodes[..i];
      CountPrefix(nodes, i + 1);
    } else {
      assert nodes[..i] == nodes;
    }
  }

  /** One more node adds one to the count exactly when it is an allow-listed code block. */
  lemma CountStep(nodes: seq<MdNode>, i: nat)
    requires i < |nodes|
    ensures CountCodes(nodes[..i + 1]) == CountCodes(nodes[..i]) + (if IsJsCode(nodes[i]) then 1 else 0)
  {
    assert nodes[..i + 1][..i] == nodes[..i];
  }

  /** The node at index `i` after `postProcess` has assigned from `list`. */
  function RefillAt(nodes: seq<MdNode>, list: seq<string>, i: nat): MdNode
    requires |list| >= CountCodes(nodes) && i < |nodes|
  {
    CountPrefix(nodes, i);
    if IsJsCode(nodes[i]) then nodes[i].(value := list[CountCodes(nodes[..i])]) else nodes[i]
  }

  /** The nodes after `postProcess`: the k-th allow-listed code node holds the k-th
      element of `list`, every other node is as it was. */
  function Refilled(nodes: seq<MdNode>, list: seq<string>): (r: seq<MdNode>)
    requires |list| >= CountCodes(nodes)
    ensures |r| == |nodes|
  {
    seq(|nodes|, i requires 0 <= i < |nodes| => RefillAt(nodes, list, i))
  }

  /** The visit of `postProcess`, assigning `node.value` in place and shifting the queue. */
  method Apply(tree: array<MdNode>, list: seq<string>)
    requires |list| >= CountCodes(tree[..])
    modifies tree
    ensures tree[..] == Refilled(old(tree[..]), list)
  {
    ghost var nodes := tree[..];
    var queue := list;
    for i := 0 to tree.Length
      invariant |list| >= CountCodes(nodes)
      invariant CountCodes(nodes[..i]) <= |list|
      invariant queue == list[CountCodes(nodes[..i])..]
      invariant forall k :: 0 <= k < i ==> tree[k] == RefillAt(nodes, list, k)
      invariant forall k :: i <= k < tree.Length ==> tree[k] == nodes[k]
    {
      CountStep(nodes, i);
      CountPrefix(nodes, i);
      var node := tree[i];
      if !(node.Code? && AllowListed(node.lang)) {
        assert tree[i] == RefillAt(nodes, list, i);
        continue;
      }
      var source := queue[0];
      queue := queue[1..];
      tree[i] := node.(value := source);
      assert tree[i] == RefillAt(nodes, list, i);
    }
    assert tree[..] == Refilled(nodes, list);
  }

  /** `postProcess`: refill a fresh parse of the raw source, then stringify it.
      The caller's list is not changed (it is a value here; the source copies it). */
  method PostProcess(md: Markdown, rawSource: string, list: seq<string>) returns (contents: string)
    requires |list| >= CountCodes(md.parse(rawSource))
    ensures contents == md.stringify(Refilled(md.parse(rawSource), list))
  {
    var nodes := md.parse(rawSource);
    var tree := new MdNode[|nodes|](i requires 0 <= i < |nodes| => nodes[i]);
    assert tree[..] == nodes;
    Apply(tree, list);
    contents := md.stringify(tree[..]);
  }

  // ---- properties ----

  /** The segment of the k-th allow-listed node is its content at its fence line. */
  lemma {:induction false} ExtractAt(nodes: seq<MdNode>, i: nat)
    requires i < |nodes| && IsJsCode(nodes[i])
    ensures CountCodes(nodes[..i]) < |Extract(nodes)|
    ensures Extract(nodes)[CountCodes(nodes[..i])] == Segment(nodes[i].value, nodes[i].line)
    decreases |nodes|
  {
    var n := |nodes| - 1;
    CountPrefix(nodes, i);
    if i < n {
      assert nodes[..n][..i] == nodes[..i];
      ExtractAt(nodes[..n], i);
    } else {
      assert nodes[..i] == nodes[..n];
    }
  }

  /** Only allow-listed code nodes are extracted: every segment is one of them. */
  lemma {:induction false} ExtractOnlyAllowListed(nodes: seq<MdNode>, k: nat)
    requires k < |Extract(nodes)|
    ensures exists i :: 0 <= i < |nodes| && IsJsCode(nodes[i]) && Extract(nodes)[k] == Segment(nodes[i].value, nodes[i].line)
    decreases |nodes|
  {
    var n := |nodes| - 1;
    var pre := nodes[..n];
    if k < |Extract(pre)| {
      ExtractOnlyAllowListed(pre, k);
      var i :| 0 <= i < |pre| && IsJsCode(pre[i]) && Extract(pre)[k] == Segment(pre[i].value, pre[i].line);
      assert nodes[i] == pre[i];
    } else {
      assert IsJsCode(nodes[n]);
    }
  }

  /** The node whose segment `preProcess` put at index k receives the k-th rewritten code. */
  lemma SameOrder(nodes: seq<MdNode>, list: seq<string>, i: nat)
    requires |list| >= CountCodes(nodes) && i < |nodes| && IsJsCode(nodes[i])
    ensures var k := CountCodes(nodes[..i]);
      && k < |Extract(nodes)| && k < |list|
      && Extract(nodes)[k] == Segment(nodes[i].value, nodes[i].line)
      && Refilled(nodes, list)[i] == nodes[i].(value := list[k])
  {
    ExtractAt(nodes, i);
  }

  /** Sources of a segment list. */
  function Sources(list: seq<Segment>): (r: seq<string>)
    ensures |r| == |list| && forall k :: 0 <= k < |list| ==> r[k] == list[k].source
  {
    seq(|list|, k requires 0 <= k < |list| => list[k].source)
  }

  /** Feeding the extracted sources straight back leaves every node unchanged. */
  lemma RoundTrip(nodes: seq<MdNode>)
    ensures Refilled(nodes, Sources(Extract(nodes))) == nodes
  {
    var list := Sources(Extract(nodes));
    forall i | 0 <= i < |nodes|
      ensures Refilled(nodes, list)[i] == nodes[i]
    {
      if IsJsCode(nodes[i]) {
        ExtractAt(nodes, i);
      }
    }
  }

  /** Refilling keeps every node's kind, language and position, and leaves every
      node that is not an allow-listed code node untouched. */
  lemma RefillKeepsShape(nodes: seq<MdNode>, list: seq<string>, i: nat)
    requires |list| >= CountCodes(nodes) && i < |nodes|
    ensures var r := Refilled(nodes, list)[i];
      && (!IsJsCode(nodes[i]) ==> r == nodes[i])
      && (IsJsCode(nodes[i]) ==> r == nodes[i].(value := r.value))
  {
  }

  /** A document without allow-listed code is not changed by refilling. */
  lemma NoCodeIdentity(nodes: seq<MdNode>, list: seq<string>)
    requires CountCodes(nodes) == 0
    ensures Refilled(nodes, list) == nodes
  {
    assert forall i :: 0 <= i < |nodes| ==> !IsJsCode(nodes[i]) by {
      forall i | 0 <= i < |nodes| ensures !IsJsCode(nodes[i]) {
        CountPrefix(nodes, i);
      }
    }
  }
}
