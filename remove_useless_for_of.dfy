/**
 * The `remove-useless-for-of` rule
 * (packages/plugin-remove-useless-for-of/lib/remove-useless-for-of.js).
 *
 * Template: `for (const __a of __array) __c`. The guard rejects an array
 * literal with two or more elements, a binding that is not a plain
 * identifier, and a binding referenced twice or more. The rewrite deletes
 * the loop when the array is empty; otherwise it replaces the single
 * reference (if any) by the single element and the loop by its body.
 *
 * Syntax trees are uniform nodes; a path is a list of child indices.
 * Scope facts (the binding's reference count and reference sites, paths
 * relative to the loop) are given, as the parser's scope analysis supplies them.
 */
module RemoveUselessForOf {
  import opened Wrappers
  import opened Js

  datatype Kind =
    | Identifier
    | ArrayExpression
    | ObjectPattern
    | ForOfStatement
    | CallExpression
    | MemberExpression
    | ExpressionStatement
    | BlockStatement

  /** A syntax node. `name` is an identifier's name, a member's property, or
      the declaration kind (`const`, `let`, `var`) of a for-of loop, whose
      children are the binding, the iterated expression and the body. */
  datatype Node = Node(kind: Kind, name: string, children: seq<Node>)

  type Path = seq<nat>

  /** The scope information of one binding. */
  datatype Binding = Binding(references: nat, referencePaths: seq<Path>)

  type Scope = map<string, Binding>

  /** The capture bindings of the template. */
  datatype Captures = Captures(a: Node, arr: Node, c: Node)

  /** What `replace` returns: `''` (delete the loop), or the node the loop becomes. */
  datatype Replacement = Remove | ReplaceWith(node: Node)

  const Message := "Avoid useless for-of"

  /** `report`: the message is the same for every place. */
  function Report(): (m: string)
    ensures m == Message
  {
    "Avoid useless for-of"
  }

  /** Matching the template: a `const` for-of loop over an array literal
      (the `__array` placeholder stands for any array expression). */
  function Capture(n: Node): (caps: Option<Captures>)
    ensures caps.Some? <==>
              n.kind == ForOfStatement && n.name == "const" && |n.children| == 3 && n.children[1].kind == ArrayExpression
    ensures caps.Some? ==> caps.value == Captures(n.children[0], n.children[1], n.children[2])
  {
    if n.kind == ForOfStatement && n.name == "const" && |n.children| == 3 && n.children[1].kind == ArrayExpression
    then Some(Captures(n.children[0], n.children[1], n.children[2]))
    else None
  }

  const MissingBinding := TypeError("Cannot read property 'references' of undefined")

  /** The `match` guard. Reading the scope for a name it does not know throws. */
  function Guard(caps: Captures, scope: Scope): Result<bool, JsError> {
    if |caps.arr.children| >= 2 then Success(false)
    else if caps.a.kind != Identifier then Success(false)
    else if caps.a.name !in scope then Failure(MissingBinding)
    else if scope[caps.a.name].references >= 2 then Success(false)
    else Success(true)
  }

  /** The guard accepts exactly when the array has at most one element, the
      binding is an identifier, and the binding has at most one reference;
      each of the three conditions on its own makes it reject. */
  lemma GuardSpec(caps: Captures, scope: Scope)
    ensures Guard(caps, scope) == Success(true) <==>
      |caps.arr.children| < 2 && caps.a.kind == Identifier && caps.a.name in scope
      && scope[caps.a.name].references < 2
    ensures |caps.arr.children| >= 2 ==> Guard(caps, scope) == Success(false)
    ensures caps.a.kind != Identifier ==> Guard(caps, scope) == Success(false)
    ensures caps.a.kind == Identifier && caps.a.name in scope && scope[caps.a.name].references >= 2
      ==> Guard(caps, scope) == Success(false)
  {
  }

  // ---- paths into a tree ----

  function NodeAt(t: Node, p: Path): Option<Node>
    decreases |p|
  {
    if p == [] then Some(t)
    else if p[0] < |t.children| then NodeAt(t.children[p[0]], p[1..])
    else None
  }

  /** `replaceWith(path, node)`: the tree with the node at `p` replaced; `None` if there is none. */
  function ReplaceAt(t: Node, p: Path, n: Node): Option<Node>
    decreases |p|
  {
    if p == [] then Some(n)
    else if p[0] < |t.children| then
      match ReplaceAt(t.children[p[0]], p[1..], n)
      case None => None
      case Some(c) => Some(t.(children := t.children[p[0] := c]))
    else None
  }

  /** Replacing at a path succeeds exactly on a valid path, and afterwards that path holds the new node. */
  lemma {:induction false} ReplaceAtThenNodeAt(t: Node, p: Path, n: Node)
    ensures ReplaceAt(t, p, n).Some? <==> NodeAt(t, p).Some?
    ensures ReplaceAt(t, p, n).Some? ==> NodeAt(ReplaceAt(t, p, n).value, p) == Some(n)
    decreases |p|
  {
    if p != [] && p[0] < |t.children| {
      ReplaceAtThenNodeAt(t.children[p[0]], p[1..], n);
    }
  }

  const InvalidPath := TypeError("Cannot read property 'replaceWith' of undefined")

  /** The `replace` function. `loop` is the matched loop and `caps` its captures. */
  function Replace(loop: Node, caps: Captures, scope: Scope): Result<Replacement, JsError> {
    if |caps.arr.children| == 0 then Success(Remove)
    else if caps.a.name !in scope then Failure(MissingBinding)
    else
      var b := scope[caps.a.name];
      if b.references == 0 then Success(ReplaceWith(caps.c))
      else if |b.referencePaths| == 0 then Failure(InvalidPath)
      else
        var el := caps.arr.children[0];
        match ReplaceAt(loop, b.referencePaths[0], el)
        case None => Failure(InvalidPath)
        case Some(rewritten) =>
          if |rewritten.children| == 3 then Success(ReplaceWith(rewritten.children[2]))
          else Failure(InvalidPath)
  }

  /** An empty array deletes the whole loop; the body is not kept. */
  lemma ReplaceEmpty(loop: Node, scope: Scope)
    requires Capture(loop).Some? && |loop.children[1].children| == 0
    ensures Replace(loop, Capture(loop).value, scope) == Success(Remove)
  {
  }

  /** One element and no reference: the loop becomes its body. */
  lemma ReplaceNoReference(loop: Node, scope: Scope)
    requires Capture(loop).Some? && |loop.children[1].children| == 1
    requires Guard(Capture(loop).value, scope) == Success(true)
    requires scope[loop.children[0].name].references == 0
    ensures Replace(loop, Capture(loop).value, scope) == Success(ReplaceWith(loop.children[2]))
  {
  }

  /** One element and one reference inside the body: the loop becomes its body
      with that reference site holding the element, and nothing else of the body changed. */
  lemma ReplaceOneReference(loop: Node, scope: Scope, site: Path)
    requires Capture(loop).Some? && |loop.children[1].children| == 1
    requires Guard(Capture(loop).value, scope) == Success(true)
    requires scope[loop.children[0].name].references == 1
    requires scope[loop.children[0].name].referencePaths == [[2] + site]
    requires NodeAt(loop.children[2], site).Some?
    ensures var r := Replace(loop, Capture(loop).value, scope);
      && r.Success? && r.value.ReplaceWith?
      && Some(r.value.node) == ReplaceAt(loop.children[2], site, loop.children[1].children[0])
      && NodeAt(r.value.node, site) == Some(loop.children[1].children[0])
  {
    var el := loop.children[1].children[0];
    var p := [2] + site;
    assert p[1..] == site;
    ReplaceAtThenNodeAt(loop.children[2], site, el);
  }

  // ---- the scenarios of the rule's documentation and tests ----

  function Ident(n: string): Node { Node(Identifier, n, []) }

  /** `console.log(arg);` */
  function ConsoleLog(arg: Node): Node {
    Node(ExpressionStatement, "", [Node(CallExpression, "", [Node(MemberExpression, "log", [Ident("console")]), arg])])
  }

  /** `for (const item of [x]) console.log(item);` becomes `console.log(x);`. */
  lemma OneElementScenario()
    ensures var loop := Node(ForOfStatement, "const", [Ident("item"), Node(ArrayExpression, "", [Ident("x")]), ConsoleLog(Ident("item"))]);
      var scope := map["item" := Binding(1, [[2, 0, 1]])];
      && Guard(Capture(loop).value, scope) == Success(true)
      && Replace(loop, Capture(loop).value, scope) == Success(ReplaceWith(ConsoleLog(Ident("x"))))
  {
    var loop := Node(ForOfStatement, "const", [Ident("item"), Node(ArrayExpression, "", [Ident("x")]), ConsoleLog(Ident("item"))]);
    var scope := map["item" := Binding(1, [[2, 0, 1]])];
    var body := loop.children[2];
    var call := body.children[0];
    var call' := call.(children := call.children[1 := Ident("x")]);
    assert call.children[1 := Ident("x")] == [Node(MemberExpression, "log", [Ident("console")]), Ident("x")];
    assert [2, 0, 1][1..] == [0, 1] && [0, 1][1..] == [1] && [1][1..] == [];
    assert ReplaceAt(call, [1], Ident("x")) == Some(call');
    assert body.children[0 := call'] == [call'];
    assert ReplaceAt(body, [0, 1], Ident("x")) == Some(body.(children := body.children[0 := call']));
    assert body.(children := [call']) == ConsoleLog(Ident("x"));
  }

  /** `for (const item of [x, y]) console.log(item);` is left alone. */
  lemma TwoElementsScenario()
    ensures var loop := Node(ForOfStatement, "const", [Ident("item"), Node(ArrayExpression, "", [Ident("x"), Ident("y")]), ConsoleLog(Ident("item"))]);
      Guard(Capture(loop).value, map["item" := Binding(1, [[2, 0, 1]])]) == Success(false)
  {
  }
}
