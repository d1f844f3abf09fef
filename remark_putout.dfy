/**
 * The remark plugin (packages/remark-putout/lib/putout.js).
 *
 * For each code node whose language contains `js`, `javascript` or
 * `typescript` (an unanchored test), the engine checks the node's content
 * under a virtual file name, with `fix` forced to `false`; an engine error
 * becomes one message, otherwise every place becomes one message, and every
 * message is reported at the code block's start position.
 */
module RemarkPutout {
  import opened Wrappers
  import opened Js
  import opened Places
  import Md = ProcessMarkdown
  import ProcessFile

  type Options = map<string, Value>

  /** A message of the virtual file: its reason and the position it is reported at. */
  datatype Message = Message(reason: string, line: int, column: int)

  /** The collaborators: `parseOptions` and the engine, which are not part of this model. */
  datatype Env = Env(parseOptions: (string, Options) -> Options,
                     engine: (string, Options) -> Result<EngineResult, JsError>)

  /** The virtual file remark hands to the plugin. */
  class VFile {
    var messages: seq<Message>

    constructor ()
      ensures messages == []
    {
      messages := [];
    }

    /** `file.message(reason, position)`, which appends one message. */
    method Report(reason: string, line: int, column: int)
      modifies this
      ensures messages == old(messages) + [Message(reason, line, column)]
    {
      messages := messages + [Message(reason, line, column)];
    }
  }

  /** `sub` occurs somewhere in `s`. */
  function Contains(s: string, sub: string): bool
    decreases |s|
  {
    if |s| < |sub| then false else s[..|sub|] == sub || Contains(s[1..], sub)
  }

  lemma {:induction false} ContainsAt(s: string, sub: string, i: nat)
    requires i + |sub| <= |s| && s[i..i + |sub|] == sub
    ensures Contains(s, sub)
    decreases i
  {
    if i > 0 {
      assert s[1..][i - 1..i - 1 + |sub|] == s[i..i + |sub|];
      ContainsAt(s[1..], sub, i - 1);
    }
  }

  /** `/js|javascript|typescript/.test(lang)`; a missing language tests as
      `"undefined"` or `"null"`, which contain none of them. */
  predicate LangFilter(lang: Option<string>) {
    lang.Some? && (Contains(lang.value, "js") || Contains(lang.value, "javascript") || Contains(lang.value, "typescript"))
  }

  /** The filter is unanchored: any language containing `js` passes, unlike
      the markdown processor's exact allow-list. */
  lemma UnanchoredFilter(prefix: string, suffix: string)
    ensures LangFilter(Some(prefix + "js" + suffix))
    ensures LangFilter(Some("json")) && !Md.AllowListed(Some("json"))
    ensures !LangFilter(Some("ts")) && !LangFilter(None)
  {
    var s := prefix + "js" + suffix;
    assert s[|prefix|..|prefix| + 2] == "js";
    ContainsAt(s, "js", |prefix|);
    assert "json"[..2] == "js";
    assert "ts"[..2][0] != "js"[0];
    assert "ts"[1..] == "s";
  }

  /** `lang === 'typescript' ? '[remark].ts' : '[remark].js'` */
  function VirtualName(lang: Option<string>): (name: string)
    ensures name == "[remark].ts" <==> lang == Some("typescript")
    ensures name == "[remark].ts" || name == "[remark].js"
  {
    if lang == Some("typescript") then "[remark].ts" else "[remark].js"
  }

  /** Under the engine's `/\.tsx?$/` test, a block is checked as TypeScript exactly
      when its language is `typescript`: `ts` and `tsx` blocks are checked as JavaScript. */
  lemma VirtualNameIsTS(lang: Option<string>)
    ensures ProcessFile.IsTS(VirtualName(lang)) <==> lang == Some("typescript")
  {
    var js := "[remark].js";
    var ts := "[remark].ts";
    assert ts[|ts| - 3..] == ".ts";
    assert js[|js| - 3..] != ".ts" by { assert js[|js| - 2] == 'j'; }
    assert js[|js| - 4..] != ".tsx" by { assert js[|js| - 1] == 's'; }
  }

  /** `{...options, fix: false}` */
  function WithoutFix(options: Options): (r: Options)
    ensures "fix" in r && r["fix"] == Bool(false)
    ensures forall k :: k in options && k != "fix" ==> k in r && r[k] == options[k]
    ensures r.Keys == options.Keys + {"fix"}
  {
    options + map["fix" := Bool(false)]
  }

  /** The engine's verdict on one code node: its content under the parsed options. */
  function Check(options: Options, env: Env, node: Md.MdNode): Result<EngineResult, JsError>
    requires node.Code?
  {
    env.engine(node.value, env.parseOptions(VirtualName(node.lang), WithoutFix(options)))
  }

  /** One message per place, each at the block's start. */
  function PlaceMessages(places: seq<Place>, line: int, column: int): seq<Message>
    decreases |places|
  {
    if places == [] then []
    else PlaceMessages(places[..|places| - 1], line, column) + [Message(places[|places| - 1].message, line, column)]
  }

  /** The messages the visitor reports for one node. */
  function NodeMessages(options: Options, env: Env, node: Md.MdNode): seq<Message> {
    if !node.Code? || !LangFilter(node.lang) then []
    else VerdictMessages(Check(options, env, node), node.line, node.column)
  }

  /** An engine error is one message; a result is one message per place. */
  function VerdictMessages(verdict: Result<EngineResult, JsError>, line: int, column: int): seq<Message> {
    match verdict
    case Failure(e) => [Message(e.message, line, column)]
    case Success(result) => PlaceMessages(result.places, line, column)
  }

  /** The `process` visitor for one code node: the loop over the places. */
  method ProcessNode(file: VFile, options: Options, env: Env, node: Md.MdNode)
    modifies file
    ensures file.messages == old(file.messages) + NodeMessages(options, env, node)
  {
    if !node.Code? || !LangFilter(node.lang) {
      return;
    }
    var result := Check(options, env, node);
    if result.Failure? {
      file.Report(result.error.message, node.line, node.column);
      return;
    }
    var places := result.value.places;
    ghost var before := file.messages;
    for i := 0 to |places|
      invariant file.messages == before + PlaceMessages(places[..i], node.line, node.column)
    {
      assert places[..i + 1][..i] == places[..i];
      file.Report(places[i].message, node.line, node.column);
    }
    assert places[..|places|] == places;
  }

  /** Every message of a document, node by node in visit order. */
  function DocumentMessages(options: Options, env: Env, nodes: seq<Md.MdNode>): seq<Message>
    decreases |nodes|
  {
    if nodes == [] then []
    else DocumentMessages(options, env, nodes[..|nodes| - 1]) + NodeMessages(options, env, nodes[|nodes| - 1])
  }

  lemma DocumentMessagesStep(options: Options, env: Env, nodes: seq<Md.MdNode>, i: nat)
    requires i < |nodes|
    ensures DocumentMessages(options, env, nodes[..i + 1])
      == DocumentMessages(options, env, nodes[..i]) + NodeMessages(options, env, nodes[i])
    ensures !nodes[i].Code? ==> NodeMessages(options, env, nodes[i]) == []
  {
    assert nodes[..i + 1][..i] == nodes[..i];
  }

  lemma Associative<T>(a: seq<T>, b: seq<T>, c: seq<T>)
    ensures a + b + c == a + (b + c)
  {
  }

  /** The plugin: `visit(tree, 'code', process(file, options))`. */
  method Plugin(file: VFile, options: Options, env: Env, nodes: seq<Md.MdNode>)
    modifies file
    ensures file.messages == old(file.messages) + DocumentMessages(options, env, nodes)
  {
    ghost var before := file.messages;
    for i := 0 to |nodes|
      invariant file.messages == before + DocumentMessages(options, env, nodes[..i])
    {
      DocumentMessagesStep(options, env, nodes, i);
      ghost var next := NodeMessages(options, env, nodes[i]);
      if nodes[i].Code? {
        ProcessNode(file, options, env, nodes[i]);
      }
      Associative(before, DocumentMessages(options, env, nodes[..i]), next);
    }
    assert nodes[..|nodes|] == nodes;
  }

  // ---- properties ----

  /** One message per place, carrying the place's message, always at the given start. */
  lemma {:induction false} PlaceMessagesSpec(places: seq<Place>, line: int, column: int)
    ensures |PlaceMessages(places, line, column)| == |places|
    ensures forall i :: 0 <= i < |places| ==>
      PlaceMessages(places, line, column)[i] == Message(places[i].message, line, column)
    decreases |places|
  {
    if places != [] {
      PlaceMessagesSpec(places[..|places| - 1], line, column);
    }
  }

  /** An engine error yields exactly one message, the error's, at the block's start. */
  lemma EngineErrorOneMessage(options: Options, env: Env, node: Md.MdNode)
    requires node.Code? && LangFilter(node.lang) && Check(options, env, node).Failure?
    ensures NodeMessages(options, env, node) == [Message(Check(options, env, node).error.message, node.line, node.column)]
  {
  }

  /** Otherwise every place yields one message at the block's start, whatever
      the place's own position. */
  lemma PlacesAtBlockStart(options: Options, env: Env, node: Md.MdNode)
    requires node.Code? && LangFilter(node.lang) && Check(options, env, node).Success?
    ensures var places := Check(options, env, node).value.places;
      var msgs := NodeMessages(options, env, node);
      && |msgs| == |places|
      && forall i :: 0 <= i < |msgs| ==>
           msgs[i].reason == places[i].message && msgs[i].line == node.line && msgs[i].column == node.column
  {
    PlaceMessagesSpec(Check(options, env, node).value.places, node.line, node.column);
  }
}
