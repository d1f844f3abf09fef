/**
 * Processor dispatch (packages/putout/lib/cli/processor/index.js).
 *
 * Every processor whose extensions contain the file's extension (without
 * its dot) runs in turn: its `preProcess` splits the raw source into
 * segments, each segment is processed in order, the places are
 * concatenated, and its `postProcess` receives the processed codes. The
 * JavaScript processor yields the whole source as one segment at line 0
 * and its `postProcess` returns the raw source unchanged.
 */
module Processor {
  import opened Wrappers
  import opened Js
  import opened Places
  import opened ProcessFile
  import Md = ProcessMarkdown

  datatype Kind = JsProcessor | MarkdownProcessor

  /** `[jsProcessor(), mdProcessor]` */
  const Processors: seq<Kind> := [JsProcessor, MarkdownProcessor]

  /** What `runProcessors` returns. */
  datatype Processed = Processed(places: seq<Place>, processedSource: string, isProcessed: bool)

  /** The `process` callback: `process-file`'s inner function, or any other. */
  type SegmentProcess = Request -> Result<SegmentResult, JsError>

  /** What stays fixed during one run: the callback, `putout/extensions` (which is not
      part of this model) and the markdown library. */
  datatype Setup = Setup(process: SegmentProcess, jsExtensions: seq<string>, md: Md.Markdown)

  /** The file being processed. */
  datatype FileRun = FileRun(name: string, rawSource: string, index: int, length: int, options: FileOptions)

  // ---- extname ----

  function LastIndexOf(s: string, c: char): (r: int)
    ensures -1 <= r < |s|
    ensures r >= 0 ==> s[r] == c
    ensures forall j :: r < j < |s| ==> s[j] != c
    decreases |s|
  {
    if s == [] then -1
    else if s[|s| - 1] == c then |s| - 1
    else LastIndexOf(s[..|s| - 1], c)
  }

  /** The contract of `LastIndexOf` determines it. */
  lemma LastIndexOfUnique(s: string, c: char, r: int)
    requires -1 <= r < |s| && (r >= 0 ==> s[r] == c) && forall j :: r < j < |s| ==> s[j] != c
    ensures LastIndexOf(s, c) == r
  {
  }

  /** `extname(name).slice(1)`: what follows the last dot of the last path
      component, or `''` when there is no dot or only a leading one. */
  function ExtName(name: string): (ext: string)
    ensures '/' !in ext && '.' !in ext
  {
    var base := name[LastIndexOf(name, '/') + 1..];
    var dot := LastIndexOf(base, '.');
    if dot <= 0 then "" else base[dot + 1..]
  }

  /** Characters after the last occurrence do not move it. */
  lemma LastIndexOfAppend(a: string, b: string, c: char)
    requires c !in b
    ensures LastIndexOf(a + b, c) == LastIndexOf(a, c)
  {
    var r := LastIndexOf(a, c);
    assert forall j :: r < j < |a + b| ==> (a + b)[j] != c by {
      forall j | r < j < |a + b| ensures (a + b)[j] != c {
        if j >= |a| { assert (a + b)[j] == b[j - |a|]; }
      }
    }
    LastIndexOfUnique(a + b, c, r);
  }

  /** The dot before a dot-free extension is the last one. */
  lemma LastDot(head: string, ext: string)
    requires '.' !in ext
    ensures LastIndexOf(head + "." + ext, '.') == |head|
    ensures (head + "." + ext)[|head| + 1..] == ext
  {
    var base := head + "." + ext;
    var at := |head|;
    assert base[at + 1..] == ext;
    forall j | at < j < |base| ensures base[j] != '.' {
      assert base[j] == ext[j - at - 1];
      assert ext[j - at - 1] in ext;
    }
    assert base[at] == '.';
    LastIndexOfUnique(base, '.', at);
  }

  /** A name `stem.ext` whose last component has a non-empty stem has extension `ext`. */
  lemma ExtNameOf(stem: string, ext: string)
    requires '/' !in ext && '.' !in ext
    requires |stem| > 0 && stem[|stem| - 1] != '/' && stem[|stem| - 1] != '.'
    ensures ExtName(stem + "." + ext) == ext
  {
    var name := stem + "." + ext;
    assert name == stem + ("." + ext);
    LastIndexOfAppend(stem, "." + ext, '/');
    var slash := LastIndexOf(stem, '/');
    var head := stem[slash + 1..];
    assert |head| > 0;
    assert name[slash + 1..] == head + "." + ext;
    LastDot(head, ext);
  }

  // ---- the two processors ----

  function Extensions(k: Kind, setup: Setup): seq<string> {
    match k
    case JsProcessor => setup.jsExtensions
    case MarkdownProcessor => Md.Extensions
  }

  function PreProcess(k: Kind, setup: Setup, rawSource: string): seq<Segment> {
    match k
    case JsProcessor => [Segment(rawSource, 0)]
    case MarkdownProcessor => Md.Extract(setup.md.parse(rawSource))
  }

  /** `postProcess`: the JavaScript processor ignores the rewritten list. */
  function PostProcess(k: Kind, setup: Setup, rawSource: string, codes: seq<string>): string
    requires k.MarkdownProcessor? ==> |codes| >= Md.CountCodes(setup.md.parse(rawSource))
  {
    match k
    case JsProcessor => rawSource
    case MarkdownProcessor => setup.md.stringify(Md.Refilled(setup.md.parse(rawSource), codes))
  }

  // ---- segments ----

  /** The argument handed to `process` for one segment, with the file's options
      forwarded (the corrected call; see `RequestAsWritten`). */
  function SegmentRequest(run: FileRun, seg: Segment): (req: Request)
    ensures req.options == Some(run.options) && req.source == seg.source && req.startLine == seg.startLine
  {
    Request(run.name, seg.source, run.rawSource, run.index, run.length, seg.startLine, Some(run.options))
  }

  /** The argument the source hands to `process`: `name, source, rawSource,
      index, length, startLine` and no `options`. */
  function RequestAsWritten(run: FileRun, seg: Segment): (req: Request)
    ensures req.options.None?
  {
    Request(run.name, seg.source, run.rawSource, run.index, run.length, seg.startLine, None)
  }

  /** As written, `process-file` throws on every segment: it destructures `dir`
      from the `options` that never arrive. */
  lemma AsWrittenAlwaysThrows(cfg: Config, env: Env, run: FileRun, seg: Segment)
    ensures Process(cfg, env, RequestAsWritten(run, seg)) == Failure(UndefinedOptions)
  {
  }

  /** With the options forwarded, no segment throws unless a collaborator of
      `process-file` other than the engine does. */
  lemma ForwardedNeverThrows(cfg: Config, env: Env, run: FileRun, seg: Segment)
    requires Reliable(env)
    ensures Process(cfg, env, SegmentRequest(run, seg)).Success?
  {
  }

  /** The call as written is the corrected one with the options dropped. */
  lemma AsWrittenDropsOptions(run: FileRun, seg: Segment)
    ensures RequestAsWritten(run, seg) == SegmentRequest(run, seg).(options := None)
  {
  }

  /** Processing the segments in order, stopping at the first that throws. */
  function RunSegments(setup: Setup, run: FileRun, segs: seq<Segment>): (r: Result<seq<SegmentResult>, JsError>)
    ensures r.Success? ==> |r.value| == |segs|
    decreases |segs|
  {
    if segs == [] then Success([])
    else match RunSegments(setup, run, segs[..|segs| - 1])
      case Failure(e) => Failure(e)
      case Success(pre) =>
        match setup.process(SegmentRequest(run, segs[|segs| - 1]))
        case Failure(e) => Failure(e)
        case Success(res) => Success(pre + [res])
  }

  function Codes(results: seq<SegmentResult>): (codes: seq<string>)
    ensures |codes| == |results| && forall i :: 0 <= i < |results| ==> codes[i] == results[i].code
  {
    seq(|results|, i requires 0 <= i < |results| => results[i].code)
  }

  /** The places of all results, concatenated in order. */
  function PlacesOf(results: seq<SegmentResult>): seq<Place>
    decreases |results|
  {
    if results == [] then [] else PlacesOf(results[..|results| - 1]) + results[|results| - 1].places
  }

  /** What `runProcessors` returns after the processors `kinds` have had their turn. */
  function Dispatch(kinds: seq<Kind>, setup: Setup, run: FileRun): Result<Processed, JsError>
    decreases |kinds|
  {
    if kinds == [] then Success(Processed([], "", false))
    else match Dispatch(kinds[..|kinds| - 1], setup, run)
      case Failure(e) => Failure(e)
      case Success(st) => DispatchStep(st, kinds[|kinds| - 1], setup, run)
  }

  /** One processor's turn, given the state the earlier ones left. */
  function DispatchStep(st: Processed, k: Kind, setup: Setup, run: FileRun): Result<Processed, JsError> {
    if ExtName(run.name) !in Extensions(k, setup) then Success(st)
    else match RunSegments(setup, run, PreProcess(k, setup, run.rawSource))
      case Failure(e) => Failure(e)
      case Success(results) =>
        Success(Processed(st.places + PlacesOf(results), PostProcess(k, setup, run.rawSource, Codes(results)), true))
  }

  lemma {:induction false} SegmentsFailureSticks(setup: Setup, run: FileRun, segs: seq<Segment>, k: nat)
    requires k <= |segs| && RunSegments(setup, run, segs[..k]).Failure?
    ensures RunSegments(setup, run, segs) == RunSegments(setup, run, segs[..k])
    decreases |segs| - k
  {
    if k < |segs| {
      assert segs[..k + 1][..k] == segs[..k];
      SegmentsFailureSticks(setup, run, segs, k + 1);
    } else {
      assert segs[..k] == segs;
    }
  }

  lemma {:induction false} DispatchFailureSticks(kinds: seq<Kind>, setup: Setup, run: FileRun, k: nat)
    requires k <= |kinds| && Dispatch(kinds[..k], setup, run).Failure?
    ensures Dispatch(kinds, setup, run) == Dispatch(kinds[..k], setup, run)
    decreases |kinds| - k
  {
    if k < |kinds| {
      assert kinds[..k + 1][..k] == kinds[..k];
      DispatchFailureSticks(kinds, setup, run, k + 1);
    } else {
      assert kinds[..k] == kinds;
    }
  }

  /** One more segment: its result follows, unless it throws. */
  lemma RunSegmentsStep(setup: Setup, run: FileRun, list: seq<Segment>, i: nat, results: seq<SegmentResult>)
    requires i < |list| && RunSegments(setup, run, list[..i]) == Success(results)
    ensures var res := setup.process(SegmentRequest(run, list[i]));
      && (res.Failure? ==> RunSegments(setup, run, list[..i + 1]) == Failure(res.error))
      && (res.Success? ==> RunSegments(setup, run, list[..i + 1]) == Success(results + [res.value]))
  {
    assert list[..i + 1][..i] == list[..i];
  }

  lemma PlacesOfStep(results: seq<SegmentResult>, res: SegmentResult)
    ensures PlacesOf(results + [res]) == PlacesOf(results) + res.places
    ensures Codes(results + [res]) == Codes(results) + [res.code]
  {
    assert (results + [res])[..|results|] == results;
  }

  /** The inner loop of `runProcessors`: process each segment in order, collecting
      the codes and the places. */
  method ProcessList(setup: Setup, run: FileRun, list: seq<Segment>) returns (r: Result<(seq<string>, seq<Place>), JsError>)
    ensures var spec := RunSegments(setup, run, list);
      && r.Success? == spec.Success?
      && (r.Failure? ==> r.error == spec.error)
      && (r.Success? ==> r.value == (Codes(spec.value), PlacesOf(spec.value)))
  {
    var preProcessedList: seq<string> := [];
    var allPlaces: seq<Place> := [];
    ghost var results: seq<SegmentResult> := [];
    for i := 0 to |list|
      invariant RunSegments(setup, run, list[..i]) == Success(results)
      invariant preProcessedList == Codes(results)
      invariant allPlaces == PlacesOf(results)
    {
      RunSegmentsStep(setup, run, list, i, results);
      var seg := list[i];
      var res := setup.process(SegmentRequest(run, seg));
      if res.Failure? {
        SegmentsFailureSticks(setup, run, list, i + 1);
        return Failure(res.error);
      }
      preProcessedList := preProcessedList + [res.value.code];
      allPlaces := allPlaces + res.value.places;
      PlacesOfStep(results, res.value);
      results := results + [res.value];
    }
    assert list[..|list|] == list;
    r := Success((preProcessedList, allPlaces));
  }

  /** `runProcessors`: the loop over the processors. */
  method RunProcessors(setup: Setup, run: FileRun) returns (r: Result<Processed, JsError>)
    ensures r == Dispatch(Processors, setup, run)
  {
    var ext := ExtName(run.name);
    var processors := Processors;
    var processedSource := "";
    var isProcessed := false;
    var allPlaces: seq<Place> := [];
    for p := 0 to |processors|
      invariant Dispatch(processors[..p], setup, run) == Success(Processed(allPlaces, processedSource, isProcessed))
    {
      assert processors[..p + 1][..p] == processors[..p];
      var kind := processors[p];
      if ext !in Extensions(kind, setup) {
        continue;
      }
      var list: seq<Segment>;
      if kind.JsProcessor? {
        list := [Segment(run.rawSource, 0)];
      } else {
        list := Md.PreProcess(setup.md, run.rawSource);
      }
      var outcome := ProcessList(setup, run, list);
      if outcome.Failure? {
        DispatchFailureSticks(processors, setup, run, p + 1);
        return Failure(outcome.error);
      }
      var (preProcessedList, places) := outcome.value;
      allPlaces := allPlaces + places;
      if kind.JsProcessor? {
        processedSource := run.rawSource;
      } else {
        processedSource := Md.PostProcess(setup.md, run.rawSource, preProcessedList);
      }
      isProcessed := true;
    }
    assert processors[..|processors|] == processors;
    r := Success(Processed(allPlaces, processedSource, isProcessed));
  }

  // ---- properties ----

  /** Each segment's result is `process` of that segment, in order; the run throws
      exactly when some segment's processing throws. */
  lemma {:induction false} RunSegmentsSpec(setup: Setup, run: FileRun, segs: seq<Segment>)
    ensures var r := RunSegments(setup, run, segs);
      && (r.Success? ==> forall i :: 0 <= i < |segs| ==> setup.process(SegmentRequest(run, segs[i])) == Success(r.value[i]))
      && (r.Failure? <==> exists i :: 0 <= i < |segs| && setup.process(SegmentRequest(run, segs[i])).Failure?)
    decreases |segs|
  {
    if segs != [] {
      var n := |segs| - 1;
      var pre := segs[..n];
      RunSegmentsSpec(setup, run, pre);
      assert forall i :: 0 <= i < n ==> pre[i] == segs[i];
      if RunSegments(setup, run, pre).Failure? {
        var i :| 0 <= i < |pre| && setup.process(SegmentRequest(run, pre[i])).Failure?;
        assert segs[i] == pre[i];
      }
    }
  }

  /** A processor whose extensions do not contain the file's extension runs nothing. */
  predicate Claims(k: Kind, setup: Setup, run: FileRun) {
    ExtName(run.name) in Extensions(k, setup)
  }

  /** A file is processed exactly when some processor claims its extension;
      when none does, `processedSource` is `''` and there are no places. */
  lemma {:induction false} ProcessedIffClaimed(kinds: seq<Kind>, setup: Setup, run: FileRun)
    requires Dispatch(kinds, setup, run).Success?
    ensures var r := Dispatch(kinds, setup, run).value;
      && (r.isProcessed <==> exists i :: 0 <= i < |kinds| && Claims(kinds[i], setup, run))
      && (!r.isProcessed ==> r.processedSource == "" && r.places == [])
    decreases |kinds|
  {
    if kinds != [] {
      var n := |kinds| - 1;
      var front := kinds[..n];
      var st := Dispatch(front, setup, run);
      assert st.Success?;
      ProcessedIffClaimed(front, setup, run);
      assert Dispatch(kinds, setup, run) == DispatchStep(st.value, kinds[n], setup, run);
      DispatchStepClaims(st.value, kinds[n], setup, run);
      ExistsSplit(kinds, k => Claims(k, setup, run));
    }
  }

  /** A claiming processor marks the file processed; any other leaves the state alone. */
  lemma DispatchStepClaims(st: Processed, k: Kind, setup: Setup, run: FileRun)
    ensures Claims(k, setup, run) && DispatchStep(st, k, setup, run).Success? ==> DispatchStep(st, k, setup, run).value.isProcessed
    ensures !Claims(k, setup, run) ==> DispatchStep(st, k, setup, run) == Success(st)
  {
  }

  /** Some element satisfies `p` exactly when one of the earlier ones or the last one does. */
  lemma ExistsSplit<T>(xs: seq<T>, p: T -> bool)
    requires xs != []
    ensures var n := |xs| - 1;
      (exists i :: 0 <= i < |xs| && p(xs[i])) <==> (exists i :: 0 <= i < n && p(xs[..n][i])) || p(xs[n])
  {
    var n := |xs| - 1;
    var front := xs[..n];
    if exists i :: 0 <= i < |xs| && p(xs[i]) {
      var i :| 0 <= i < |xs| && p(xs[i]);
      if i < n {
        assert front[i] == xs[i];
      }
    }
    if exists i :: 0 <= i < n && p(front[i]) {
      var i :| 0 <= i < n && p(front[i]);
      assert front[i] == xs[i];
    }
  }

  /** `processedSource` is the last claiming processor's `postProcess` of the
      codes of its own segments, and the places of its segments come last. */
  lemma LastClaimingWins(kinds: seq<Kind>, k: Kind, setup: Setup, run: FileRun)
    requires Claims(k, setup, run)
    requires Dispatch(kinds + [k], setup, run).Success?
    ensures var segs := PreProcess(k, setup, run.rawSource);
      var results := RunSegments(setup, run, segs);
      && results.Success?
      && Dispatch(kinds + [k], setup, run).value.processedSource == PostProcess(k, setup, run.rawSource, Codes(results.value))
      && Dispatch(kinds + [k], setup, run).value.places == Dispatch(kinds, setup, run).value.places + PlacesOf(results.value)
  {
    assert (kinds + [k])[..|kinds|] == kinds;
  }

  /** A JavaScript file (claimed by the JS processor, not by markdown) is
      processed as one segment at line 0, and its processed source is the raw
      source whatever the engine rewrote. */
  lemma JsFileIgnoresRewrite(setup: Setup, run: FileRun)
    requires ExtName(run.name) in setup.jsExtensions && ExtName(run.name) != "md"
    requires Dispatch(Processors, setup, run).Success?
    ensures var r := Dispatch(Processors, setup, run).value;
      var res := setup.process(SegmentRequest(run, Segment(run.rawSource, 0)));
      && res.Success? && r.isProcessed
      && r.processedSource == run.rawSource
      && r.places == res.value.places
  {
    assert Processors[..1] == [JsProcessor];
    assert Processors[..1][..0] == [];
    var seg := Segment(run.rawSource, 0);
    assert [seg][..0] == [];
    var results := RunSegments(setup, run, [seg]);
    assert results.Success?;
    assert results.value[..0] == [];
    assert PlacesOf(results.value) == results.value[0].places;
  }

  /** A markdown file processes its allow-listed code blocks in document order
      and splices the processed codes back in the same order. */
  lemma MarkdownFile(setup: Setup, run: FileRun)
    requires ExtName(run.name) !in setup.jsExtensions && ExtName(run.name) == "md"
    requires Dispatch(Processors, setup, run).Success?
    ensures var nodes := setup.md.parse(run.rawSource);
      var results := RunSegments(setup, run, Md.Extract(nodes));
      var r := Dispatch(Processors, setup, run).value;
      && results.Success? && r.isProcessed
      && r.processedSource == setup.md.stringify(Md.Refilled(nodes, Codes(results.value)))
      && r.places == PlacesOf(results.value)
  {
    assert Processors[..1] == [JsProcessor];
    assert Processors[..1][..0] == [];
  }

  /** With `process-file` as the callback and the options forwarded, running the
      processors never throws unless a collaborator of `process-file` other than
      the engine does. */
  lemma {:induction false} CorrectedNeverThrows(kinds: seq<Kind>, cfg: Config, env: Env, jsExtensions: seq<string>, md: Md.Markdown, run: FileRun)
    requires Reliable(env)
    ensures Dispatch(kinds, Setup(req => Process(cfg, env, req), jsExtensions, md), run).Success?
    decreases |kinds|
  {
    var setup := Setup(req => Process(cfg, env, req), jsExtensions, md);
    if kinds != [] {
      CorrectedNeverThrows(kinds[..|kinds| - 1], cfg, env, jsExtensions, md, run);
      var segs := PreProcess(kinds[|kinds| - 1], setup, run.rawSource);
      RunSegmentsSpec(setup, run, segs);
      forall i | 0 <= i < |segs| ensures setup.process(SegmentRequest(run, segs[i])).Success? {
        ForwardedNeverThrows(cfg, env, run, segs[i]);
      }
    }
  }

  // ---- the call as written, for a whole file ----

  /** `runProcessors` as written: `process-file` receives each segment without the
      file's options (see `AsWrittenDropsOptions`). */
  function AsWrittenSetup(cfg: Config, env: Env, jsExtensions: seq<string>, md: Md.Markdown): Setup {
    Setup((req: Request) => Process(cfg, env, req.(options := None)), jsExtensions, md)
  }

  /** As written, the callback throws the `dir` TypeError on every request. */
  lemma AsWrittenThrows(cfg: Config, env: Env, jsExtensions: seq<string>, md: Md.Markdown)
    ensures AlwaysThrows(AsWrittenSetup(cfg, env, jsExtensions, md), UndefinedOptions)
  {
  }

  /** A callback that throws `err` whatever it is given. */
  ghost predicate AlwaysThrows(setup: Setup, err: JsError) {
    forall req :: setup.process(req) == Failure(err)
  }

  /** With such a callback, a list of segments throws exactly when it is not empty. */
  lemma {:induction false} RunSegmentsThrowing(setup: Setup, err: JsError, run: FileRun, segs: seq<Segment>)
    requires AlwaysThrows(setup, err)
    ensures RunSegments(setup, run, segs) == if segs == [] then Success([]) else Failure(err)
    decreases |segs|
  {
    if segs != [] {
      RunSegmentsThrowing(setup, err, run, segs[..|segs| - 1]);
      assert setup.process(SegmentRequest(run, segs[|segs| - 1])) == Failure(err);
    }
  }

  /** A processor that claims the file and splits it into at least one segment. */
  predicate CallsProcess(k: Kind, setup: Setup, run: FileRun) {
    Claims(k, setup, run) && PreProcess(k, setup, run.rawSource) != []
  }

  /** With such a callback, one processor's turn throws exactly when it calls `process`. */
  lemma DispatchStepThrowing(st: Processed, k: Kind, setup: Setup, err: JsError, run: FileRun)
    requires AlwaysThrows(setup, err)
    ensures var r := DispatchStep(st, k, setup, run);
      && (r.Failure? <==> CallsProcess(k, setup, run))
      && (r.Failure? ==> r.error == err)
  {
    RunSegmentsThrowing(setup, err, run, PreProcess(k, setup, run.rawSource));
  }

  /** With such a callback, the dispatch throws exactly when some processor claims
      the file and hands `process` at least one segment. */
  lemma {:induction false} DispatchThrowing(kinds: seq<Kind>, setup: Setup, err: JsError, run: FileRun)
    requires AlwaysThrows(setup, err)
    ensures var r := Dispatch(kinds, setup, run);
      && (r.Failure? <==> exists i :: 0 <= i < |kinds| && CallsProcess(kinds[i], setup, run))
      && (r.Failure? ==> r.error == err)
    decreases |kinds|
  {
    if kinds != [] {
      var n := |kinds| - 1;
      var front := kinds[..n];
      DispatchThrowing(front, setup, err, run);
      var st := Dispatch(front, setup, run);
      ExistsSplit(kinds, k => CallsProcess(k, setup, run));
      assert (exists i :: 0 <= i < n && CallsProcess(front[i], setup, run)) <==> st.Failure?;
      if st.Success? {
        DispatchStepThrowing(st.value, kinds[n], setup, err, run);
        assert Dispatch(kinds, setup, run) == DispatchStep(st.value, kinds[n], setup, run);
      } else {
        assert Dispatch(kinds, setup, run) == Failure(st.error);
      }
    }
  }

  /** With such a callback, every file the JavaScript processor claims throws, a
      markdown file throws exactly when it has an allow-listed code block, and any
      other file passes. */
  lemma FileThrowing(setup: Setup, err: JsError, run: FileRun)
    requires AlwaysThrows(setup, err)
    ensures var ext := ExtName(run.name);
      var nodes := setup.md.parse(run.rawSource);
      var r := Dispatch(Processors, setup, run);
      && (r.Failure? <==> ext in setup.jsExtensions || (ext == "md" && exists i :: 0 <= i < |nodes| && Md.IsJsCode(nodes[i])))
      && (r.Failure? ==> r.error == err)
  {
    DispatchThrowing(Processors, setup, err, run);
    ProcessorsCall(setup, run);
    Md.ExtractEmptyIff(setup.md.parse(run.rawSource));
  }

  /** Which of the two registered processors reaches the callback for a file. */
  lemma ProcessorsCall(setup: Setup, run: FileRun)
    ensures var ext := ExtName(run.name);
      (exists i :: 0 <= i < |Processors| && CallsProcess(Processors[i], setup, run))
      <==> ext in setup.jsExtensions || (ext == "md" && Md.Extract(setup.md.parse(run.rawSource)) != [])
  {
    EitherProcessorCalls(setup, run);
    JsCalls(setup, run);
    MarkdownCalls(setup, run);
  }

  lemma EitherProcessorCalls(setup: Setup, run: FileRun)
    ensures (exists i :: 0 <= i < |Processors| && CallsProcess(Processors[i], setup, run))
      <==> CallsProcess(JsProcessor, setup, run) || CallsProcess(MarkdownProcessor, setup, run)
  {
    if CallsProcess(JsProcessor, setup, run) {
      assert CallsProcess(Processors[0], setup, run);
    }
    if CallsProcess(MarkdownProcessor, setup, run) {
      assert CallsProcess(Processors[1], setup, run);
    }
  }

  lemma JsCalls(setup: Setup, run: FileRun)
    ensures CallsProcess(JsProcessor, setup, run) <==> ExtName(run.name) in setup.jsExtensions
  {
    assert PreProcess(JsProcessor, setup, run.rawSource) != [];
  }

  lemma MarkdownCalls(setup: Setup, run: FileRun)
    ensures CallsProcess(MarkdownProcessor, setup, run)
      <==> ExtName(run.name) == "md" && Md.Extract(setup.md.parse(run.rawSource)) != []
  {
    assert Extensions(MarkdownProcessor, setup) == ["md"];
  }

  /** As written, every file the JavaScript processor claims throws the `dir`
      TypeError, a markdown file throws it exactly when it has an allow-listed code
      block, and any other file passes. */
  lemma FileAsWritten(cfg: Config, env: Env, jsExtensions: seq<string>, md: Md.Markdown, run: FileRun)
    ensures var ext := ExtName(run.name);
      var nodes := md.parse(run.rawSource);
      var r := Dispatch(Processors, AsWrittenSetup(cfg, env, jsExtensions, md), run);
      && (r.Failure? <==> ext in jsExtensions || (ext == "md" && exists i :: 0 <= i < |nodes| && Md.IsJsCode(nodes[i])))
      && (r.Failure? ==> r.error == UndefinedOptions)
  {
    AsWrittenThrows(cfg, env, jsExtensions, md);
    FileThrowing(AsWrittenSetup(cfg, env, jsExtensions, md), UndefinedOptions, run);
  }
}
