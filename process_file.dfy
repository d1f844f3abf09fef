/**
 * Processing one code segment of a file (packages/putout/lib/cli/process-file.js).
 *
 * The decision order is: a cache hit returns the cached places; an ignored
 * file returns no places; otherwise the engine runs (a throw becomes the
 * places of `parseError`); then, unless a ruler flag is set, the linter runs
 * and its places are appended. Every place's line is shifted by the
 * segment's start line.
 */
module ProcessFile {
  import opened Wrappers
  import opened Js
  import opened Places

  /** Per-file options, as the configuration loader returns them. */
  type FileOptions = map<string, Value>

  /** The bulk rule-toggling flags; `disable`/`enable` are strings, `''` when not given. */
  datatype Ruler = Ruler(disable: string, enable: string, disableAll: bool, enableAll: bool)

  /** `ruler.disable || ruler.enable || ruler.disableAll || ruler.enableAll` */
  predicate RulerActive(r: Ruler) {
    r.disable != "" || r.enable != "" || r.disableAll || r.enableAll
  }

  /** The arguments of the outer call, `processFile({...})`, that the body uses. */
  datatype Config = Config(fix: bool, fixCount: int, isFlow: bool, isJSX: bool, debug: bool, raw: bool, ruler: Ruler)

  /** The collaborators, which are not part of this model: the file cache, the
      ignore list, the engine, `parseError` and the linter pass. Any of them may
      throw; only the engine's throw is caught (`tryCatch`). */
  datatype Env = Env(
    canUseCache: (bool, FileOptions, string) -> Result<bool, JsError>,
    getPlaces: string -> Result<seq<Place>, JsError>,
    ignores: (Value, string, FileOptions) -> Result<bool, JsError>,
    engine: (string, FileOptions) -> Result<EngineResult, JsError>,
    parseError: (JsError, bool) -> Result<seq<Place>, JsError>,
    eslint: (string, string, bool) -> Result<(string, seq<Place>), JsError>)

  /** The argument of the inner call: one segment of one file. */
  datatype Request = Request(name: string, source: string, rawSource: string, index: int, length: int,
                             startLine: int, options: Option<FileOptions>)

  /** The result: places and code, and the error handed to `logError` in raw mode. */
  datatype SegmentResult = SegmentResult(places: seq<Place>, code: string, logged: Option<JsError>)

  const UndefinedOptions := TypeError("Cannot destructure property 'dir' of 'undefined' as it is undefined.")

  /** `/\.tsx?$/.test(name)` */
  predicate IsTS(name: string) {
    var n := |name|;
    (n >= 3 && name[n - 3..] == ".ts") || (n >= 4 && name[n - 4..] == ".tsx")
  }

  /** Every name ending in `.ts` or `.tsx` is TypeScript ... */
  lemma TSSuffixes(stem: string)
    ensures IsTS(stem + ".ts") && IsTS(stem + ".tsx")
  {
    var a, b := stem + ".ts", stem + ".tsx";
    assert a[|a| - 3..] == ".ts";
    assert b[|b| - 4..] == ".tsx";
  }

  /** ... and no other name is. */
  lemma TSOnlySuffixes(name: string)
    requires IsTS(name)
    ensures var n := |name|;
      n >= 3 && name[n - 3..] == ".ts" ==> name == name[..n - 3] + ".ts"
    ensures var n := |name|;
      !(n >= 3 && name[n - 3..] == ".ts") ==> n >= 4 && name == name[..n - 4] + ".tsx"
  {
    var n := |name|;
    if n >= 3 && name[n - 3..] == ".ts" {
      EndsWith(name, ".ts");
    } else {
      EndsWith(name, ".tsx");
    }
  }

  /** A string that ends in `t` is its stem followed by `t`. */
  lemma EndsWith(s: string, t: string)
    requires |t| <= |s| && s[|s| - |t|..] == t
    ensures s == s[..|s| - |t|] + t
  {
    assert s == s[..|s| - |t|] + s[|s| - |t|..];
  }

  /** The engine's options: `{fix, fixCount, isTS, isFlow, isJSX, ...options}`;
      the spread lets the file's options override the five flags. */
  function EngineOptions(cfg: Config, isTS: bool, options: FileOptions): FileOptions {
    map["fix" := Bool(cfg.fix), "fixCount" := Num(cfg.fixCount), "isTS" := Bool(isTS),
        "isFlow" := Bool(cfg.isFlow), "isJSX" := Bool(cfg.isJSX)] + options
  }

  /** One place, its line shifted by `line`. */
  function ShiftPlace(line: int, p: Place): Place {
    p.(position := p.position.(line := line + p.position.line))
  }

  /** What `formatPlaces` computes. */
  function Shifted(line: int, places: seq<Place>): (r: seq<Place>)
    ensures |r| == |places|
    ensures forall i :: 0 <= i < |r| ==>
      && r[i].rule == places[i].rule && r[i].message == places[i].message
      && r[i].position.column == places[i].position.column
      && r[i].position.line == line + places[i].position.line
    decreases |places|
  {
    if places == [] then [] else [ShiftPlace(line, places[0])] + Shifted(line, places[1..])
  }

  /** Shifting distributes over concatenation, so appended places stay behind. */
  lemma {:induction false} ShiftedAppend(line: int, a: seq<Place>, b: seq<Place>)
    ensures Shifted(line, a + b) == Shifted(line, a) + Shifted(line, b)
    decreases |a|
  {
    if a != [] {
      assert (a + b)[1..] == a[1..] + b;
      ShiftedAppend(line, a[1..], b);
    }
  }

  lemma ShiftedStep(line: int, places: seq<Place>, i: nat)
    requires i < |places|
    ensures Shifted(line, places[..i + 1]) == Shifted(line, places[..i]) + [ShiftPlace(line, places[i])]
  {
    ShiftedAppend(line, places[..i], [places[i]]);
    assert places[..i + 1] == places[..i] + [places[i]];
  }

  /** `formatPlaces`: the loop that pushes one shifted copy of every place. The
      debug `console.log` it makes is not part of this model. */
  method FormatPlaces(line: int, places: seq<Place>) returns (newPlaces: seq<Place>)
    ensures newPlaces == Shifted(line, places)
  {
    newPlaces := [];
    for i := 0 to |places|
      invariant newPlaces == Shifted(line, places[..i])
    {
      ShiftedStep(line, places, i);
      newPlaces := newPlaces + [ShiftPlace(line, places[i])];
    }
    assert places[..|places|] == places;
  }

  /** The inner function of the module's export, for one request. */
  function Process(cfg: Config, env: Env, req: Request): Result<SegmentResult, JsError> {
    if req.options.None? then Failure(UndefinedOptions)
    else
      var options := req.options.value;
      match env.canUseCache(cfg.fix, options, req.name)
      case Failure(e) => Failure(e)
      case Success(hit) =>
        if hit then
          match env.getPlaces(req.name)
          case Failure(e) => Failure(e)
          case Success(places) => Success(SegmentResult(places, req.source, None))
        else
          match env.ignores(Lookup(options, "dir"), req.name, options)
          case Failure(e) => Failure(e)
          case Success(ignored) =>
            if ignored then Success(SegmentResult([], req.source, None))
            else Checked(cfg, env, req)
  }

  /** The engine's verdict on the segment, caught by `tryCatch`. */
  function EngineCall(cfg: Config, env: Env, req: Request): Result<EngineResult, JsError>
    requires req.options.Some?
  {
    env.engine(req.source, EngineOptions(cfg, IsTS(req.name), req.options.value))
  }

  /** `const {code = source} = result || {}` */
  function EngineCode(result: Result<EngineResult, JsError>, source: string): string {
    if result.Success? then result.value.code.GetOr(source) else source
  }

  /** `result ? result.places : parseError(e, {debug})`, where `parseError` may throw. */
  function EnginePlaces(cfg: Config, env: Env, result: Result<EngineResult, JsError>): Result<seq<Place>, JsError> {
    if result.Success? then Success(result.value.places) else env.parseError(result.error, cfg.debug)
  }

  /** From the engine call on: the engine, the ruler test and the linter. */
  function Checked(cfg: Config, env: Env, req: Request): Result<SegmentResult, JsError>
    requires req.options.Some?
  {
    var result := EngineCall(cfg, env, req);
    var logged := if result.Failure? && cfg.raw then Some(result.error) else None;
    var code := EngineCode(result, req.source);
    match EnginePlaces(cfg, env, result)
    case Failure(e) => Failure(e)
    case Success(allPlaces) =>
      if RulerActive(cfg.ruler) then Success(SegmentResult(Shifted(req.startLine, allPlaces), code, logged))
      else
        match env.eslint(req.name, code, cfg.fix)
        case Failure(e) => Failure(e)
        case Success(lint) => Success(SegmentResult(Shifted(req.startLine, allPlaces + lint.1), lint.0, logged))
  }

  // ---- the branches, one lemma each ----

  /** Destructuring `dir` from a missing `options` throws before anything else happens. */
  lemma MissingOptionsThrow(cfg: Config, env: Env, req: Request)
    requires req.options.None?
    ensures Process(cfg, env, req) == Failure(UndefinedOptions)
  {
  }

  /** No collaborator but the engine ever throws. */
  ghost predicate Reliable(env: Env) {
    && (forall fix, options, name :: env.canUseCache(fix, options, name).Success?)
    && (forall name :: env.getPlaces(name).Success?)
    && (forall dir, name, options :: env.ignores(dir, name, options).Success?)
    && (forall e, debug :: env.parseError(e, debug).Success?)
    && (forall name, code, fix :: env.eslint(name, code, fix).Success?)
  }

  /** With options present and collaborators that do not throw, the segment never
      throws: the engine's errors are caught. */
  lemma NeverThrowsWithOptions(cfg: Config, env: Env, req: Request)
    requires req.options.Some? && Reliable(env)
    ensures Process(cfg, env, req).Success?
  {
  }

  /** Every other collaborator's throw escapes: it is the segment's own throw. */
  lemma UncaughtThrows(cfg: Config, env: Env, req: Request)
    requires req.options.Some?
    ensures var options := req.options.value;
      var cache := env.canUseCache(cfg.fix, options, req.name);
      var ignored := env.ignores(Lookup(options, "dir"), req.name, options);
      && (cache.Failure? ==> Process(cfg, env, req) == Failure(cache.error))
      && (cache == Success(true) && env.getPlaces(req.name).Failure? ==>
            Process(cfg, env, req) == Failure(env.getPlaces(req.name).error))
      && (cache == Success(false) && ignored.Failure? ==> Process(cfg, env, req) == Failure(ignored.error))
  {
  }

  /** ... and so do `parseError`'s and the linter's, once the engine has run. */
  lemma UncaughtThrowsAfterEngine(cfg: Config, env: Env, req: Request)
    requires Reached(cfg, env, req)
    ensures var result := EngineCall(cfg, env, req);
      var places := EnginePlaces(cfg, env, result);
      var lint := env.eslint(req.name, EngineCode(result, req.source), cfg.fix);
      && (places.Failure? ==> Process(cfg, env, req) == Failure(places.error))
      && (places.Success? && !RulerActive(cfg.ruler) && lint.Failure? ==> Process(cfg, env, req) == Failure(lint.error))
  {
  }

  /** The errors the segment's uncaught collaborator calls would throw on this request:
      the cache check, the cached places, the ignore list, `parseError` of the
      engine's error, and the linter on the engine's code. */
  function Thrown(cfg: Config, env: Env, req: Request): set<JsError>
    requires req.options.Some?
  {
    var options := req.options.value;
    var result := EngineCall(cfg, env, req);
    ErrorOf(env.canUseCache(cfg.fix, options, req.name))
      + ErrorOf(env.getPlaces(req.name))
      + ErrorOf(env.ignores(Lookup(options, "dir"), req.name, options))
      + (if result.Failure? then ErrorOf(env.parseError(result.error, cfg.debug)) else {})
      + ErrorOf(env.eslint(req.name, EngineCode(result, req.source), cfg.fix))
  }

  function ErrorOf<T>(r: Result<T, JsError>): set<JsError> {
    if r.Failure? then {r.error} else {}
  }

  /** With options present, a segment throws only what one of those collaborators
      throws: no error of its own; with `UncaughtThrows` and
      `UncaughtThrowsAfterEngine`, the segment throws exactly when options are missing
      or a collaborator it calls throws. */
  lemma ThrowsOnlyFromCollaborators(cfg: Config, env: Env, req: Request)
    requires req.options.Some? && Process(cfg, env, req).Failure?
    ensures Process(cfg, env, req).error in Thrown(cfg, env, req)
  {
  }

  /** A cache hit returns the cached places and the source; engine and linter are not consulted. */
  lemma CacheHit(cfg: Config, env: Env, env': Env, req: Request)
    requires req.options.Some? && env.canUseCache(cfg.fix, req.options.value, req.name) == Success(true)
    requires env.getPlaces(req.name).Success?
    requires env'.canUseCache == env.canUseCache && env'.getPlaces == env.getPlaces
    ensures Process(cfg, env, req) == Success(SegmentResult(env.getPlaces(req.name).value, req.source, None))
    ensures Process(cfg, env', req) == Process(cfg, env, req)
  {
  }

  /** An ignored file yields no places and its own source. */
  lemma Ignored(cfg: Config, env: Env, req: Request)
    requires req.options.Some? && env.canUseCache(cfg.fix, req.options.value, req.name) == Success(false)
    requires env.ignores(Lookup(req.options.value, "dir"), req.name, req.options.value) == Success(true)
    ensures Process(cfg, env, req) == Success(SegmentResult([], req.source, None))
  {
  }

  /** The segment got past the cache and the ignore list. */
  predicate Reached(cfg: Config, env: Env, req: Request) {
    && req.options.Some?
    && env.canUseCache(cfg.fix, req.options.value, req.name) == Success(false)
    && env.ignores(Lookup(req.options.value, "dir"), req.name, req.options.value) == Success(false)
  }

  /** The engine sees the segment's source, `isTS` from the name unless the
      file's options override it, and the file's options. */
  lemma EngineSeesOptions(cfg: Config, isTS: bool, options: FileOptions)
    ensures forall k :: k in options ==> EngineOptions(cfg, isTS, options)[k] == options[k]
    ensures "isTS" !in options ==> EngineOptions(cfg, isTS, options)["isTS"] == Bool(isTS)
    ensures "fix" !in options ==> EngineOptions(cfg, isTS, options)["fix"] == Bool(cfg.fix)
  {
  }

  /** The engine's error is handed to `logError` exactly in raw mode; a result
      the engine returned logs nothing. */
  lemma RawLogsEngineError(cfg: Config, env: Env, req: Request)
    requires Reached(cfg, env, req) && Process(cfg, env, req).Success?
    ensures var result := EngineCall(cfg, env, req);
      Process(cfg, env, req).value.logged == if result.Failure? && cfg.raw then Some(result.error) else None
  {
  }

  /** When the engine throws, the segment still returns (unless `parseError` or the
      linter throws): the linter runs on the unchanged source, and the places are
      `parseError`'s followed by the linter's, all shifted. */
  lemma EngineThrows(cfg: Config, env: Env, req: Request)
    requires Reached(cfg, env, req) && EngineCall(cfg, env, req).Failure?
    requires env.parseError(EngineCall(cfg, env, req).error, cfg.debug).Success?
    ensures var parsed := env.parseError(EngineCall(cfg, env, req).error, cfg.debug).value;
      var lint := env.eslint(req.name, req.source, cfg.fix);
      var r := Process(cfg, env, req);
      && (RulerActive(cfg.ruler) ==> r == Success(SegmentResult(Shifted(req.startLine, parsed), req.source, r.value.logged)))
      && (!RulerActive(cfg.ruler) && lint.Success? ==>
            r == Success(SegmentResult(Shifted(req.startLine, parsed) + Shifted(req.startLine, lint.value.1), lint.value.0, r.value.logged)))
  {
    var parsed := env.parseError(EngineCall(cfg, env, req).error, cfg.debug).value;
    var lint := env.eslint(req.name, req.source, cfg.fix);
    if lint.Success? {
      ShiftedAppend(req.startLine, parsed, lint.value.1);
    }
  }

  /** With a ruler flag set the linter is skipped: the engine's code (or the source)
      and its shifted places. */
  lemma RulerSkipsLinter(cfg: Config, env: Env, env': Env, req: Request)
    requires Reached(cfg, env, req) && RulerActive(cfg.ruler)
    requires EnginePlaces(cfg, env, EngineCall(cfg, env, req)).Success?
    requires env' == env.(eslint := env'.eslint)
    ensures var e := EngineCall(cfg, env, req);
      && Process(cfg, env, req).value.code == EngineCode(e, req.source)
      && Process(cfg, env, req).value.places == Shifted(req.startLine, EnginePlaces(cfg, env, e).value)
      && Process(cfg, env', req) == Process(cfg, env, req)
  {
  }

  /** Otherwise the linter's places follow the engine's (or `parseError`'s), shifted,
      nothing dropped or reordered, and the code is the linter's. */
  lemma LinterAppends(cfg: Config, env: Env, req: Request)
    requires Reached(cfg, env, req) && !RulerActive(cfg.ruler)
    requires EnginePlaces(cfg, env, EngineCall(cfg, env, req)).Success?
    requires env.eslint(req.name, EngineCode(EngineCall(cfg, env, req), req.source), cfg.fix).Success?
    ensures var e := EngineCall(cfg, env, req);
      var places := EnginePlaces(cfg, env, e).value;
      var lint := env.eslint(req.name, EngineCode(e, req.source), cfg.fix).value;
      var r := Process(cfg, env, req).value;
      && r.code == lint.0
      && r.places == Shifted(req.startLine, places) + Shifted(req.startLine, lint.1)
      && |r.places| == |places| + |lint.1|
  {
    var e := EngineCall(cfg, env, req);
    var lint := env.eslint(req.name, EngineCode(e, req.source), cfg.fix).value;
    ShiftedAppend(req.startLine, EnginePlaces(cfg, env, e).value, lint.1);
  }
}
