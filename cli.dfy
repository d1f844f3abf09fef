/**
 * The command-line batch driver (packages/putout/lib/cli/index.js).
 *
 * Argument parsing, git, the filesystem, the cache store, the formatter
 * and the merging of places are collaborators given as parameters; every
 * side effect the driver performs is recorded, in order, as an event of a
 * ghost trace. Files are processed by `runProcessors`, a parameter here
 * (the model of it is `Processor.RunProcessors`).
 */
module Cli {
  import opened Wrappers
  import opened Js
  import opened Places
  import opened ProcessFile
  import Processor

  // ---- getExit ----

  /** What `exit` is called with: nothing, an exit code, or a thrown error. */
  datatype ExitArg = NoArg | Code(n: int) | Thrown(e: JsError)

  /** What `logError` receives: the error itself under `--raw`, else its coloured message. */
  datatype ErrorText = RawError(e: JsError) | Colored(message: string)

  /** One observable side effect of the driver. */
  datatype Event =
    | Log(text: string)
    | LogError(error: ErrorText)
    | Halt(code: int)
    | RulerInit(enable: string, disable: string)
    | StagedGet
    | GetFiles(globs: seq<string>)
    | CacheFiles
    | Read(path: string)
    | Write(line: string)
    | RemoveEntry(name: string)
    | WriteFile(name: string, content: string)
    | SetInfo(name: string, places: seq<Place>)
    | Reconcile
    | RulerApply(enableAll: bool, disableAll: bool, places: seq<Place>)
    | StagedSet

  /** `getExit({halt, raw, logError})(e)` */
  function Exit(raw: bool, arg: ExitArg): (events: seq<Event>)
    ensures |events| >= 1 && events[|events| - 1].Halt?
    ensures forall i :: 0 <= i < |events| - 1 ==> !events[i].Halt?
    ensures arg.NoArg? ==> events == [Halt(0)]
    ensures arg.Code? ==> events == [Halt(arg.n)]
    ensures arg.Thrown? ==>
      events == [LogError(if raw then RawError(arg.e) else Colored(arg.e.message)), Halt(1)]
  {
    match arg
    case NoArg => [Halt(0)]
    case Code(n) => if n == 0 then [Halt(0)] else [Halt(n)]
    case Thrown(e) =>
      var text := if raw then RawError(e) else Colored(e.message);
      [LogError(text), Halt(1)]
  }

  /** An error is logged exactly when `exit` is given one, and only then is the code 1. */
  lemma ExitLogsOnlyErrors(raw: bool, arg: ExitArg)
    ensures (exists i :: 0 <= i < |Exit(raw, arg)| && Exit(raw, arg)[i].LogError?) <==> arg.Thrown?
    ensures arg.Code? ==> Exit(raw, arg)[|Exit(raw, arg)| - 1] == Halt(arg.n)
    ensures arg.Thrown? ==> Exit(raw, arg)[|Exit(raw, arg)| - 1] == Halt(1)
  {
    var events := Exit(raw, arg);
    if arg.Thrown? {
      assert events[0].LogError?;
    }
  }

  // ---- argument coercion ----

  /** A repeatable option as the parser hands it over: one value or an array of them. */
  datatype OptionArg = Single(value: string) | Repeated(values: seq<string>)

  /** `maybeFirst`: an array yields its last element (`pop`), `undefined` when it is empty. */
  function MaybeFirst(a: OptionArg): (r: Option<string>)
    ensures a.Single? ==> r == Some(a.value)
    ensures a.Repeated? && a.values != [] ==> r == Some(a.values[|a.values| - 1])
    ensures a.Repeated? && a.values == [] ==> r == None
  {
    match a
    case Single(v) => Some(v)
    case Repeated(vs) => if vs == [] then None else Some(vs[|vs| - 1])
  }

  /** A repeated `--format` takes the value given last. */
  lemma LastFormatWins(earlier: seq<string>, last: string)
    ensures MaybeFirst(Repeated(earlier + [last])) == Some(last)
  {
  }

  /** `plugins`: an array passes through, a string is split on commas. */
  function PluginNames(a: OptionArg): (r: seq<string>)
    ensures a.Repeated? ==> r == a.values
    ensures a.Single? ==> |r| >= 1 && Join(r, ',') == a.value
    ensures forall i :: a.Single? && 0 <= i < |r| ==> ',' !in r[i]
  {
    match a
    case Repeated(vs) => vs
    case Single(s) => JoinSplit(s, ','); Split(s, ',')
  }

  /** `envNames`: `PUTOUT_FILES` split on commas, none when it is empty or unset. */
  function EnvNames(putoutFiles: string): (r: seq<string>)
    ensures putoutFiles == "" <==> r == []
    ensures putoutFiles != "" ==> Join(r, ',') == putoutFiles
    ensures forall i :: 0 <= i < |r| ==> ',' !in r[i]
  {
    if putoutFiles == "" then [] else JoinSplit(putoutFiles, ','); Split(putoutFiles, ',')
  }

  /** A single file name in `PUTOUT_FILES` is the only name. */
  lemma EnvSingleName(name: string)
    requires name != "" && ',' !in name
    ensures EnvNames(name) == [name]
  {
    SplitNoSeparator(name, ',');
  }

  // ---- the driver's inputs ----

  /** The parsed arguments the driver reads. */
  datatype Args = Args(
    version: bool, help: bool, fix: bool, raw: bool, staged: bool,
    enable: string, disable: string, enableAll: bool, disableAll: bool,
    positional: seq<string>)

  /** The collaborators: what each call returns. */
  datatype World = World(
    version: string,
    help: string,
    putoutFiles: string,
    stagedNames: seq<string>,
    getFiles: seq<string> -> Result<seq<string>, JsError>,
    resolve: string -> string,
    getOptions: string -> FileOptions,
    readFile: string -> string,
    runProcessors: Processor.FileRun -> Result<Processor.Processed, JsError>,
    makeReport: (string, string, seq<Place>, nat, nat) -> Option<string>,
    merge: seq<seq<Place>> -> seq<Place>,
    stagedSet: Option<seq<string>>,
    place: int,
    stage: int)

  /** The events a run produces and how it ends: normally, or with an exception. */
  datatype Outcome<T> = Outcome(events: seq<Event>, result: Result<T, JsError>)

  const NoLength := TypeError("Cannot read property 'length' of undefined")

  function NoProcessor(name: string): JsError {
    Error("No processors found for " + name)
  }

  /** `[...stagedNames, ...args._, ...envNames]` */
  function Globs(args: Args, world: World): (globs: seq<string>)
    ensures var staged := if args.staged then world.stagedNames else [];
      && |globs| == |staged| + |args.positional| + |EnvNames(world.putoutFiles)|
      && globs[..|staged|] == staged
      && globs[|staged|..|staged| + |args.positional|] == args.positional
      && globs[|staged| + |args.positional|..] == EnvNames(world.putoutFiles)
  {
    var staged := if args.staged then world.stagedNames else [];
    var globs := staged + args.positional + EnvNames(world.putoutFiles);
    assert globs[..|staged|] == staged;
    assert globs[|staged|..|staged| + |args.positional|] == args.positional;
    globs
  }

  // ---- one file ----

  /** `isParsingError`: the places a parse failure produces. */
  function ParsingErrors(places: seq<Place>): nat
    decreases |places|
  {
    if places == [] then 0
    else ParsingErrors(places[..|places| - 1]) + (if places[|places| - 1].rule == "eslint/null" then 1 else 0)
  }

  /** `!places.filter(isParsingError).length` */
  predicate Fixable(places: seq<Place>) {
    ParsingErrors(places) == 0
  }

  lemma {:induction false} FixableIff(places: seq<Place>)
    ensures Fixable(places) <==> forall i :: 0 <= i < |places| ==> places[i].rule != "eslint/null"
    decreases |places|
  {
    if places != [] {
      var front := places[..|places| - 1];
      FixableIff(front);
      if Fixable(places) {
        forall i | 0 <= i < |places| ensures places[i].rule != "eslint/null" {
          if i < |places| - 1 {
            assert places[i] == front[i];
          }
        }
      }
    }
  }

  /** What `runProcessors` returns for one file. */
  function RunFile(world: World, resolved: string, rawSource: string, index: nat, length: nat): Result<Processor.Processed, JsError> {
    world.runProcessors(Processor.FileRun(resolved, rawSource, index, length, world.getOptions(resolved)))
  }

  /** One iteration of the loop over `names`. */
  function FileStep(args: Args, world: World, names: seq<string>, index: nat): Outcome<seq<Place>>
    requires index < |names|
  {
    var name := names[index];
    var resolved := world.resolve(name);
    var rawSource := world.readFile(resolved);
    var read := [Read(resolved)];
    match RunFile(world, resolved, rawSource, index, |names|)
    case Failure(e) => Outcome(read, Failure(e))
    case Success(p) =>
      var line := world.makeReport(name, rawSource, p.places, index, |names|).GetOr("");
      var reported := read + [Write(line)];
      if !p.isProcessed then Outcome(reported, Failure(NoProcessor(name)))
      else
        var written := if args.fix && rawSource != p.processedSource
          then [RemoveEntry(name), WriteFile(name, p.processedSource)] else [];
        var info := if Fixable(p.places) then [SetInfo(name, p.places)] else [];
        Outcome(reported + written + info, Success(p.places))
  }

  /** The loop over the first `k` names, stopping at the first exception. */
  function FileLoop(args: Args, world: World, names: seq<string>, k: nat): Outcome<seq<seq<Place>>>
    requires k <= |names|
    decreases k
  {
    if k == 0 then Outcome([], Success([]))
    else
      var prev := FileLoop(args, world, names, k - 1);
      if prev.result.Failure? then prev
      else LoopThen(prev, FileStep(args, world, names, k - 1))
  }

  /** The loop so far followed by one more file. */
  function LoopThen(prev: Outcome<seq<seq<Place>>>, step: Outcome<seq<Place>>): Outcome<seq<seq<Place>>>
    requires prev.result.Success?
  {
    match step.result
    case Failure(e) => Outcome(prev.events + step.events, Failure(e))
    case Success(places) => Outcome(prev.events + step.events, Success(prev.result.value + [places]))
  }

  lemma {:induction false} FileLoopFailureSticks(args: Args, world: World, names: seq<string>, k: nat)
    requires k <= |names| && FileLoop(args, world, names, k).result.Failure?
    ensures FileLoop(args, world, names, |names|) == FileLoop(args, world, names, k)
    decreases |names| - k
  {
    if k < |names| {
      FileLoopFailureSticks(args, world, names, k + 1);
    }
  }

  /** One more iteration of the loop: the file's events follow, unless an earlier file threw. */
  lemma FileLoopNext(args: Args, world: World, names: seq<string>, k: nat)
    requires k < |names|
    ensures var prev := FileLoop(args, world, names, k);
      var step := FileStep(args, world, names, k);
      FileLoop(args, world, names, k + 1) ==
        if prev.result.Failure? then prev
        else if step.result.Failure? then Outcome(prev.events + step.events, Failure(step.result.error))
        else Outcome(prev.events + step.events, Success(prev.result.value + [step.result.value]))
  {
  }

  /** The body of the loop for `names[index]`. */
  method ProcessName(args: Args, world: World, names: seq<string>, index: nat)
    returns (r: Result<seq<Place>, JsError>, ghost events: seq<Event>)
    requires index < |names|
    ensures Outcome(events, r) == FileStep(args, world, names, index)
  {
    var name := names[index];
    var resolved := world.resolve(name);
    var rawSource := world.readFile(resolved);
    events := [Read(resolved)];
    var processed := RunFile(world, resolved, rawSource, index, |names|);
    if processed.Failure? {
      return Failure(processed.error), events;
    }
    var p := processed.value;
    var line := world.makeReport(name, rawSource, p.places, index, |names|).GetOr("");
    events := events + [Write(line)];
    if !p.isProcessed {
      return Failure(NoProcessor(name)), events;
    }
    ghost var reported := events;
    if args.fix && rawSource != p.processedSource {
      events := events + [RemoveEntry(name)];
      events := events + [WriteFile(name, p.processedSource)];
    }
    ghost var written := events;
    if Fixable(p.places) {
      events := events + [SetInfo(name, p.places)];
    }
    r := Success(p.places);
  }

  /** The `for` loop over `names`, with its side effects in order. */
  method ProcessNames(args: Args, world: World, names: seq<string>)
    returns (r: Result<seq<seq<Place>>, JsError>, ghost trace: seq<Event>)
    ensures Outcome(trace, r) == FileLoop(args, world, names, |names|)
  {
    var rawPlaces: seq<seq<Place>> := [];
    trace := [];
    for index := 0 to |names|
      invariant Outcome(trace, Success(rawPlaces)) == FileLoop(args, world, names, index)
    {
      var places, events := ProcessName(args, world, names, index);
      FileLoopNext(args, world, names, index);
      trace := trace + events;
      if places.Failure? {
        FileLoopFailureSticks(args, world, names, index + 1);
        return Failure(places.error), trace;
      }
      rawPlaces := rawPlaces + [places.value];
    }
    r := Success(rawPlaces);
  }

  // ---- the whole run ----

  /** After the loop: merge, reconcile, then the ruler, staging and the final exit. */
  function Finish(args: Args, world: World, loop: Outcome<seq<seq<Place>>>): Outcome<()>
    requires loop.result.Success?
  {
    var after := AfterReconcile(args, world, world.merge(loop.result.value));
    Outcome(loop.events + [Reconcile] + after.events, after.result)
  }

  /** What follows `reconcile`, given the merged places. */
  function AfterReconcile(args: Args, world: World, merged: seq<Place>): Outcome<()> {
    if args.enableAll || args.disableAll then
      Outcome([RulerApply(args.enableAll, args.disableAll, merged)] + Exit(args.raw, NoArg), Success(()))
    else
      var staging := Staging(args, world);
      if staging.result.Failure? then staging
      else if merged != [] then Outcome(staging.events + Exit(args.raw, Code(world.place)), Success(()))
      else staging
  }

  /** `staged.set` in fix mode: its `length` is read, and an empty list exits with `STAGE`. */
  function Staging(args: Args, world: World): Outcome<()> {
    if !(args.fix && args.staged) then Outcome([], Success(()))
    else match world.stagedSet
      case None => Outcome([StagedSet], Failure(NoLength))
      case Some(names) => Outcome([StagedSet] + (if names == [] then Exit(args.raw, Code(world.stage)) else []), Success(()))
  }

  /** The exported driver, from the parsed arguments to the last side effect. */
  function Run(args: Args, world: World): Outcome<()> {
    if args.version then Outcome([Log("v" + world.version)] + Exit(args.raw, NoArg), Success(()))
    else if args.help then Outcome([Log(world.help)] + Exit(args.raw, NoArg), Success(()))
    else
      var start := Start(args, world);
      match world.getFiles(Globs(args, world))
      case Failure(e) => Outcome(start + Exit(args.raw, Thrown(e)), Success(()))
      case Success(names) =>
        if names == [] then Outcome(start + Exit(args.raw, NoArg), Success(()))
        else Batch(args, world, start + [CacheFiles], names)
  }

  /** The events before the files are known: the ruler, `staged.get` and `getFiles`. */
  function Start(args: Args, world: World): seq<Event> {
    var ruler := if args.enable != "" || args.disable != "" then [RulerInit(args.enable, args.disable)] else [];
    var staged := if args.staged then [StagedGet] else [];
    ruler + staged + [GetFiles(Globs(args, world))]
  }

  /** The loop over a non-empty list of names and what follows it. */
  function Batch(args: Args, world: World, prefix: seq<Event>, names: seq<string>): Outcome<()> {
    var loop := FileLoop(args, world, names, |names|);
    if loop.result.Failure? then Outcome(prefix + loop.events, Failure(loop.result.error))
    else Finish(args, world, Outcome(prefix + loop.events, loop.result))
  }

  /** The driver as a method: the per-file loop is `ProcessNames`. */
  method Execute(args: Args, world: World) returns (r: Result<(), JsError>, ghost trace: seq<Event>)
    ensures Outcome(trace, r) == Run(args, world)
  {
    if args.version {
      return Success(()), [Log("v" + world.version)] + Exit(args.raw, NoArg);
    }
    if args.help {
      return Success(()), [Log(world.help)] + Exit(args.raw, NoArg);
    }
    trace := [];
    if args.enable != "" || args.disable != "" {
      trace := trace + [RulerInit(args.enable, args.disable)];
    }
    if args.staged {
      trace := trace + [StagedGet];
    }
    var globs := Globs(args, world);
    trace := trace + [GetFiles(globs)];
    assert trace == Start(args, world);
    var files := world.getFiles(globs);
    if files.Failure? {
      return Success(()), trace + Exit(args.raw, Thrown(files.error));
    }
    var names := files.value;
    if names == [] {
      return Success(()), trace + Exit(args.raw, NoArg);
    }
    assert trace == Start(args, world);
    trace := trace + [CacheFiles];
    ghost var prefix := trace;
    var rawPlaces, loopTrace := ProcessNames(args, world, names);
    trace := trace + loopTrace;
    if rawPlaces.Failure? {
      return Failure(rawPlaces.error), trace;
    }
    r, trace := Conclude(args, world, trace, rawPlaces.value);
    assert Outcome(trace, r) == Batch(args, world, prefix, names);
  }

  /** The part of the driver after the loop. */
  method Conclude(args: Args, world: World, ghost before: seq<Event>, rawPlaces: seq<seq<Place>>)
    returns (r: Result<(), JsError>, ghost trace: seq<Event>)
    ensures Outcome(trace, r) == Finish(args, world, Outcome(before, Success(rawPlaces)))
  {
    var merged := world.merge(rawPlaces);
    trace := before + [Reconcile];
    ghost var reconciled := trace;
    if args.enableAll || args.disableAll {
      trace := trace + [RulerApply(args.enableAll, args.disableAll, merged)];
      trace := trace + Exit(args.raw, NoArg);
      assert trace == reconciled + AfterReconcile(args, world, merged).events;
      return Success(()), trace;
    }
    if args.fix && args.staged {
      trace := trace + [StagedSet];
      if world.stagedSet.None? {
        return Failure(NoLength), trace;
      }
      if world.stagedSet.value == [] {
        trace := trace + Exit(args.raw, Code(world.stage));
      }
    }
    assert trace == reconciled + Staging(args, world).events;
    if merged != [] {
      trace := trace + Exit(args.raw, Code(world.place));
    }
    assert trace == reconciled + AfterReconcile(args, world, merged).events;
    r := Success(());
  }

  // ---- properties of one file ----

  /** What `runProcessors` gives for `names[index]`. */
  function ProcessedAt(world: World, names: seq<string>, index: nat): Result<Processor.Processed, JsError>
    requires index < |names|
  {
    var resolved := world.resolve(names[index]);
    RunFile(world, resolved, world.readFile(resolved), index, |names|)
  }

  /** The cache entry is removed right before every write of a fixed file. */
  lemma RemoveBeforeWrite(args: Args, world: World, names: seq<string>, index: nat)
    requires index < |names|
    ensures var evs := FileStep(args, world, names, index).events;
      forall j :: 0 <= j < |evs| && evs[j].WriteFile? ==> 0 < j && evs[j - 1] == RemoveEntry(evs[j].name)
  {
  }

  /** A file is written, and its cache entry removed, exactly in fix mode, when it was
      processed and its source changed. */
  lemma WritesIff(args: Args, world: World, names: seq<string>, index: nat)
    requires index < |names|
    ensures var evs := FileStep(args, world, names, index).events;
      var p := ProcessedAt(world, names, index);
      var changed := p.Success? && p.value.isProcessed && args.fix
        && world.readFile(world.resolve(names[index])) != p.value.processedSource;
      && ((exists j :: 0 <= j < |evs| && evs[j].WriteFile?) <==> changed)
      && ((exists j :: 0 <= j < |evs| && evs[j].RemoveEntry?) <==> changed)
  {
    var evs := FileStep(args, world, names, index).events;
    var p := ProcessedAt(world, names, index);
    if p.Success? && p.value.isProcessed && args.fix
       && world.readFile(world.resolve(names[index])) != p.value.processedSource {
      assert evs[2].RemoveEntry?;
      assert evs[3].WriteFile?;
    }
  }

  /** Cache info is stored for a processed file exactly when no place is a parse error. */
  lemma SetInfoIff(args: Args, world: World, names: seq<string>, index: nat)
    requires index < |names|
    ensures var evs := FileStep(args, world, names, index).events;
      var p := ProcessedAt(world, names, index);
      (exists j :: 0 <= j < |evs| && evs[j].SetInfo?) <==>
        (p.Success? && p.value.isProcessed
         && forall i :: 0 <= i < |p.value.places| ==> p.value.places[i].rule != "eslint/null")
  {
    var evs := FileStep(args, world, names, index).events;
    var p := ProcessedAt(world, names, index);
    if p.Success? && p.value.isProcessed {
      FixableIff(p.value.places);
      if Fixable(p.value.places) {
        assert evs[|evs| - 1].SetInfo?;
      }
    }
  }

  /** A file no processor claims throws, but only after its report line was written. */
  lemma NoProcessorAfterReport(args: Args, world: World, names: seq<string>, index: nat)
    requires index < |names|
    requires ProcessedAt(world, names, index).Success? && !ProcessedAt(world, names, index).value.isProcessed
    ensures var step := FileStep(args, world, names, index);
      && step.result == Failure(NoProcessor(names[index]))
      && |step.events| == 2 && step.events[0].Read? && step.events[1].Write?
  {
  }

  // ---- properties of the whole run ----

  /** How often `e` occurs in `evs`. */
  function Count(evs: seq<Event>, e: Event): nat
    decreases |evs|
  {
    if evs == [] then 0 else Count(evs[..|evs| - 1], e) + (if evs[|evs| - 1] == e then 1 else 0)
  }

  lemma {:induction false} CountAppend(a: seq<Event>, b: seq<Event>, e: Event)
    ensures Count(a + b, e) == Count(a, e) + Count(b, e)
    decreases |b|
  {
    if b == [] {
      assert a + b == a;
    } else {
      assert (a + b)[..|a + b| - 1] == a + b[..|b| - 1];
      CountAppend(a, b[..|b| - 1], e);
    }
  }

  lemma {:induction false} CountAbsent(evs: seq<Event>, e: Event)
    requires forall j :: 0 <= j < |evs| ==> evs[j] != e
    ensures Count(evs, e) == 0
    decreases |evs|
  {
    if evs != [] {
      CountAbsent(evs[..|evs| - 1], e);
    }
  }

  /** No event of `evs` reconciles or halts, and outside fix mode none writes. */
  predicate Quiet(evs: seq<Event>, fix: bool) {
    forall j :: 0 <= j < |evs| ==>
      && evs[j] != Reconcile && !evs[j].Halt?
      && (!fix ==> !evs[j].WriteFile? && !evs[j].RemoveEntry?)
  }

  /** No event of `evs` writes a file or removes a cache entry. */
  predicate NoWrites(evs: seq<Event>) {
    forall j :: 0 <= j < |evs| ==> !evs[j].WriteFile? && !evs[j].RemoveEntry?
  }

  lemma QuietAppend(a: seq<Event>, b: seq<Event>, fix: bool)
    requires Quiet(a, fix) && Quiet(b, fix)
    ensures Quiet(a + b, fix)
  {
    forall j | 0 <= j < |a + b|
      ensures (a + b)[j] != Reconcile && !(a + b)[j].Halt?
      ensures !fix ==> !(a + b)[j].WriteFile? && !(a + b)[j].RemoveEntry?
    {
      if j < |a| {
        assert (a + b)[j] == a[j];
      } else {
        assert (a + b)[j] == b[j - |a|];
      }
    }
  }

  lemma NoWritesAppend(a: seq<Event>, b: seq<Event>)
    requires NoWrites(a) && NoWrites(b)
    ensures NoWrites(a + b)
  {
    forall j | 0 <= j < |a + b|
      ensures !(a + b)[j].WriteFile? && !(a + b)[j].RemoveEntry?
    {
      if j < |a| {
        assert (a + b)[j] == a[j];
      } else {
        assert (a + b)[j] == b[j - |a|];
      }
    }
  }

  /** One file never reconciles or halts, and outside fix mode never writes. */
  lemma FileStepQuiet(args: Args, world: World, names: seq<string>, index: nat)
    requires index < |names|
    ensures Quiet(FileStep(args, world, names, index).events, args.fix)
  {
  }

  /** The per-file loop never reconciles or halts, and outside fix mode never writes. */
  lemma FileLoopQuiet(args: Args, world: World, names: seq<string>, k: nat)
    requires k <= |names|
    ensures Quiet(FileLoop(args, world, names, k).events, args.fix)
  {
    for i := 0 to k
      invariant Quiet(FileLoop(args, world, names, i).events, args.fix)
    {
      FileLoopQuietStep(args, world, names, i);
    }
  }

  lemma FileLoopQuietStep(args: Args, world: World, names: seq<string>, k: nat)
    requires k < |names| && Quiet(FileLoop(args, world, names, k).events, args.fix)
    ensures Quiet(FileLoop(args, world, names, k + 1).events, args.fix)
  {
    var prev := FileLoop(args, world, names, k);
    if prev.result.Success? {
      var step := FileStep(args, world, names, k);
      FileStepQuiet(args, world, names, k);
      LoopThenQuiet(prev, step, args.fix);
      assert FileLoop(args, world, names, k + 1) == LoopThen(prev, step);
    }
  }

  lemma LoopThenQuiet(prev: Outcome<seq<seq<Place>>>, step: Outcome<seq<Place>>, fix: bool)
    requires prev.result.Success? && Quiet(prev.events, fix) && Quiet(step.events, fix)
    ensures Quiet(LoopThen(prev, step).events, fix)
  {
    QuietAppend(prev.events, step.events, fix);
  }

  /** What follows the loop never writes. */
  lemma FinishNoWrites(args: Args, world: World, loop: Outcome<seq<seq<Place>>>)
    requires loop.result.Success? && NoWrites(loop.events)
    ensures NoWrites(Finish(args, world, loop).events)
  {
    AfterReconcileQuiet(args, world, world.merge(loop.result.value));
    NoWritesAppend(loop.events, [Reconcile]);
    NoWritesAppend(loop.events + [Reconcile], AfterReconcile(args, world, world.merge(loop.result.value)).events);
  }

  /** The batch got through every file. */
  predicate LoopCompleted(args: Args, world: World) {
    && !args.version && !args.help
    && world.getFiles(Globs(args, world)).Success?
    && world.getFiles(Globs(args, world)).value != []
    && var names := world.getFiles(Globs(args, world)).value;
      FileLoop(args, world, names, |names|).result.Success?
  }

  /** The places merged after the loop. */
  function Merged(args: Args, world: World): seq<Place>
    requires LoopCompleted(args, world)
  {
    var names := world.getFiles(Globs(args, world)).value;
    world.merge(FileLoop(args, world, names, |names|).result.value)
  }

  /** Nothing after `reconcile` reconciles again. */
  lemma AfterReconcileQuiet(args: Args, world: World, merged: seq<Place>)
    ensures forall j :: 0 <= j < |AfterReconcile(args, world, merged).events| ==>
      AfterReconcile(args, world, merged).events[j] != Reconcile
    ensures NoWrites(AfterReconcile(args, world, merged).events)
  {
    var evs := AfterReconcile(args, world, merged).events;
    var staging := Staging(args, world).events;
    ExitSettled(args.raw, NoArg);
    ExitSettled(args.raw, Code(world.place));
    ExitSettled(args.raw, Code(world.stage));
    assert Settled([StagedSet]);
    SettledAppend([StagedSet], Exit(args.raw, Code(world.stage)));
    assert Settled(staging);
    if args.enableAll || args.disableAll {
      assert Settled([RulerApply(args.enableAll, args.disableAll, merged)]);
      SettledAppend([RulerApply(args.enableAll, args.disableAll, merged)], Exit(args.raw, NoArg));
    } else if Staging(args, world).result.Success? && merged != [] {
      SettledAppend(staging, Exit(args.raw, Code(world.place)));
    }
    assert Settled(evs);
  }

  /** No event of `evs` reconciles, writes a file or removes a cache entry. */
  predicate Settled(evs: seq<Event>) {
    forall j :: 0 <= j < |evs| ==> evs[j] != Reconcile && !evs[j].WriteFile? && !evs[j].RemoveEntry?
  }

  lemma SettledAppend(a: seq<Event>, b: seq<Event>)
    requires Settled(a) && Settled(b)
    ensures Settled(a + b)
  {
    forall j | 0 <= j < |a + b|
      ensures (a + b)[j] != Reconcile && !(a + b)[j].WriteFile? && !(a + b)[j].RemoveEntry?
    {
      if j < |a| {
        assert (a + b)[j] == a[j];
      } else {
        assert (a + b)[j] == b[j - |a|];
      }
    }
  }

  lemma ExitSettled(raw: bool, arg: ExitArg)
    ensures Settled(Exit(raw, arg))
  {
  }

  /** After the loop, `reconcile` runs once and is not repeated. */
  lemma FinishReconcilesOnce(args: Args, world: World, loop: Outcome<seq<seq<Place>>>)
    requires loop.result.Success? && Quiet(loop.events, args.fix)
    ensures Count(Finish(args, world, loop).events, Reconcile) == 1
  {
    var tail := AfterReconcile(args, world, world.merge(loop.result.value)).events;
    AfterReconcileQuiet(args, world, world.merge(loop.result.value));
    CountAbsent(loop.events, Reconcile);
    CountAbsent(tail, Reconcile);
    CountAppend(loop.events + [Reconcile], tail, Reconcile);
    CountAppend(loop.events, [Reconcile], Reconcile);
  }

  /** The batch reconciles once if every file went through, and never if one threw. */
  lemma BatchReconciles(args: Args, world: World, prefix: seq<Event>, names: seq<string>)
    requires Quiet(prefix, args.fix)
    ensures Count(Batch(args, world, prefix, names).events, Reconcile)
      == if FileLoop(args, world, names, |names|).result.Success? then 1 else 0
  {
    var loop := FileLoop(args, world, names, |names|);
    FileLoopQuiet(args, world, names, |names|);
    QuietAppend(prefix, loop.events, args.fix);
    if loop.result.Success? {
      FinishReconcilesOnce(args, world, Outcome(prefix + loop.events, loop.result));
    } else {
      CountAbsent(prefix + loop.events, Reconcile);
    }
  }

  /** `exit` does not reconcile. */
  lemma ExitNoReconcile(raw: bool, arg: ExitArg)
    ensures Count(Exit(raw, arg), Reconcile) == 0
  {
    CountAbsent(Exit(raw, arg), Reconcile);
  }

  /** Nothing before the loop reconciles. */
  lemma StartNoReconcile(args: Args, world: World)
    ensures Count(Start(args, world), Reconcile) == 0
  {
    StartQuiet(args, world);
    CountAbsent(Start(args, world), Reconcile);
  }

  /** A run that stops before the loop does not reconcile. */
  lemma EarlyRunReconcilesNever(args: Args, world: World)
    requires !LoopStarted(args, world)
    ensures Count(Run(args, world).events, Reconcile) == 0
  {
    if args.version {
      ExitNoReconcile(args.raw, NoArg);
      CountAppend([Log("v" + world.version)], Exit(args.raw, NoArg), Reconcile);
    } else if args.help {
      ExitNoReconcile(args.raw, NoArg);
      CountAppend([Log(world.help)], Exit(args.raw, NoArg), Reconcile);
    } else {
      var files := world.getFiles(Globs(args, world));
      var start := Start(args, world);
      var arg := if files.Failure? then Thrown(files.error) else NoArg;
      assert Run(args, world).events == start + Exit(args.raw, arg);
      StartNoReconcile(args, world);
      ExitNoReconcile(args.raw, arg);
      CountAppend(start, Exit(args.raw, arg), Reconcile);
    }
  }

  /** The run reached the loop over a non-empty list of files. */
  predicate LoopStarted(args: Args, world: World) {
    && !args.version && !args.help
    && world.getFiles(Globs(args, world)).Success?
    && world.getFiles(Globs(args, world)).value != []
  }

  /** Once the loop starts, the run is the batch over the files found. */
  lemma RunBatch(args: Args, world: World)
    requires LoopStarted(args, world)
    ensures Run(args, world) == Batch(args, world, Start(args, world) + [CacheFiles], world.getFiles(Globs(args, world)).value)
  {
  }

  /** The events before the loop never reconcile or halt, nor write. */
  lemma StartQuiet(args: Args, world: World)
    ensures Quiet(Start(args, world), args.fix) && NoWrites(Start(args, world))
  {
    var ruler := if args.enable != "" || args.disable != "" then [RulerInit(args.enable, args.disable)] else [];
    var staged := if args.staged then [StagedGet] else [];
    var getFiles := [GetFiles(Globs(args, world))];
    assert Start(args, world) == ruler + staged + getFiles;
    QuietAppend(ruler, staged, args.fix);
    QuietAppend(ruler + staged, getFiles, args.fix);
    NoWritesAppend(ruler, staged);
    NoWritesAppend(ruler + staged, getFiles);
  }

  /** `reconcile` runs exactly once when every file went through, and never otherwise. */
  lemma ReconcileOnce(args: Args, world: World)
    ensures Count(Run(args, world).events, Reconcile) == if LoopCompleted(args, world) then 1 else 0
  {
    if !LoopStarted(args, world) {
      EarlyRunReconcilesNever(args, world);
    } else {
      var names := world.getFiles(Globs(args, world)).value;
      var prefix := Start(args, world) + [CacheFiles];
      StartQuiet(args, world);
      QuietAppend(Start(args, world), [CacheFiles], args.fix);
      BatchReconciles(args, world, prefix, names);
      RunBatch(args, world);
    }
  }

  /** The batch writes nothing outside fix mode. */
  lemma BatchNoWrites(args: Args, world: World, prefix: seq<Event>, names: seq<string>)
    requires !args.fix && NoWrites(prefix)
    ensures NoWrites(Batch(args, world, prefix, names).events)
  {
    var loop := FileLoop(args, world, names, |names|);
    FileLoopQuiet(args, world, names, |names|);
    NoWritesAppend(prefix, loop.events);
    if loop.result.Success? {
      FinishNoWrites(args, world, Outcome(prefix + loop.events, loop.result));
    }
  }

  /** A run that stops before the loop writes nothing. */
  lemma EarlyRunNoWrites(args: Args, world: World)
    requires !LoopStarted(args, world)
    ensures NoWrites(Run(args, world).events)
  {
    if !args.version && !args.help {
      var files := world.getFiles(Globs(args, world));
      var start := Start(args, world);
      var arg := if files.Failure? then Thrown(files.error) else NoArg;
      assert Run(args, world).events == start + Exit(args.raw, arg);
      StartQuiet(args, world);
      NoWritesAppend(start, Exit(args.raw, arg));
    }
  }

  /** Outside fix mode no file is ever written and no cache entry removed. */
  lemma NoWritesWithoutFix(args: Args, world: World)
    requires !args.fix
    ensures NoWrites(Run(args, world).events)
  {
    if LoopStarted(args, world) {
      var start := Start(args, world);
      StartQuiet(args, world);
      NoWritesAppend(start, [CacheFiles]);
      BatchNoWrites(args, world, start + [CacheFiles], world.getFiles(Globs(args, world)).value);
      RunBatch(args, world);
    } else {
      EarlyRunNoWrites(args, world);
    }
  }

  /** A run that got through every file: the events before the loop, the loop's,
      `reconcile`, and what follows it. */
  lemma RunCompleted(args: Args, world: World)
    requires LoopCompleted(args, world)
    ensures var names := world.getFiles(Globs(args, world)).value;
      var after := AfterReconcile(args, world, Merged(args, world));
      Run(args, world) == Outcome(Start(args, world) + [CacheFiles] + FileLoop(args, world, names, |names|).events
        + [Reconcile] + after.events, after.result)
  {
    RunBatch(args, world);
  }

  lemma LastOfAppend(a: seq<Event>, b: seq<Event>, n: nat)
    requires n <= |b|
    ensures |a + b| >= n && (a + b)[|a + b| - n..] == b[|b| - n..]
  {
    assert (a + b)[|a + b| - n..] == b[|b| - n..];
  }

  /** With places left, no ruler pass and no staging, the run ends with `exit(PLACE)`. */
  lemma ExitWithPlaces(args: Args, world: World)
    requires LoopCompleted(args, world) && Merged(args, world) != []
    requires !args.enableAll && !args.disableAll && !(args.fix && args.staged && world.stagedSet.None?)
    ensures var out := Run(args, world);
      out.result.Success? && out.events[|out.events| - 1] == Halt(world.place)
  {
    RunCompleted(args, world);
    var names := world.getFiles(Globs(args, world)).value;
    var after := AfterReconcile(args, world, Merged(args, world));
    assert after.events == Staging(args, world).events + Exit(args.raw, Code(world.place));
    LastOfAppend(Start(args, world) + [CacheFiles] + FileLoop(args, world, names, |names|).events + [Reconcile], after.events, 1);
    LastOfAppend(Staging(args, world).events, Exit(args.raw, Code(world.place)), 1);
  }

  /** Without places, a plain run halts nowhere after the loop. */
  lemma NoPlacesNoExit(args: Args, world: World)
    requires LoopCompleted(args, world) && Merged(args, world) == []
    requires !args.enableAll && !args.disableAll && !(args.fix && args.staged)
    ensures var out := Run(args, world);
      out.result.Success? && out.events[|out.events| - 1] == Reconcile
  {
    RunCompleted(args, world);
  }

  /** `exit(STAGE)` is not returned from: when nothing is left staged and
      places remain, `exit(PLACE)` follows it. */
  lemma StageThenPlace(args: Args, world: World)
    requires LoopCompleted(args, world) && Merged(args, world) != []
    requires !args.enableAll && !args.disableAll && args.fix && args.staged
    requires world.stagedSet == Some([]) && world.stage != 0 && world.place != 0
    ensures var evs := Run(args, world).events;
      |evs| >= 3 && evs[|evs| - 3] == StagedSet && evs[|evs| - 2] == Halt(world.stage) && evs[|evs| - 1] == Halt(world.place)
  {
    RunCompleted(args, world);
    var names := world.getFiles(Globs(args, world)).value;
    var after := AfterReconcile(args, world, Merged(args, world));
    assert Staging(args, world).events == [StagedSet, Halt(world.stage)];
    assert after.events == Staging(args, world).events + Exit(args.raw, Code(world.place));
    LastOfAppend(Start(args, world) + [CacheFiles] + FileLoop(args, world, names, |names|).events + [Reconcile], after.events, 3);
  }

  /** When `staged.set` returns `undefined`, reading its `length` throws. */
  lemma UndefinedStagedThrows(args: Args, world: World)
    requires LoopCompleted(args, world)
    requires !args.enableAll && !args.disableAll && args.fix && args.staged && world.stagedSet.None?
    ensures Run(args, world).result == Failure(NoLength)
  {
    RunCompleted(args, world);
  }

  /** The ruler's `--enable-all`/`--disable-all` pass replaces every later step with `exit()`. */
  lemma RulerAllExits(args: Args, world: World)
    requires LoopCompleted(args, world) && (args.enableAll || args.disableAll)
    ensures var evs := Run(args, world).events;
      && |evs| >= 2
      && evs[|evs| - 2] == RulerApply(args.enableAll, args.disableAll, Merged(args, world))
      && evs[|evs| - 1] == Halt(0)
  {
    RunCompleted(args, world);
  }

  /** `--version` prints the version and halts with 0, and nothing else happens. */
  lemma VersionOnly(args: Args, world: World)
    requires args.version
    ensures Run(args, world) == Outcome([Log("v" + world.version), Halt(0)], Success(()))
  {
  }

  /** `getFiles` receives the staged names, then the positional arguments, then `PUTOUT_FILES`. */
  lemma GlobsRequested(args: Args, world: World)
    requires !args.version && !args.help
    ensures var evs := Run(args, world).events;
      var start := Start(args, world);
      && |start| <= |evs| && evs[..|start|] == start
      && start[|start| - 1] == GetFiles(Globs(args, world))
  {
  }
}
