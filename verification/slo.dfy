/** The later `make-slo` command (slo/slo.go): argument parsing with a 1 GB
    default chunk size, and the decisions `MakeSlo` takes before handing the
    upload to the static-large-object uploader library (not part of this
    model). In this version the requested chunk size is only ever lowered to
    the file size. */
module Slo {
  import opened Common

  const MissingFlag := "m"
  const OutputFlag := "o"
  const ChunkFlag := "s"
  const ThreadsFlag := "t"

  /** Default chunk size: 1 * 1000 * 1000 * 1000 bytes. */
  const DefaultChunkSize: int := 1_000_000_000

  datatype FlagVals = FlagVals(onlyMissing: bool, outputFile: string, chunkSize: int, numThreads: int)

  datatype ArgVals = ArgVals(sloContainer: string, sloName: string, source: string, flags: FlagVals)

  /** Flag values when none is given; `numCpu` is what `runtime.NumCPU()` reports. */
  function DefaultFlags(numCpu: int): FlagVals
  {
    FlagVals(false, "", DefaultChunkSize, numCpu)
  }

  /** Flag values after parsing: each flag set explicitly overrides its default. */
  function FlagValsOf(given: map<string, FlagValue>, numCpu: int): (f: FlagVals)
    ensures given == map[] ==> f == DefaultFlags(numCpu)
    ensures ChunkFlag !in given ==> f.chunkSize == 1_000_000_000
    ensures ChunkFlag in given && given[ChunkFlag].IntValue? ==> f.chunkSize == given[ChunkFlag].i
    ensures ThreadsFlag in given && given[ThreadsFlag].IntValue? ==> f.numThreads == given[ThreadsFlag].i
    ensures OutputFlag in given && given[OutputFlag].StringValue? ==> f.outputFile == given[OutputFlag].s
    ensures OutputFlag !in given ==> f.outputFile == ""
    ensures ThreadsFlag !in given ==> f.numThreads == numCpu
    ensures MissingFlag !in given ==> !f.onlyMissing
    ensures MissingFlag in given && given[MissingFlag].BoolValue? ==> f.onlyMissing == given[MissingFlag].b
  {
    FlagVals(BoolFlag(given, MissingFlag, false),
             StringFlag(given, OutputFlag, ""),
             IntFlag(given, ChunkFlag, DefaultChunkSize),
             IntFlag(given, ThreadsFlag, numCpu))
  }

  /** `parseArgs`: container, object name and source path are the first three
      words; the flag parser sees the words after them, and only when there
      are any. */
  function ParseArgs(args: seq<string>, numCpu: int, parse: FlagParser): (r: Result<ArgVals>)
    requires |args| >= 3
    ensures r.Ok? ==> r.value.sloContainer == args[0] && r.value.sloName == args[1] && r.value.source == args[2]
    ensures |args| == 3 ==> r == Ok(ArgVals(args[0], args[1], args[2], FlagVals(false, "", 1_000_000_000, numCpu)))
    ensures r.Err? <==> |args| > 3 && parse(args[3..]).Err?
    ensures r.Err? ==> r.msg == "Failed to parse flags: " + parse(args[3..]).msg
    ensures r.Ok? && |args| > 3 ==> r.value.flags == FlagValsOf(parse(args[3..]).value, numCpu)
  {
    if |args| > 3 then
      match parse(args[3..])
      case Err(e) => Err("Failed to parse flags: " + e)
      case Ok(given) => Ok(ArgVals(args[0], args[1], args[2], FlagValsOf(given, numCpu)))
    else
      Ok(ArgVals(args[0], args[1], args[2], DefaultFlags(numCpu)))
  }

  /** The thread count is read from the flag named "t", whatever else is set. */
  lemma ThreadsFromFlagT(args: seq<string>, numCpu: int, parse: FlagParser, n: int)
    requires |args| > 3
    requires parse(args[3..]).Ok?
    requires ThreadsFlag in parse(args[3..]).value && parse(args[3..]).value[ThreadsFlag] == IntValue(n)
    ensures ParseArgs(args, numCpu, parse).value.flags.numThreads == n
  {
  }

  /** The chunk size after `MakeSlo`'s adjustment: the request, lowered to the
      file size when it is larger. Nothing else is checked; zero and negative
      requests pass through. */
  function ClampChunkSize(requested: int, fileSize: nat): (c: int)
    ensures c <= fileSize
    ensures c <= requested
    ensures c == requested || c == fileSize
  {
    if fileSize < requested then fileSize else requested
  }

  /** The clamp is the minimum of request and file size, and leaves a request
      that fits unchanged. */
  lemma ClampIsMinimum(requested: int, fileSize: nat)
    ensures requested <= fileSize ==> ClampChunkSize(requested, fileSize) == requested
    ensures requested >= fileSize ==> ClampChunkSize(requested, fileSize) == fileSize
  {
  }

  /** Clamping a clamped size again changes nothing. */
  lemma ClampIdempotent(requested: int, fileSize: nat)
    ensures ClampChunkSize(ClampChunkSize(requested, fileSize), fileSize) == ClampChunkSize(requested, fileSize)
  {
  }

  /** Where the uploader writes its log. */
  datatype Sink = Discard | LogFile(path: string)

  /** The arguments `MakeSlo` passes to the uploader library. */
  datatype UploadRequest = UploadRequest(
    chunkSize: int, container: string, name: string, source: string,
    threads: int, onlyMissing: bool, sink: Sink)

  /** What the operating system and the uploader library answer: opening the
      source, its size, opening the log file, constructing the uploader, and
      running the upload. */
  datatype SloEnv = SloEnv(
    open: Outcome, stat: Result<nat>, openOutput: Outcome, newUploader: Outcome, upload: Outcome)

  /** How `MakeSlo` ends, and the uploader it constructed, if it got that far. */
  datatype SloRun = SloRun(exit: Exit<string>, request: Option<UploadRequest>)

  function Failed(msg: string): Exit<string>
  {
    Return("", Some(msg))
  }

  /** The confirmation printed on success, without its terminal colour codes. */
  function SuccessMessage(name: string, container: string): string
  {
    "\rOK\n\nSuccessfully created SLO " + name + " in container " + container + "\n"
  }

  /** The log sink chosen from the output flag. */
  function SinkFor(outputFile: string): (s: Sink)
    ensures s == Discard <==> outputFile == ""
    ensures s.LogFile? ==> s.path == outputFile
  {
    if outputFile == "" then Discard else LogFile(outputFile)
  }

  /** `MakeSlo`: the arguments after the first three words are parsed (the
      parse error is dropped, since `err` is reassigned before anyone reads it,
      and the nil result is then dereferenced; fewer than three words there
      fail on an index out of range); then the source is opened and stat-ed,
      the chunk clamped, the log sink chosen, and the uploader built and run.
      Every failure after parsing returns "" with its message. */
  function MakeSlo(args: seq<string>, numCpu: int, parse: FlagParser, env: SloEnv): (r: SloRun)
    ensures |args| < 6 ==> r == SloRun(Panic("index out of range"), None)
    ensures |args| >= 6 ==> (ParseArgs(args[3..], numCpu, parse).Err? <==> r.exit.Panic?)
    ensures r.exit.Return? && r.exit.err.Some? ==> r.exit.value == ""
    ensures |args| >= 6 && ParseArgs(args[3..], numCpu, parse).Ok? ==>
      var a := ParseArgs(args[3..], numCpu, parse).value;
      && (env.open.Fail? ==> r == SloRun(Failed("Failed to open source file: " + env.open.msg), None))
      && (env.open.Pass? && env.stat.Err? ==>
            r == SloRun(Failed("Failed to obtain file stats: " + env.stat.msg), None))
      && (env.open.Pass? && env.stat.Ok? && a.flags.outputFile != "" && env.openOutput.Fail? ==>
            r == SloRun(Failed("Failed to open output file: " + env.openOutput.msg), None))
      && (r.request.Some? <==>
            env.open.Pass? && env.stat.Ok? && (a.flags.outputFile == "" || env.openOutput.Pass?))
      && (r.request.Some? ==>
            && r.request.value.threads == a.flags.numThreads
            && r.request.value.onlyMissing == a.flags.onlyMissing)
      && (r.request.Some? && env.newUploader.Fail? ==>
            r.exit == Failed("Failed to create SLO uploader: " + env.newUploader.msg))
      && (r.request.Some? && env.newUploader.Pass? && env.upload.Fail? ==>
            r.exit == Failed("Failed to upload SLO: " + env.upload.msg))
    ensures r.request.Some? ==>
      && |args| >= 6
      && ParseArgs(args[3..], numCpu, parse).Ok?
      && var a := ParseArgs(args[3..], numCpu, parse).value;
      && env.open.Pass? && env.stat.Ok?
      && r.request.value.chunkSize == ClampChunkSize(a.flags.chunkSize, env.stat.value)
      && r.request.value.sink == SinkFor(a.flags.outputFile)
      && r.request.value.container == args[3]
      && r.request.value.name == args[4]
      && r.request.value.source == args[5]
    ensures r.request.Some? ==>
      (r.exit == Return(SuccessMessage(args[4], args[3]), None) <==> env.newUploader.Pass? && env.upload.Pass?)
    ensures r.exit.Return? && r.exit.err == None ==>
      r.request.Some? && r.exit.value == SuccessMessage(args[4], args[3])
  {
    if |args| < 6 then SloRun(Panic("index out of range"), None)
    else
    match ParseArgs(args[3..], numCpu, parse)
    case Err(_) => SloRun(Panic("nil pointer dereference"), None)
    case Ok(a) =>
      if env.open.Fail? then SloRun(Failed("Failed to open source file: " + env.open.msg), None)
      else if env.stat.Err? then SloRun(Failed("Failed to obtain file stats: " + env.stat.msg), None)
      else
        var chunk := ClampChunkSize(a.flags.chunkSize, env.stat.value);
        if a.flags.outputFile != "" && env.openOutput.Fail? then
          SloRun(Failed("Failed to open output file: " + env.openOutput.msg), None)
        else
          var request := UploadRequest(chunk, a.sloContainer, a.sloName, a.source,
                                       a.flags.numThreads, a.flags.onlyMissing, SinkFor(a.flags.outputFile));
          if env.newUploader.Fail? then
            SloRun(Failed("Failed to create SLO uploader: " + env.newUploader.msg), Some(request))
          else if env.upload.Fail? then
            SloRun(Failed("Failed to upload SLO: " + env.upload.msg), Some(request))
          else
            SloRun(Return(SuccessMessage(a.sloName, a.sloContainer), None), Some(request))
  }

  /** The uploader never receives a chunk larger than the file. */
  lemma UploadChunkWithinFile(args: seq<string>, numCpu: int, parse: FlagParser, env: SloEnv)
    requires MakeSlo(args, numCpu, parse, env).request.Some?
    ensures env.stat.Ok?
    ensures MakeSlo(args, numCpu, parse, env).request.value.chunkSize <= env.stat.value
  {
  }
}
