/** The earlier `make-slo` command (slo/make-slo.go): argument parsing with its
    flag defaults, and the decisions `MakeSlo` takes before handing the upload
    to the static-large-object uploader library (which is not part of this
    model). In this version a non-positive chunk size means "pick the chunk
    size that cuts the file into 1000 chunks". */
module SloLegacy {
  import opened Common

  const MissingFlag := "m"
  const OutputFlag := "o"
  const ChunkFlag := "s"
  const ThreadsFlag := "t"

  /** Default of the chunk-size flag: any value <= 0 asks for a derived size. */
  const DefaultChunkSize: int := -1

  /** Number of chunks the derived chunk size aims for. */
  const TargetChunkCount: nat := 1000

  datatype FlagVals = FlagVals(onlyMissing: bool, outputFile: string, chunkSize: int, numThreads: int)

  datatype ArgVals = ArgVals(sloContainer: string, sloName: string, source: string, flags: FlagVals)

  /** Flag values when none is given on the command line; `numCpu` is what
      `runtime.NumCPU()` reports. */
  function DefaultFlags(numCpu: int): FlagVals
  {
    FlagVals(false, "", DefaultChunkSize, numCpu)
  }

  /** Flag values after parsing: each flag set explicitly overrides its default. */
  function FlagValsOf(given: map<string, FlagValue>, numCpu: int): (f: FlagVals)
    ensures given == map[] ==> f == DefaultFlags(numCpu)
    ensures ChunkFlag !in given ==> f.chunkSize == -1
    ensures ChunkFlag in given && given[ChunkFlag].IntValue? ==> f.chunkSize == given[ChunkFlag].i
    ensures ThreadsFlag in given && given[ThreadsFlag].IntValue? ==> f.numThreads == given[ThreadsFlag].i
    ensures OutputFlag in given && given[OutputFlag].StringValue? ==> f.outputFile == given[OutputFlag].s
    ensures OutputFlag !in given ==> f.outputFile == ""
    ensures ThreadsFlag !in given ==> f.numThreads == numCpu
    ensures MissingFlag !in given ==> !f.onlyMissing
    ensures MissingFlag in given && given[MissingFlag].BoolValue? ==> f.onlyMissing == given[MissingFlag].b
  {
    FlagVals(BoolFlag(given, MissingFlag, false),
             StringFlag(given, OutputFlag, ""),
             IntFlag(given, ChunkFlag, DefaultChunkSize),
             IntFlag(given, ThreadsFlag, numCpu))
  }

  /** `ParseArgs`: the container, object name and source path are the first
      three words; the flag parser only sees the words after them, and only
      when there are any. */
  function ParseArgs(args: seq<string>, numCpu: int, parse: FlagParser): (r: Result<ArgVals>)
    requires |args| >= 3
    ensures r.Ok? ==> r.value.sloContainer == args[0] && r.value.sloName == args[1] && r.value.source == args[2]
    ensures |args| == 3 ==> r == Ok(ArgVals(args[0], args[1], args[2], FlagVals(false, "", -1, numCpu)))
    ensures r.Err? <==> |args| > 3 && parse(args[3..]).Err?
    ensures r.Err? ==> r.msg == "Failed to parse flags: " + parse(args[3..]).msg
    ensures r.Ok? && |args| > 3 ==> r.value.flags == FlagValsOf(parse(args[3..]).value, numCpu)
  {
    if |args| > 3 then
      match parse(args[3..])
      case Err(e) => Err("Failed to parse flags: " + e)
      case Ok(given) => Ok(ArgVals(args[0], args[1], args[2], FlagValsOf(given, numCpu)))
    else
      Ok(ArgVals(args[0], args[1], args[2], DefaultFlags(numCpu)))
  }

  /** Ceiling of `n / d`. */
  function CeilDiv(n: nat, d: nat): nat
    requires d > 0
  {
    (n + d - 1) / d
  }

  /** Number of chunks a file of `fileSize` bytes is cut into with chunks of
      `chunk` bytes. */
  function ChunkCount(fileSize: nat, chunk: nat): nat
    requires chunk > 0
  {
    CeilDiv(fileSize, chunk)
  }

  /** The derived chunk size, ceil(fileSize / 1000), characterised without
      division: the smallest natural number whose thousandfold covers the file. */
  function DerivedChunkSize(fileSize: nat): (c: nat)
    ensures c * TargetChunkCount >= fileSize
    ensures c > 0 ==> (c - 1) * TargetChunkCount < fileSize
  {
    CeilDiv(fileSize, TargetChunkCount)
  }

  /** The chunk size `MakeSlo` hands to the uploader: a positive request as
      given, anything else replaced by the derived size. */
  function EffectiveChunkSize(requested: int, fileSize: nat): (c: int)
    ensures requested > 0 ==> c == requested
    ensures requested <= 0 ==> c == DerivedChunkSize(fileSize)
  {
    if requested <= 0 then DerivedChunkSize(fileSize) else requested
  }

  /** Cancelling a positive factor from a strict inequality. */
  lemma MulCancel(a: int, b: int, c: int)
    requires c > 0 && a * c < b * c
    ensures a < b
  {
  }

  /** A chunk count is at most `k` whenever `k` chunks of that size cover the file. */
  lemma CeilDivAtMost(n: nat, c: nat, k: nat)
    requires c > 0
    requires n <= k * c
    ensures CeilDiv(n, c) <= k
  {
    var q := CeilDiv(n, c);
    assert n + c - 1 == q * c + (n + c - 1) % c;
    assert (k + 1) * c == k * c + c;
    MulCancel(q, k + 1, c);
  }

  /** A chunk count exceeds `k` whenever `k` chunks of that size fall short. */
  lemma CeilDivAbove(n: nat, c: nat, k: nat)
    requires c > 0
    requires k * c < n
    ensures CeilDiv(n, c) > k
  {
    var q := CeilDiv(n, c);
    assert n + c - 1 == q * c + (n + c - 1) % c;
    assert (k + 1) * c == k * c + c;
    assert (q + 1) * c == q * c + c;
    MulCancel(k + 1, q + 1, c);
  }

  /** For a non-empty file the derived chunk is between one byte and the whole
      file, and it cuts the file into at most 1000 chunks. */
  lemma DerivedChunkSizeBounds(fileSize: nat)
    requires fileSize > 0
    ensures 1 <= DerivedChunkSize(fileSize) <= fileSize
    ensures ChunkCount(fileSize, DerivedChunkSize(fileSize)) <= TargetChunkCount
  {
    var c := DerivedChunkSize(fileSize);
    CeilDivAtMost(fileSize, c, TargetChunkCount);
  }

  /** No smaller chunk keeps the count within 1000: the derived size is the
      least one that does. */
  lemma DerivedChunkSizeIsLeast(fileSize: nat, smaller: nat)
    requires 0 < smaller < DerivedChunkSize(fileSize)
    ensures ChunkCount(fileSize, smaller) > TargetChunkCount
  {
    var c := DerivedChunkSize(fileSize);
    assert smaller * TargetChunkCount <= (c - 1) * TargetChunkCount;
    CeilDivAbove(fileSize, smaller, TargetChunkCount);
  }

  /** A file of at most 1000 bytes gets one-byte chunks, one chunk per byte,
      rather than a single chunk spanning the file. */
  lemma SmallFileOneByteChunks(fileSize: nat)
    requires 0 < fileSize <= TargetChunkCount
    ensures DerivedChunkSize(fileSize) == 1
    ensures ChunkCount(fileSize, DerivedChunkSize(fileSize)) == fileSize
  {
    CeilDivAtMost(fileSize, TargetChunkCount, 1);
    CeilDivAbove(fileSize, TargetChunkCount, 0);
  }

  /** An empty file with no chunk size requested gets chunk size 0. */
  lemma EmptyFileChunkSize(requested: int)
    requires requested <= 0
    ensures EffectiveChunkSize(requested, 0) == 0
  {
  }

  /** Where the uploader writes its log. */
  datatype Sink = Discard | LogFile(path: string)

  /** The arguments `MakeSlo` passes to the uploader library. */
  datatype UploadRequest = UploadRequest(
    chunkSize: int, container: string, name: string, source: string,
    threads: int, onlyMissing: bool, sink: Sink)

  /** What the operating system and the uploader library answer, step by step:
      opening the source, its size, opening the log file, constructing the
      uploader, and running the upload. */
  datatype SloEnv = SloEnv(
    open: Outcome, stat: Result<nat>, openOutput: Outcome, newUploader: Outcome, upload: Outcome)

  /** How `MakeSlo` ends, and the uploader it constructed, if it got that far. */
  datatype SloRun = SloRun(exit: Exit<()>, request: Option<UploadRequest>)

  function Failed(msg: string): Exit<()>
  {
    Return((), Some(msg))
  }

  /** The chunk size after `MakeSlo`'s adjustment, or the stat failure that
      stopped it. The file size is asked for only when it is needed. */
  function ChunkStep(requested: int, stat: Result<nat>): (r: Result<int>)
    ensures requested > 0 ==> r == Ok(requested)
    ensures r.Ok? ==> r.value >= 0
    ensures requested <= 0 ==> (r.Err? <==> stat.Err?)
    ensures requested <= 0 && stat.Ok? ==> r.value == EffectiveChunkSize(requested, stat.value)
    ensures r.Err? ==> stat.Err? && r.msg == "Failed to obtain file stats: " + stat.msg
  {
    if requested > 0 then Ok(requested)
    else
      match stat
      case Err(e) => Err("Failed to obtain file stats: " + e)
      case Ok(size) => Ok(EffectiveChunkSize(requested, size))
  }

  function RequestFor(argVals: ArgVals, chunk: int, sink: Sink): UploadRequest
  {
    UploadRequest(chunk, argVals.sloContainer, argVals.sloName, argVals.source,
                  argVals.flags.numThreads, argVals.flags.onlyMissing, sink)
  }

  /** `MakeSlo` with every error checked: the source is opened, the chunk size
      adjusted, the log sink chosen, the uploader constructed and run; the first
      failure ends the command with its message. */
  function MakeSlo(argVals: ArgVals, env: SloEnv): (r: SloRun)
    ensures r.exit.Return?
    ensures env.open.Fail? ==> r == SloRun(Failed("Failed to open source file: " + env.open.msg), None)
    ensures r.request.Some? ==>
      && env.open.Pass?
      && ChunkStep(argVals.flags.chunkSize, env.stat) == Ok(r.request.value.chunkSize)
      && (r.request.value.sink == Discard <==> argVals.flags.outputFile == "")
      && (r.request.value.sink.LogFile? ==> r.request.value.sink.path == argVals.flags.outputFile)
      && r.request.value.container == argVals.sloContainer
      && r.request.value.name == argVals.sloName
      && r.request.value.source == argVals.source
      && r.request.value.threads == argVals.flags.numThreads
      && r.request.value.onlyMissing == argVals.flags.onlyMissing
    ensures env.open.Pass? && ChunkStep(argVals.flags.chunkSize, env.stat).Err? ==>
      r == SloRun(Failed(ChunkStep(argVals.flags.chunkSize, env.stat).msg), None)
    ensures (env.open.Pass? && ChunkStep(argVals.flags.chunkSize, env.stat).Ok?
             && argVals.flags.outputFile != "" && env.openOutput.Fail?) ==>
      r == SloRun(Failed("Failed to open output file: " + env.openOutput.msg), None)
    ensures r.request.Some? <==>
      && env.open.Pass?
      && ChunkStep(argVals.flags.chunkSize, env.stat).Ok?
      && (argVals.flags.outputFile == "" || env.openOutput.Pass?)
    ensures r.request.Some? && env.newUploader.Fail? ==>
      r.exit == Failed("Failed to create SLO uploader: " + env.newUploader.msg)
    ensures r.request.Some? && env.newUploader.Pass? && env.upload.Fail? ==>
      r.exit == Failed("Failed to upload SLO: " + env.upload.msg)
    ensures r.exit == Return((), None) <==>
      && r.request.Some?
      && env.newUploader.Pass?
      && env.upload.Pass?
  {
    if env.open.Fail? then SloRun(Failed("Failed to open source file: " + env.open.msg), None)
    else
      match ChunkStep(argVals.flags.chunkSize, env.stat)
      case Err(e) => SloRun(Failed(e), None)
      case Ok(chunk) =>
        if argVals.flags.outputFile != "" && env.openOutput.Fail? then
          SloRun(Failed("Failed to open output file: " + env.openOutput.msg), None)
        else
          var sink := if argVals.flags.outputFile == "" then Discard else LogFile(argVals.flags.outputFile);
          var request := Some(RequestFor(argVals, chunk, sink));
          if env.newUploader.Fail? then
            SloRun(Failed("Failed to create SLO uploader: " + env.newUploader.msg), request)
          else if env.upload.Fail? then
            SloRun(Failed("Failed to upload SLO: " + env.upload.msg), request)
          else
            SloRun(Return((), None), request)
  }

  /** `MakeSlo` as the file has it. In the branch that opens a log file,
      `outFile, err :=` declares a new `err` inside the block, so the uploader
      constructor's error lands in that inner variable and the check after the
      block reads the outer one, which is nil. The command then reads
      `uploader.Status` from the nil uploader and panics. */
  function MakeSloAsWritten(argVals: ArgVals, env: SloEnv): (r: SloRun)
    ensures argVals.flags.outputFile == "" ==> r == MakeSlo(argVals, env)
    ensures r.request.Some? && r.request.value.sink.LogFile? && env.newUploader.Fail? ==> r.exit.Panic?
    ensures !(argVals.flags.outputFile != "" && env.newUploader.Fail? && MakeSlo(argVals, env).request.Some?) ==>
      r == MakeSlo(argVals, env)
    ensures (argVals.flags.outputFile != "" && env.newUploader.Fail? && MakeSlo(argVals, env).request.Some?) ==>
      r == SloRun(Panic("nil pointer dereference"), MakeSlo(argVals, env).request)
  {
    var fixed := MakeSlo(argVals, env);
    if fixed.request.Some? && argVals.flags.outputFile != "" && env.newUploader.Fail? then
      SloRun(Panic("nil pointer dereference"), fixed.request)
    else
      fixed
  }

  /** The shadowed error in action: with a log file requested and the uploader
      constructor failing, the written command does not report the failure,
      while the corrected one does. */
  lemma UploaderErrorLostWithLogFile(argVals: ArgVals, env: SloEnv)
    requires argVals.flags.outputFile != "" && argVals.flags.chunkSize > 0
    requires env.open.Pass? && env.openOutput.Pass? && env.newUploader.Fail?
    ensures MakeSloAsWritten(argVals, env).exit.Panic?
    ensures MakeSlo(argVals, env).exit == Failed("Failed to create SLO uploader: " + env.newUploader.msg)
  {
    assert MakeSlo(argVals, env).request.Some?;
  }

  /** With a positive chunk size requested the file is never stat-ed: the
      answer to stat does not change anything. */
  lemma StatUnusedForPositiveChunk(argVals: ArgVals, env: SloEnv, stat: Result<nat>)
    requires argVals.flags.chunkSize > 0
    ensures MakeSlo(argVals, env) == MakeSlo(argVals, env.(stat := stat))
  {
  }
}
