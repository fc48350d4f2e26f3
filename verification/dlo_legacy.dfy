/** The earlier `make-dlo` command (dlo/make-dlo.go): the same arguments as the
    later version, but the caller parses them and `MakeDlo` only reports
    whether the manifest upload succeeded. */
module DloLegacy {
  import opened Common

  const ContainerFlag := "c"
  const PrefixFlag := "p"

  datatype ArgVals = ArgVals(dloContainer: string, dloName: string, segmentContainer: string, prefix: string)

  /** `ParseArgs`: manifest container and name, "-c" and "-p" defaulting to them. */
  function ParseArgs(args: seq<string>, parse: FlagParser): (r: Result<ArgVals>)
    requires |args| >= 2
    ensures r.Err? <==> |args| > 2 && parse(args[2..]).Err?
    ensures r.Err? ==> r.msg == "Failed to parse flags: " + parse(args[2..]).msg
    ensures r.Ok? ==> r.value.dloContainer == args[0] && r.value.dloName == args[1]
    ensures |args| == 2 ==> r == Ok(ArgVals(args[0], args[1], args[0], args[1]))
    ensures r.Ok? && |args| > 2 ==>
      var given := parse(args[2..]).value;
      && r.value.segmentContainer == StringFlag(given, ContainerFlag, args[0])
      && r.value.prefix == StringFlag(given, PrefixFlag, args[1])
  {
    if |args| > 2 then
      match parse(args[2..])
      case Err(e) => Err("Failed to parse flags: " + e)
      case Ok(given) =>
        Ok(ArgVals(args[0], args[1], StringFlag(given, ContainerFlag, args[0]), StringFlag(given, PrefixFlag, args[1])))
    else
      Ok(ArgVals(args[0], args[1], args[0], args[1]))
  }

  /** Segments land beside the manifest, named after it, unless a flag says
      otherwise. */
  lemma SegmentsDefaultToManifest(args: seq<string>, parse: FlagParser)
    requires |args| >= 2
    requires ParseArgs(args, parse).Ok?
    requires |args| == 2 || (ContainerFlag !in parse(args[2..]).value && PrefixFlag !in parse(args[2..]).value)
    ensures ParseArgs(args, parse).value.segmentContainer == args[0]
    ensures ParseArgs(args, parse).value.prefix == args[1]
  {
  }

  /** The manifest uploader's request: manifest container and name, segment
      container and segment prefix. */
  datatype UploadRequest = UploadRequest(container: string, name: string, segmentContainer: string, prefix: string)

  /** How `MakeDlo` ends, and the request it handed to the uploader. */
  datatype DloRun = DloRun(outcome: Outcome, request: UploadRequest)

  /** `MakeDlo`: hand the parsed arguments to the manifest uploader; its
      error, wrapped, or nil. */
  function MakeDlo(argVals: ArgVals, upload: Outcome): (r: DloRun)
    ensures r.request.container == argVals.dloContainer && r.request.name == argVals.dloName
    ensures r.request.segmentContainer == argVals.segmentContainer && r.request.prefix == argVals.prefix
    ensures r.outcome.Pass? <==> upload.Pass?
    ensures r.outcome.Fail? ==> r.outcome.msg == "Failed to upload DLO manifest: " + upload.msg
  {
    var request := UploadRequest(argVals.dloContainer, argVals.dloName, argVals.segmentContainer, argVals.prefix);
    if upload.Fail? then DloRun(Fail("Failed to upload DLO manifest: " + upload.msg), request)
    else DloRun(Pass, request)
  }
}
