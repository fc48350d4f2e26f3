/** The later `make-dlo` command (dlo/dlo.go): manifest container and name,
    with the segment container and segment prefix defaulting to them; the
    manifest itself is written by the uploader library (not part of this
    model), whose answer arrives as a parameter. */
module Dlo {
  import opened Common

  const ContainerFlag := "c"
  const PrefixFlag := "p"

  datatype ArgVals = ArgVals(dloContainer: string, dloName: string, segmentContainer: string, prefix: string)

  /** `parseArgs`: the first two words are the manifest's container and name;
      "-c" and "-p" default to those two words. */
  function ParseArgs(args: seq<string>, parse: FlagParser): (r: Result<ArgVals>)
    requires |args| >= 2
    ensures r.Err? <==> |args| > 2 && parse(args[2..]).Err?
    ensures r.Err? ==> r.msg == "Failed to parse flags: " + parse(args[2..]).msg
    ensures r.Ok? ==> r.value.dloContainer == args[0] && r.value.dloName == args[1]
    ensures |args| == 2 ==> r == Ok(ArgVals(args[0], args[1], args[0], args[1]))
    ensures r.Ok? && |args| > 2 ==>
      var given := parse(args[2..]).value;
      && (ContainerFlag !in given ==> r.value.segmentContainer == args[0])
      && (PrefixFlag !in given ==> r.value.prefix == args[1])
      && (ContainerFlag in given && given[ContainerFlag].StringValue? ==>
            r.value.segmentContainer == given[ContainerFlag].s)
      && (PrefixFlag in given && given[PrefixFlag].StringValue? ==> r.value.prefix == given[PrefixFlag].s)
  {
    if |args| > 2 then
      match parse(args[2..])
      case Err(e) => Err("Failed to parse flags: " + e)
      case Ok(given) =>
        Ok(ArgVals(args[0], args[1], StringFlag(given, ContainerFlag, args[0]), StringFlag(given, PrefixFlag, args[1])))
    else
      Ok(ArgVals(args[0], args[1], args[0], args[1]))
  }

  /** The uploader's request: manifest container and name, segment container
      and segment prefix. */
  datatype UploadRequest = UploadRequest(container: string, name: string, segmentContainer: string, prefix: string)

  datatype DloRun = DloRun(exit: Exit<string>, request: Option<UploadRequest>)

  /** The confirmation printed on success, without its terminal colour codes. */
  function SuccessMessage(name: string, segmentContainer: string, prefix: string): string
  {
    "\rOK\n\nCreated manifest for " + name + ", upload segments to container "
      + segmentContainer + " prefixed with " + prefix + "\n"
  }

  /** `MakeDlo`: the words after the first three are parsed; the parse error
      is overwritten before anyone reads it, so a bad flag ends in a nil
      pointer dereference, and fewer than two words there in an index out of
      range. Otherwise the manifest is uploaded. */
  function MakeDlo(args: seq<string>, parse: FlagParser, upload: Outcome): (r: DloRun)
    ensures |args| < 5 ==> r == DloRun(Panic("index out of range"), None)
    ensures |args| >= 5 ==> (r.exit.Panic? <==> ParseArgs(args[3..], parse).Err?)
    ensures r.request.Some? <==> r.exit.Return?
    ensures r.request.Some? ==>
      && |args| >= 5
      && ParseArgs(args[3..], parse).Ok?
      && var a := ParseArgs(args[3..], parse).value;
      && r.request.value == UploadRequest(args[3], args[4], a.segmentContainer, a.prefix)
      && if upload.Pass? then r.exit == Return(SuccessMessage(args[4], a.segmentContainer, a.prefix), None)
         else r.exit == Return("", Some("Failed to upload DLO manifest: " + upload.msg))
    ensures |args| == 5 ==> r.request == Some(UploadRequest(args[3], args[4], args[3], args[4]))
  {
    if |args| < 5 then DloRun(Panic("index out of range"), None)
    else
    match ParseArgs(args[3..], parse)
    case Err(_) => DloRun(Panic("nil pointer dereference"), None)
    case Ok(a) =>
      var request := UploadRequest(a.dloContainer, a.dloName, a.segmentContainer, a.prefix);
      if upload.Fail? then DloRun(Return("", Some("Failed to upload DLO manifest: " + upload.msg)), Some(request))
      else DloRun(Return(SuccessMessage(a.dloName, a.segmentContainer, a.prefix), None), Some(request))
  }

  /** Flags only redirect the segments: the manifest always goes to the
      container and name given as plain words. */
  lemma ManifestPlacementIgnoresFlags(args: seq<string>, parse1: FlagParser, parse2: FlagParser, upload: Outcome)
    requires MakeDlo(args, parse1, upload).request.Some? && MakeDlo(args, parse2, upload).request.Some?
    ensures MakeDlo(args, parse1, upload).request.value.container == MakeDlo(args, parse2, upload).request.value.container
    ensures MakeDlo(args, parse1, upload).request.value.name == MakeDlo(args, parse2, upload).request.value.name
  {
  }
}
