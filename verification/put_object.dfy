/** The `put-object` command (object/put-object.go): a container and a source
    path, with the object named after the file unless "-n" renames it; then
    the file is opened and handed to the object uploader library (not part of
    this model), whose answer arrives as a parameter. */
module PutObjectCommand {
  import opened Common
  import Strings

  const RenameFlag := "n"

  datatype ArgVals = ArgVals(container: string, source: string, rename: string)

  /** `ParseArgs`: the first two words are the container and the source path;
      the words after them, if any, go to the flag parser. The object name
      defaults to the last element of the source path. */
  function ParseArgs(args: seq<string>, parse: FlagParser): (r: Result<ArgVals>)
    requires |args| >= 2
    ensures r.Err? <==> |args| > 2 && parse(args[2..]).Err?
    ensures r.Err? ==> r.msg == "Failed to parse flags: " + parse(args[2..]).msg
    ensures r.Ok? ==> r.value.container == args[0] && r.value.source == args[1]
    ensures r.Ok? && |args| > 2 && RenameFlag in parse(args[2..]).value
              && parse(args[2..]).value[RenameFlag].StringValue? ==>
      r.value.rename == parse(args[2..]).value[RenameFlag].s
    ensures r.Ok? && (|args| == 2 || RenameFlag !in parse(args[2..]).value) ==>
      r.value.rename == Strings.Base(args[1])
  {
    var defaultName := Strings.Base(args[1]);
    if |args| > 2 then
      match parse(args[2..])
      case Err(e) => Err("Failed to parse flags: " + e)
      case Ok(given) => Ok(ArgVals(args[0], args[1], StringFlag(given, RenameFlag, defaultName)))
    else
      Ok(ArgVals(args[0], args[1], defaultName))
  }

  /** Without flags, a source "dir/name" becomes the object "name" in the
      named container. */
  lemma DefaultNameIsFileName(container: string, dir: string, name: string, parse: FlagParser)
    requires |name| > 0 && '/' !in name
    ensures ParseArgs([container, dir + "/" + name], parse) == Ok(ArgVals(container, dir + "/" + name, name))
  {
    Strings.BaseOfJoin(dir, name);
  }

  /** The object name is never empty and never holds a '/' unless the source
      itself is "/" or the name was given explicitly. */
  lemma DefaultNameIsOneElement(args: seq<string>, parse: FlagParser)
    requires |args| >= 2
    requires ParseArgs(args, parse).Ok?
    requires |args| == 2 || RenameFlag !in parse(args[2..]).value
    ensures |ParseArgs(args, parse).value.rename| > 0
    ensures ParseArgs(args, parse).value.rename == "/" || '/' !in ParseArgs(args, parse).value.rename
  {
  }

  /** The object uploader's request: destination container, object name and
      the file it reads. */
  datatype UploadRequest = UploadRequest(container: string, name: string, source: string)

  /** How `PutObject` ends, and what it handed to the uploader. */
  datatype PutRun = PutRun(exit: Exit<string>, request: Option<UploadRequest>)

  /** `PutObject`: open the source, upload it under the chosen name, and
      return that name. `open` and `upload` are the answers of the operating
      system and of the uploader. */
  function PutObject(argVals: ArgVals, open: Outcome, upload: Outcome): (r: PutRun)
    ensures r.exit.Return?
    ensures r.request.Some? <==> open.Pass?
    ensures r.request.Some? ==> r.request.value == UploadRequest(argVals.container, argVals.rename, argVals.source)
    ensures r.exit.err.None? <==> open.Pass? && upload.Pass?
    ensures r.exit.err.None? ==> r.exit.value == argVals.rename
    ensures r.exit.err.Some? ==> r.exit.value == ""
    ensures open.Fail? ==> r.exit.err == Some("Failed to open source file: " + open.msg)
    ensures open.Pass? && upload.Fail? ==> r.exit.err == Some("Failed to upload object: " + upload.msg)
  {
    if open.Fail? then PutRun(Return("", Some("Failed to open source file: " + open.msg)), None)
    else
      var request := UploadRequest(argVals.container, argVals.rename, argVals.source);
      if upload.Fail? then PutRun(Return("", Some("Failed to upload object: " + upload.msg)), Some(request))
      else PutRun(Return(argVals.rename, None), Some(request))
  }

  /** A successful run reports the name the object was uploaded under. */
  lemma ReportedNameIsUploadedName(argVals: ArgVals, open: Outcome, upload: Outcome)
    requires PutObject(argVals, open, upload).exit.err.None?
    ensures PutObject(argVals, open, upload).request.Some?
    ensures PutObject(argVals, open, upload).exit.value == PutObject(argVals, open, upload).request.value.name
  {
  }
}
