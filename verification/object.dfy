/** Object operations (object/object.go): reading a file for a single-object
    upload under the 5 GB limit, naming its content by the hex MD5 digest,
    the create-write-close sequence of `PutObject`, and the raw HTTP request
    that deletes a static large object together with its segments. The file
    system, the MD5 function and the storage service are parameters. */
module Object {
  import opened Common
  import Strings

  /** The largest object a single upload accepts: 1000 * 1000 * 1000 * 5 bytes. */
  const MaxObjectSize: nat := 5_000_000_000

  /** What `Stat` reports about the source file. */
  datatype FileInfo = FileInfo(name: string, size: nat)

  /** The operating system's answers: opening the file, stat-ing it, and the
      bytes one `Read` delivers. */
  datatype FileEnv = FileEnv(open: Outcome, stat: Result<FileInfo>, read: Result<seq<byte>>)

  /** The result of `getFileContents`, and whether it called `Read`. */
  datatype Contents = Contents(data: Result<seq<byte>>, readCalled: bool)

  function TooLargeMessage(name: string): string
  {
    name + " is too large to upload as a single object (max 5GB)"
  }

  /** The buffer after one `Read` into a zeroed buffer of `size` bytes: the
      delivered bytes first, zeros after them. The count `Read` returns is
      not looked at, so a short read leaves zeros in place. */
  function Fill(delivered: seq<byte>, size: nat): (data: seq<byte>)
    ensures |data| == size
    ensures forall i :: 0 <= i < size && i < |delivered| ==> data[i] == delivered[i]
    ensures forall i :: |delivered| <= i < size ==> data[i] == 0
  {
    seq(size, i requires 0 <= i < size => if i < |delivered| then delivered[i] else 0)
  }

  /** `getFileContents`: open, stat, refuse files over the limit, then read. */
  function GetFileContents(file: FileEnv): (c: Contents)
    ensures c.readCalled <==> file.open.Pass? && file.stat.Ok? && file.stat.value.size <= MaxObjectSize
    ensures c.data.Ok? <==> c.readCalled && file.read.Ok?
    ensures c.data.Ok? ==> c.data.value == Fill(file.read.value, file.stat.value.size)
    ensures file.open.Fail? ==> c.data == Err("Failed to open source file: " + file.open.msg)
    ensures file.open.Pass? && file.stat.Err? ==> c.data == Err("Failed to get source file info: %!s(MISSING)")
    ensures file.open.Pass? && file.stat.Ok? && file.stat.value.size > MaxObjectSize ==>
      c.data == Err(TooLargeMessage(file.stat.value.name))
    ensures c.readCalled && file.read.Err? ==> c.data == Err("Failed to read source file: " + file.read.msg)
  {
    if file.open.Fail? then Contents(Err("Failed to open source file: " + file.open.msg), false)
    else if file.stat.Err? then Contents(Err("Failed to get source file info: %!s(MISSING)"), false)
    else if file.stat.value.size > MaxObjectSize then Contents(Err(TooLargeMessage(file.stat.value.name)), false)
    else
      match file.read
      case Err(e) => Contents(Err("Failed to read source file: " + e), true)
      case Ok(delivered) => Contents(Ok(Fill(delivered, file.stat.value.size)), true)
  }

  /** The limit is inclusive: a file of exactly 5 GB is read, one byte more is
      refused by name before any read. */
  lemma SizeLimitIsInclusive(name: string, delivered: seq<byte>)
    ensures GetFileContents(FileEnv(Pass, Ok(FileInfo(name, MaxObjectSize)), Ok(delivered))).data.Ok?
    ensures var c := GetFileContents(FileEnv(Pass, Ok(FileInfo(name, MaxObjectSize + 1)), Ok(delivered)));
      c.data == Err(TooLargeMessage(name)) && !c.readCalled
  {
  }

  /** The lower-case hexadecimal digits of Go's `encoding/hex`. */
  const HexDigits := "0123456789abcdef"

  /** An MD5 digest (RFC 1321) is 16 bytes. */
  type Digest = d: seq<byte> | |d| == 16 witness seq(16, i => 0)

  /** `hex.EncodeToString`: two digits per byte, high nibble first. */
  function HexEncode(bytes: seq<byte>): (hex: string)
    ensures |hex| == 2 * |bytes|
    ensures forall i :: 0 <= i < |hex| ==> hex[i] in HexDigits
  {
    if bytes == [] then ""
    else [HexDigits[bytes[0] as int / 16], HexDigits[bytes[0] as int % 16]] + HexEncode(bytes[1..])
  }

  /** The value of a lower-case hexadecimal digit. */
  function HexValue(c: char): Option<nat>
  {
    if '0' <= c <= '9' then Some(c as int - '0' as int)
    else if 'a' <= c <= 'f' then Some(c as int - 'a' as int + 10)
    else None
  }

  /** The inverse of `HexEncode` on lower-case input: pairs of digits back to
      bytes, `None` on an odd length or a character that is not a digit. */
  function HexDecode(hex: string): Option<seq<byte>>
    decreases |hex|
  {
    if hex == [] then Some([])
    else if |hex| == 1 then None
    else
      match (HexValue(hex[0]), HexValue(hex[1]), HexDecode(hex[2..]))
      case (Some(hi), Some(lo), Some(rest)) =>
        if hi < 16 && lo < 16 then Some([(hi * 16 + lo) as byte] + rest) else None
      case _ => None
  }

  lemma HexDigitValue(n: int)
    requires 0 <= n < 16
    ensures HexValue(HexDigits[n]) == Some(n)
  {
  }

  /** One step of decoding: two digits in front of a decodable rest. */
  lemma HexDecodeStep(hex: string, hi: nat, lo: nat, rest: seq<byte>)
    requires |hex| >= 2 && hi < 16 && lo < 16
    requires HexValue(hex[0]) == Some(hi) && HexValue(hex[1]) == Some(lo)
    requires HexDecode(hex[2..]) == Some(rest)
    ensures HexDecode(hex) == Some([(hi * 16 + lo) as byte] + rest)
  {
  }

  /** One step of encoding: the two digits of the first byte in front. */
  lemma HexEncodeStep(bytes: seq<byte>)
    requires bytes != []
    ensures var hex := HexEncode(bytes);
      && HexValue(hex[0]) == Some(bytes[0] as int / 16)
      && HexValue(hex[1]) == Some(bytes[0] as int % 16)
      && hex[2..] == HexEncode(bytes[1..])
  {
    HexDigitValue(bytes[0] as int / 16);
    HexDigitValue(bytes[0] as int % 16);
  }

  /** Decoding the encoding of any byte string gives it back. */
  lemma {:induction false} HexRoundTrip(bytes: seq<byte>)
    ensures HexDecode(HexEncode(bytes)) == Some(bytes)
  {
    if bytes != [] {
      var b := bytes[0] as int;
      HexEncodeStep(bytes);
      HexRoundTrip(bytes[1..]);
      HexDecodeStep(HexEncode(bytes), b / 16, b % 16, bytes[1..]);
      assert (b / 16 * 16 + b % 16) as byte == bytes[0];
      assert bytes == [bytes[0]] + bytes[1..];
    }
  }

  /** `hashSource`: the lower-case hex of the MD5 digest of the data. */
  function HashSource(data: seq<byte>, md5: seq<byte> -> Digest): (hash: string)
    ensures |hash| == 32
    ensures forall i :: 0 <= i < |hash| ==> hash[i] in HexDigits
  {
    HexEncode(md5(data))
  }

  /** The digest can be read back from the hash: no information is lost. */
  lemma HashNamesDigest(data: seq<byte>, md5: seq<byte> -> Digest)
    ensures HexDecode(HashSource(data, md5)) == Some(md5(data))
  {
    HexRoundTrip(md5(data));
  }

  /** A request made to the storage service while uploading an object. */
  datatype SwiftCall =
    | ObjectCreate(container: string, name: string, hash: string)
    | ObjectWrite(data: seq<byte>)
    | ObjectClose

  /** The storage service's answers to the three requests. */
  datatype SwiftEnv = SwiftEnv(create: Outcome, write: Outcome, close: Outcome)

  /** How `PutObject` ends, the requests it made in order, and whether it
      read the file. */
  datatype PutRun = PutRun(outcome: Outcome, calls: seq<SwiftCall>, readCalled: bool)

  /** `PutObject`: read the file, hash it, create the object with that hash,
      write the same bytes, and close the writer. */
  function PutObject(container: string, objectName: string, path: string, file: FileEnv,
                     md5: seq<byte> -> Digest, swift: SwiftEnv): (r: PutRun)
    ensures r.readCalled == GetFileContents(file).readCalled
    ensures GetFileContents(file).data.Err? ==>
      r.outcome == Fail("Failed to get file contents at path " + path + ": " + GetFileContents(file).data.msg)
      && r.calls == []
    ensures r.calls != [] ==>
      && GetFileContents(file).data.Ok?
      && var data := GetFileContents(file).data.value;
      && r.calls <= [ObjectCreate(container, objectName, HashSource(data, md5)), ObjectWrite(data), ObjectClose]
    ensures r.outcome == Pass <==>
      GetFileContents(file).data.Ok? && swift.create.Pass? && swift.write.Pass? && swift.close.Pass?
    ensures r.outcome == Pass ==> |r.calls| == 3
    ensures GetFileContents(file).data.Ok? ==>
      var data := GetFileContents(file).data.value;
      var create := ObjectCreate(container, objectName, HashSource(data, md5));
      && (swift.create.Fail? ==>
            r == PutRun(Fail("Failed to create object: " + swift.create.msg), [create], true))
      && (swift.create.Pass? && swift.write.Fail? ==>
            r == PutRun(Fail("Failed to write object: " + swift.write.msg), [create, ObjectWrite(data)], true))
      && (swift.create.Pass? && swift.write.Pass? && swift.close.Fail? ==>
            r == PutRun(Fail("Failed to close object writer: " + swift.close.msg),
                        [create, ObjectWrite(data), ObjectClose], true))
  {
    var contents := GetFileContents(file);
    match contents.data
    case Err(e) => PutRun(Fail("Failed to get file contents at path " + path + ": " + e), [], contents.readCalled)
    case Ok(data) =>
      var create := ObjectCreate(container, objectName, HashSource(data, md5));
      if swift.create.Fail? then
        PutRun(Fail("Failed to create object: " + swift.create.msg), [create], true)
      else if swift.write.Fail? then
        PutRun(Fail("Failed to write object: " + swift.write.msg), [create, ObjectWrite(data)], true)
      else if swift.close.Fail? then
        PutRun(Fail("Failed to close object writer: " + swift.close.msg), [create, ObjectWrite(data), ObjectClose], true)
      else
        PutRun(Pass, [create, ObjectWrite(data), ObjectClose], true)
  }

  /** The hash announced when the object is created is the hash of exactly the
      bytes written into it, and the write comes after the create. */
  lemma HashMatchesWrittenBytes(container: string, objectName: string, path: string, file: FileEnv,
                                md5: seq<byte> -> Digest, swift: SwiftEnv, i: int, j: int)
    requires var calls := PutObject(container, objectName, path, file, md5, swift).calls;
      0 <= i < |calls| && 0 <= j < |calls| && calls[i].ObjectCreate? && calls[j].ObjectWrite?
    ensures var calls := PutObject(container, objectName, path, file, md5, swift).calls;
      i < j && calls[i].hash == HashSource(calls[j].data, md5)
  {
  }

  /** A file over the limit is neither read nor uploaded. */
  lemma OversizedFileNotUploaded(container: string, objectName: string, path: string, file: FileEnv,
                                 md5: seq<byte> -> Digest, swift: SwiftEnv)
    requires file.open.Pass? && file.stat.Ok? && file.stat.value.size > MaxObjectSize
    ensures var r := PutObject(container, objectName, path, file, md5, swift);
      r.calls == [] && !r.readCalled
      && r.outcome == Fail("Failed to get file contents at path " + path + ": " + TooLargeMessage(file.stat.value.name))
  {
  }

  /** An HTTP request as built by `http.NewRequest` plus the headers set on it. */
  datatype HttpRequest = HttpRequest(verb: string, url: string, headers: map<string, string>)

  datatype HttpResponse = HttpResponse(statusCode: int, status: string)

  /** Whether `http.NewRequest` accepts the URL, and the server's answer. */
  datatype DeleteEnv = DeleteEnv(newRequest: Outcome, response: Result<HttpResponse>)

  /** How `DeleteLargeObject` ends, and the request it sent, if any. */
  datatype DeleteRun = DeleteRun(outcome: Outcome, sent: Option<HttpRequest>)

  const ManifestDeleteQuery := "multipart-manifest=delete"

  /** The Swift static-large-object delete URL for an object. */
  function DeleteUrl(storageUrl: string, container: string, objectName: string): string
  {
    storageUrl + "/" + container + "/" + objectName + "?" + ManifestDeleteQuery
  }

  /** The status check of `DeleteLargeObject`. */
  predicate IsSuccessStatus(code: int)
  {
    !(code < 200 || code >= 300)
  }

  /** Success means exactly the 2xx class of status codes. */
  lemma SuccessIsTwoHundredClass(code: int)
    ensures IsSuccessStatus(code) <==> code / 100 == 2
  {
  }

  /** `DeleteLargeObject`: a DELETE of the object's manifest URL, carrying the
      connection's token, that succeeds on a 2xx status. The error messages
      for a failed request omit their argument, as the format strings do. */
  function DeleteLargeObject(storageUrl: string, authToken: string, container: string, objectName: string,
                             env: DeleteEnv): (r: DeleteRun)
    ensures r.sent.Some? <==> env.newRequest.Pass?
    ensures r.sent.Some? ==>
      && r.sent.value.verb == "DELETE"
      && r.sent.value.url == DeleteUrl(storageUrl, container, objectName)
      && r.sent.value.headers == map["X-Auth-Token" := authToken]
    ensures r.outcome == Pass <==> env.newRequest.Pass? && env.response.Ok? && IsSuccessStatus(env.response.value.statusCode)
    ensures env.newRequest.Fail? ==> r.outcome == Fail("Failed to create request: %!s(MISSING)")
    ensures env.newRequest.Pass? && env.response.Err? ==> r.outcome == Fail("Failed to make request: %!s(MISSING)")
    ensures env.newRequest.Pass? && env.response.Ok? && !IsSuccessStatus(env.response.value.statusCode) ==>
      r.outcome == Fail("Failed to delete object with status " + env.response.value.status)
  {
    if env.newRequest.Fail? then DeleteRun(Fail("Failed to create request: %!s(MISSING)"), None)
    else
      var request := HttpRequest("DELETE", DeleteUrl(storageUrl, container, objectName), map["X-Auth-Token" := authToken]);
      match env.response
      case Err(_) => DeleteRun(Fail("Failed to make request: %!s(MISSING)"), Some(request))
      case Ok(response) =>
        if response.statusCode < 200 || response.statusCode >= 300 then
          DeleteRun(Fail("Failed to delete object with status " + response.status), Some(request))
        else
          DeleteRun(Pass, Some(request))
  }

  /** When no part holds a '?', the delete URL splits at its one '?' into the
      object's path and the manifest-delete query, and the path ends with the
      object name. */
  lemma DeleteUrlParts(storageUrl: string, container: string, objectName: string)
    requires '?' !in storageUrl && '?' !in container && '?' !in objectName
    ensures Strings.Split(DeleteUrl(storageUrl, container, objectName), '?')
         == [storageUrl + "/" + container + "/" + objectName, ManifestDeleteQuery]
  {
    var path := storageUrl + "/" + container + "/" + objectName;
    assert '?' !in path;
    assert '?' !in ManifestDeleteQuery;
    assert DeleteUrl(storageUrl, container, objectName) == path + ['?'] + ManifestDeleteQuery;
    Strings.SplitConcat(path, ManifestDeleteQuery, '?');
    Strings.SplitOfSeparatorFree(ManifestDeleteQuery, '?');
  }
}
