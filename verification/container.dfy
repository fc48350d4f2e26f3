/** Container creation (container/container.go): `MakeContainer` turns each
    "name:value" argument into a header and only then asks the storage service
    to create the container. A single malformed argument aborts the whole
    command before anything is created. */
module Container {
  import opened Common
  import Strings

  const HeaderFormatError := "Unable to parse headers (must use format header-name:header-value)"

  /** An argument is a header exactly when splitting it on ':' yields two
      pieces, that is when it holds exactly one ':'. */
  predicate IsHeader(h: string)
  {
    |Strings.Split(h, ':')| == 2
  }

  function HeaderName(h: string): string
    requires IsHeader(h)
  {
    Strings.Split(h, ':')[0]
  }

  function HeaderValue(h: string): string
    requires IsHeader(h)
  {
    Strings.Split(h, ':')[1]
  }

  /** The header map built by the loop of `MakeContainer`: arguments are taken
      in order, a later header of the same name overwriting an earlier one, and
      the first malformed argument turns the whole result into the error. */
  function ParseHeaders(headers: seq<string>): (r: Result<map<string, string>>)
    ensures r.Err? <==> exists i :: 0 <= i < |headers| && !IsHeader(headers[i])
    ensures r.Err? ==> r.msg == HeaderFormatError
    ensures r.Ok? ==> |r.value| <= |headers|
    decreases |headers|
  {
    if |headers| == 0 then Ok(map[])
    else
      var prefix := headers[..|headers| - 1];
      var last := headers[|headers| - 1];
      assert forall i :: 0 <= i < |prefix| ==> prefix[i] == headers[i];
      match ParseHeaders(prefix)
      case Err(e) => Err(e)
      case Ok(m) =>
        if !IsHeader(last) then Err(HeaderFormatError)
        else
          var r := m[HeaderName(last) := HeaderValue(last)];
          assert |r.Keys| <= |m.Keys| + 1 by {
            assert r.Keys == m.Keys + {HeaderName(last)};
          }
          Ok(r)
  }

  /** The names in the header map are exactly the names of the arguments. */
  lemma {:induction false} HeaderNames(headers: seq<string>)
    requires ParseHeaders(headers).Ok?
    ensures forall i :: 0 <= i < |headers| ==> HeaderName(headers[i]) in ParseHeaders(headers).value
    ensures forall k :: k in ParseHeaders(headers).value ==>
      exists i :: 0 <= i < |headers| && HeaderName(headers[i]) == k
  {
    if |headers| > 0 {
      var n := |headers|;
      var prefix := headers[..n - 1];
      assert forall i :: 0 <= i < |prefix| ==> prefix[i] == headers[i];
      assert ParseHeaders(prefix).Ok?;
      HeaderNames(prefix);
    }
  }

  /** Every accepted header contributes its value under its name, unless a
      later argument sets the same name: the last occurrence wins. */
  lemma {:induction false} LastOccurrenceWins(headers: seq<string>, i: int)
    requires ParseHeaders(headers).Ok?
    requires 0 <= i < |headers|
    requires forall j :: i < j < |headers| ==> HeaderName(headers[j]) != HeaderName(headers[i])
    ensures HeaderName(headers[i]) in ParseHeaders(headers).value
    ensures ParseHeaders(headers).value[HeaderName(headers[i])] == HeaderValue(headers[i])
  {
    var n := |headers|;
    var prefix := headers[..n - 1];
    assert ParseHeaders(prefix).Ok?;
    if i < n - 1 {
      assert prefix[i] == headers[i];
      forall j | i < j < |prefix|
        ensures HeaderName(prefix[j]) != HeaderName(prefix[i])
      {
        assert prefix[j] == headers[j];
      }
      LastOccurrenceWins(prefix, i);
    }
  }

  /** A name and a value without ':' make an accepted header, read back
      verbatim: nothing is trimmed, and either part may be empty. */
  lemma HeaderRoundTrip(name: string, value: string)
    requires ':' !in name && ':' !in value
    ensures IsHeader(name + ":" + value)
    ensures HeaderName(name + ":" + value) == name
    ensures HeaderValue(name + ":" + value) == value
  {
    assert Strings.Join([name, value], ':') == name + ":" + value;
    Strings.SplitJoin([name, value], ':');
  }

  /** Conversely an accepted header is its name, a ':', and its value. */
  lemma HeaderSplitsAtItsColon(h: string)
    requires IsHeader(h)
    ensures h == HeaderName(h) + ":" + HeaderValue(h)
    ensures ':' !in HeaderName(h) && ':' !in HeaderValue(h)
    ensures Strings.Count(h, ':') == 1
  {
    var parts := Strings.Split(h, ':');
    Strings.JoinSplit(h, ':');
    assert Strings.Join(parts, ':') == parts[0] + [':'] + Strings.Join(parts[1..], ':');
    Strings.SplitPiecesAreSeparatorFree(h, ':');
    Strings.SplitLength(h, ':');
  }

  /** Empty names and values are accepted: splitting still yields two pieces. */
  lemma EmptyPartsAccepted()
    ensures IsHeader("X:") && HeaderName("X:") == "X" && HeaderValue("X:") == ""
    ensures IsHeader(":") && HeaderName(":") == "" && HeaderValue(":") == ""
  {
    HeaderRoundTrip("X", "");
    HeaderRoundTrip("", "");
  }

  /** Zero or two and more colons are rejected. */
  lemma MalformedRejected(h: string)
    requires Strings.Count(h, ':') != 1
    ensures !IsHeader(h)
  {
    Strings.SplitLength(h, ':');
  }

  /** The line `MakeContainer` prints to standard output for an accepted
      header, as it reaches it. */
  function EchoLine(h: string): string
    requires IsHeader(h)
  {
    "\nHeader: " + HeaderName(h) + " Value: " + HeaderValue(h)
  }

  /** The lines printed while the headers are scanned: one per header, in
      order, up to the first malformed one, which ends the scan. */
  function Echoed(headers: seq<string>): (lines: seq<string>)
    ensures |lines| <= |headers|
    ensures forall i :: 0 <= i < |lines| ==> IsHeader(headers[i]) && lines[i] == EchoLine(headers[i])
    ensures |lines| < |headers| ==> !IsHeader(headers[|lines|])
  {
    if |headers| == 0 || !IsHeader(headers[0]) then []
    else [EchoLine(headers[0])] + Echoed(headers[1..])
  }

  /** The outcome of `MakeContainer`, the headers sent with the create
      request if it was made, and the lines echoed on the way. */
  datatype ContainerRun = ContainerRun(outcome: Outcome, created: Option<map<string, string>>, echoed: seq<string>)

  /** `MakeContainer`: parse every header first, echoing each accepted one;
      create the container only when all of them parse. `create` is the
      storage service's answer. */
  function MakeContainer(container: string, headers: seq<string>, create: Outcome): (r: ContainerRun)
    ensures r.created.Some? <==> forall i :: 0 <= i < |headers| ==> IsHeader(headers[i])
    ensures r.created.Some? ==> ParseHeaders(headers) == Ok(r.created.value)
    ensures r.created.None? ==> r.outcome == Fail(HeaderFormatError)
    ensures r.outcome == Pass <==> r.created.Some? && create == Pass
    ensures r.created.Some? && create.Fail? ==> r.outcome == Fail("Failed to create container: " + create.msg)
    ensures |headers| == 0 ==> r.created == Some(map[])
    ensures r.echoed == Echoed(headers)
    ensures r.created.Some? <==> |r.echoed| == |headers|
  {
    var echoed := Echoed(headers);
    match ParseHeaders(headers)
    case Err(e) => ContainerRun(Fail(e), None, echoed)
    case Ok(m) =>
      var outcome := if create.Fail? then Fail("Failed to create container: " + create.msg) else Pass;
      ContainerRun(outcome, Some(m), echoed)
  }
}
