/** Credentials and authentication (x_auth/get_auth_info.go). The plugin finds
    the object-storage service in the current Cloud Foundry space, reads its
    service key through the `cf` command line, decodes the JSON credentials,
    and authenticates against the service's identity endpoint. `Authenticate`
    keeps the last good credentials in a cache file and falls back to fetching
    fresh ones, with at most two authentication attempts per run.

    The Cloud Foundry connection, the JSON codec, the identity service and the
    file system are parameters: the model decides what the plugin does with
    their answers, not what the answers are. */
module XAuth {
  import opened Common
  import Strings

  datatype Service = Service(name: string)

  /** The service key's fields, in the order the plugin declares them. */
  datatype Credentials = Credentials(
    authUrl: string, domainId: string, domainName: string, password: string, project: string,
    projectId: string, region: string, role: string, userId: string, username: string)

  /** What the identity service hands back: the storage endpoint and a token. */
  datatype Destination = Destination(storageUrl: string, authToken: string)

  /** The arguments of one call of `auth.Authenticate`. */
  datatype AuthRequest = AuthRequest(username: string, password: string, authUrl: string, domain: string, tenant: string)

  /** `json.Unmarshal` into the credentials record, and `json.Marshal` of it. */
  type JsonDecoder = string -> Result<Credentials>
  type JsonEncoder = Credentials -> Result<string>

  /** The Cloud Foundry connection as the plugin sees it during one lookup:
      the login state, the services of the space, the output lines of a `cf`
      command (given as its words), and the JSON capture the plugin applies
      to the output of `cf service-key`. */
  datatype CliEnv = CliEnv(
    loggedIn: bool, loginErr: Option<string>, services: Result<seq<Service>>,
    run: seq<string> -> Result<seq<string>>, captureJson: string -> Option<string>)

  // ---------------------------------------------------------------------
  // findService

  const NoServices := "No services found in current space (check your internet connection)"

  /** Some service of the space carries the target name. */
  predicate Offers(services: seq<Service>, target: string)
  {
    exists i :: 0 <= i < |services| && services[i].name == target
  }

  /** `findService`: the listing error, an empty space, and a missing target
      are three different failures; otherwise the target is present. */
  function FindService(services: Result<seq<Service>>, target: string): (r: Outcome)
    ensures r.Pass? <==> services.Ok? && Offers(services.value, target)
    ensures services.Err? ==> r == Fail("Failed to get services in requested org: " + services.msg)
    ensures services == Ok([]) ==> r == Fail(NoServices)
    ensures services.Ok? && |services.value| > 0 && !Offers(services.value, target) ==>
      r == Fail("Service '" + target + "' not found in current space")
  {
    match services
    case Err(e) => Fail("Failed to get services in requested org: " + e)
    case Ok(list) =>
      if |list| < 1 then Fail(NoServices)
      else if !Offers(list, target) then Fail("Service '" + target + "' not found in current space")
      else Pass
  }

  /** The loop of `findService`: every service is visited and a match only
      ever sets the flag, so the outcome is membership. */
  method ScanServices(services: seq<Service>, target: string) returns (found: bool)
    ensures found <==> Offers(services, target)
  {
    found := false;
    var i := 0;
    while i < |services|
      invariant 0 <= i <= |services|
      invariant found <==> exists j :: 0 <= j < i && services[j].name == target
    {
      if services[i].name == target {
        found := true;
      }
      i := i + 1;
    }
  }

  /** The answer depends only on which services are listed: not on their
      order, nor on how often each appears. */
  lemma OffersIgnoresOrderAndDuplicates(s1: seq<Service>, s2: seq<Service>, target: string)
    requires forall x :: x in s1 <==> x in s2
    ensures Offers(s1, target) <==> Offers(s2, target)
  {
    if Offers(s1, target) {
      var i :| 0 <= i < |s1| && s1[i].name == target;
      assert s1[i] in s2;
    }
    if Offers(s2, target) {
      var i :| 0 <= i < |s2| && s2[i].name == target;
      assert s2[i] in s1;
    }
  }

  // ---------------------------------------------------------------------
  // getCredentialsName

  /** The line that introduces the key names in `cf service-keys` output. */
  const NameHeading := "\nname\n"

  predicate HeadingAt(text: string, i: int)
  {
    0 <= i && i + |NameHeading| <= |text| && text[i..i + |NameHeading|] == NameHeading
  }

  /** The text up to the first line break. */
  function FirstLine(s: string): (line: string)
    ensures line <= s && '\n' !in line
    ensures line == s || s[|line|] == '\n'
  {
    if |s| == 0 || s[0] == '\n' then "" else [s[0]] + FirstLine(s[1..])
  }

  /** The capture of the plugin's expression "\nname\n" followed by a group of
      anything but line breaks: the rest of the line after the leftmost
      heading, empty if that line is empty. */
  function NameAfterHeading(text: string): (name: Option<string>)
    ensures name.None? <==> forall i :: !HeadingAt(text, i)
    ensures name.Some? ==> '\n' !in name.value
    decreases |text|
  {
    if |text| < |NameHeading| then None
    else if text[..|NameHeading|] == NameHeading then
      assert HeadingAt(text, 0);
      Some(FirstLine(text[|NameHeading|..]))
    else
      var r := NameAfterHeading(text[1..]);
      assert forall i :: HeadingAt(text[1..], i) <==> HeadingAt(text, i + 1) by {
        forall i ensures HeadingAt(text[1..], i) <==> HeadingAt(text, i + 1) {
          if 0 <= i && i + |NameHeading| <= |text| - 1 {
            assert text[1..][i..i + |NameHeading|] == text[i + 1..i + 1 + |NameHeading|];
          }
        }
      }
      assert !HeadingAt(text, 0);
      assert forall i :: HeadingAt(text, i) ==> HeadingAt(text[1..], i - 1);
      r
  }

  /** Dropping the first character shifts every heading one place left. */
  lemma HeadingShift(text: string, i: nat)
    requires |text| > 0
    ensures HeadingAt(text[1..], i) <==> HeadingAt(text, i + 1)
  {
    if i + |NameHeading| <= |text| - 1 {
      assert text[1..][i..i + |NameHeading|] == text[i + 1..i + 1 + |NameHeading|];
    }
  }

  /** The name is read from the leftmost heading, up to its line's end. */
  lemma {:induction false} NameIsLeftmost(text: string)
    requires NameAfterHeading(text).Some?
    ensures exists i :: HeadingAt(text, i) && (forall j :: 0 <= j < i ==> !HeadingAt(text, j))
                        && NameAfterHeading(text).value == FirstLine(text[i + |NameHeading|..])
    decreases |text|
  {
    if text[..|NameHeading|] == NameHeading {
      assert HeadingAt(text, 0);
    } else {
      var rest := text[1..];
      assert NameAfterHeading(text) == NameAfterHeading(rest);
      NameIsLeftmost(rest);
      var i :| HeadingAt(rest, i) && (forall j :: 0 <= j < i ==> !HeadingAt(rest, j))
                && NameAfterHeading(rest).value == FirstLine(rest[i + |NameHeading|..]);
      HeadingShift(text, i);
      forall j | 0 <= j < i + 1 ensures !HeadingAt(text, j) {
        if j > 0 {
          HeadingShift(text, j - 1);
        }
      }
      assert rest[i + |NameHeading|..] == text[i + 1 + |NameHeading|..];
      assert HeadingAt(text, i + 1) && (forall j :: 0 <= j < i + 1 ==> !HeadingAt(text, j));
    }
  }

  /** A line followed by a line break is read back whole. */
  lemma {:induction false} FirstLineOf(line: string, rest: string)
    requires '\n' !in line
    ensures FirstLine(line + "\n" + rest) == line
  {
    if |line| > 0 {
      assert (line + "\n" + rest)[1..] == line[1..] + "\n" + rest;
      FirstLineOf(line[1..], rest);
    }
  }

  /** Output whose key listing starts right at a heading yields the key name. */
  lemma ListingYieldsName(name: string, rest: string)
    requires '\n' !in name
    ensures NameAfterHeading(NameHeading + name + "\n" + rest) == Some(name)
  {
    var text := NameHeading + name + "\n" + rest;
    assert text[..|NameHeading|] == NameHeading;
    assert text[|NameHeading|..] == name + "\n" + rest;
    FirstLineOf(name, rest);
  }

  /** `getCredentialsName`: run `cf service-keys <target>` and read the first
      key name from its output, joined with line breaks. */
  function GetCredentialsName(target: string, cli: CliEnv): (r: Result<string>)
    ensures cli.run(["service-keys", target]).Err? ==>
      r == Err("Failed to find credentials for service '" + target + "': " + cli.run(["service-keys", target]).msg)
    ensures r.Ok? <==> cli.run(["service-keys", target]).Ok?
                       && NameAfterHeading(Strings.Join(cli.run(["service-keys", target]).value, '\n')).Some?
    ensures r.Ok? ==> r.value == NameAfterHeading(Strings.Join(cli.run(["service-keys", target]).value, '\n')).value
    ensures r.Ok? ==> '\n' !in r.value
    ensures (cli.run(["service-keys", target]).Ok?
       && NameAfterHeading(Strings.Join(cli.run(["service-keys", target]).value, '\n')).None?) ==>
      r == Err("Could not find credentials for target service")
  {
    match cli.run(["service-keys", target])
    case Err(e) => Err("Failed to find credentials for service '" + target + "': " + e)
    case Ok(stdout) =>
      match NameAfterHeading(Strings.Join(stdout, '\n'))
      case None => Err("Could not find credentials for target service")
      case Some(name) => Ok(name)
  }

  // ---------------------------------------------------------------------
  // getJSONCredentials and extractFromJSON

  /** `getJSONCredentials`: run `cf service-key <target> <name>` and capture the
      JSON object from its output lines, joined without separator. */
  function GetJsonCredentials(target: string, name: string, cli: CliEnv): (r: Result<string>)
    ensures r.Ok? <==> cli.run(["service-key", target, name]).Ok?
                       && cli.captureJson(Strings.Concat(cli.run(["service-key", target, name]).value)).Some?
    ensures r.Ok? ==> r.value == cli.captureJson(Strings.Concat(cli.run(["service-key", target, name]).value)).value
    ensures cli.run(["service-key", target, name]).Err? ==>
      r == Err("Failed to get credentials '" + name + "' for service '" + target + "': "
               + cli.run(["service-key", target, name]).msg)
    ensures cli.run(["service-key", target, name]).Ok? && r.Err? ==>
      r.msg == "Failed to fetch JSON credentials for service '" + target + "'"
  {
    match cli.run(["service-key", target, name])
    case Err(e) => Err("Failed to get credentials '" + name + "' for service '" + target + "': " + e)
    case Ok(stdout) =>
      match cli.captureJson(Strings.Concat(stdout))
      case None => Err("Failed to fetch JSON credentials for service '" + target + "'")
      case Some(json) => Ok(json)
  }

  /** The plugin's `unescape`: three replacements whose patterns are the
      characters '<', '>' and '&' themselves, written as Go escapes. */
  function Unescape(s: string): string
  {
    Strings.ReplaceAll(Strings.ReplaceAll(Strings.ReplaceAll(s, '<', "<"), '>', ">"), '&', "&")
  }

  /** Each pattern is replaced by itself, so `unescape` changes nothing. */
  lemma UnescapeIsIdentity(s: string)
    ensures Unescape(s) == s
  {
    Strings.ReplaceWithItself(s, '<');
    Strings.ReplaceWithItself(s, '>');
    Strings.ReplaceWithItself(s, '&');
  }

  function UnescapeAll(c: Credentials): Credentials
  {
    Credentials(Unescape(c.authUrl), Unescape(c.domainId), Unescape(c.domainName), Unescape(c.password),
                Unescape(c.project), Unescape(c.projectId), Unescape(c.region), Unescape(c.role),
                Unescape(c.userId), Unescape(c.username))
  }

  /** `extractFromJSON`: decode, then pass every field through `unescape`. */
  function ExtractFromJson(json: string, decode: JsonDecoder): (r: Result<Credentials>)
    ensures r.Ok? <==> decode(json).Ok?
    ensures r.Err? ==> r.msg == "Failed to unmarshall JSON credentials: " + decode(json).msg
    ensures r.Ok? ==> r.value == decode(json).value
  {
    match decode(json)
    case Err(e) => Err("Failed to unmarshall JSON credentials: " + e)
    case Ok(c) =>
      UnescapeIsIdentity(c.authUrl); UnescapeIsIdentity(c.domainId); UnescapeIsIdentity(c.domainName);
      UnescapeIsIdentity(c.password); UnescapeIsIdentity(c.project); UnescapeIsIdentity(c.projectId);
      UnescapeIsIdentity(c.region); UnescapeIsIdentity(c.role); UnescapeIsIdentity(c.userId);
      UnescapeIsIdentity(c.username);
      Ok(UnescapeAll(c))
  }

  // ---------------------------------------------------------------------
  // ParseFlags

  datatype FlagVals = FlagVals(showUrl: bool, showToken: bool)

  /** `ParseFlags`: "-url" and "-x", both off by default. The parse error is
      not passed to the format string, so its text is lost. */
  function ParseFlags(flags: seq<string>, parse: FlagParser): (r: Result<FlagVals>)
    ensures r.Err? <==> parse(flags).Err?
    ensures r.Err? ==> r.msg == "Failed to parse arguments: %!s(MISSING)"
    ensures r.Ok? ==> (r.value.showUrl <==> "url" in parse(flags).value && parse(flags).value["url"] == BoolValue(true))
    ensures r.Ok? ==> (r.value.showToken <==> "x" in parse(flags).value && parse(flags).value["x"] == BoolValue(true))
  {
    match parse(flags)
    case Err(_) => Err("Failed to parse arguments: %!s(MISSING)")
    case Ok(given) => Ok(FlagVals(BoolFlag(given, "url", false), BoolFlag(given, "x", false)))
  }

  // ---------------------------------------------------------------------
  // The credential lookup shared by GetAuthInfo and getNewCredentials

  const NotLoggedIn := "You are not logged in, please run `cf login` and rerun this command"

  /** The step at which a lookup stopped. */
  datatype Stage = LoginCheck | ServiceSearch | KeyLookup | KeyFetch | Parsing

  datatype Lookup = Found(creds: Credentials) | Stopped(stage: Stage, msg: string)

  /** The lookup: login check (not being logged in wins over a login error),
      service search, key name, key JSON, decoding. */
  function LookUpCredentials(target: string, cli: CliEnv, decode: JsonDecoder): (r: Lookup)
    ensures !cli.loggedIn ==> r == Stopped(LoginCheck, NotLoggedIn)
    ensures cli.loggedIn && cli.loginErr.Some? ==>
      r == Stopped(LoginCheck, "Failed to log in to Cloud Foundry: " + cli.loginErr.value)
    ensures r.Found? <==>
      && cli.loggedIn && cli.loginErr.None?
      && FindService(cli.services, target).Pass?
      && GetCredentialsName(target, cli).Ok?
      && GetJsonCredentials(target, GetCredentialsName(target, cli).value, cli).Ok?
      && decode(GetJsonCredentials(target, GetCredentialsName(target, cli).value, cli).value).Ok?
    ensures cli.loggedIn && cli.loginErr.None? && FindService(cli.services, target).Fail? ==>
      r == Stopped(ServiceSearch, FindService(cli.services, target).msg)
    ensures (cli.loggedIn && cli.loginErr.None? && FindService(cli.services, target).Pass?
       && GetCredentialsName(target, cli).Err?) ==>
      r == Stopped(KeyLookup, GetCredentialsName(target, cli).msg)
    ensures (cli.loggedIn && cli.loginErr.None? && FindService(cli.services, target).Pass?
       && GetCredentialsName(target, cli).Ok?
       && GetJsonCredentials(target, GetCredentialsName(target, cli).value, cli).Err?) ==>
      r == Stopped(KeyFetch, GetJsonCredentials(target, GetCredentialsName(target, cli).value, cli).msg)
    ensures (cli.loggedIn && cli.loginErr.None? && FindService(cli.services, target).Pass?
       && GetCredentialsName(target, cli).Ok?
       && GetJsonCredentials(target, GetCredentialsName(target, cli).value, cli).Ok?
       && ExtractFromJson(GetJsonCredentials(target, GetCredentialsName(target, cli).value, cli).value, decode).Err?) ==>
      r == Stopped(Parsing,
                   ExtractFromJson(GetJsonCredentials(target, GetCredentialsName(target, cli).value, cli).value, decode).msg)
    ensures r.Found? ==>
      && Offers(cli.services.value, target)
      && r.creds == decode(GetJsonCredentials(target, GetCredentialsName(target, cli).value, cli).value).value
  {
    if !cli.loggedIn then Stopped(LoginCheck, NotLoggedIn)
    else if cli.loginErr.Some? then Stopped(LoginCheck, "Failed to log in to Cloud Foundry: " + cli.loginErr.value)
    else match FindService(cli.services, target)
    case Fail(e) => Stopped(ServiceSearch, e)
    case Pass =>
      match GetCredentialsName(target, cli)
      case Err(e) => Stopped(KeyLookup, e)
      case Ok(name) =>
        match GetJsonCredentials(target, name, cli)
        case Err(e) => Stopped(KeyFetch, e)
        case Ok(json) =>
          match ExtractFromJson(json, decode)
          case Err(e) => Stopped(Parsing, e)
          case Ok(c) => Found(c)
  }

  /** The prefix `getNewCredentials` puts before a stage's error. */
  function StagePrefix(stage: Stage): string
  {
    match stage
    case LoginCheck => ""
    case ServiceSearch => "Failed to fetch services: "
    case KeyLookup => "Failed to locate target service's credentials: "
    case KeyFetch => "Failed to fetch target service's credentials: "
    case Parsing => "Failed to extract JSON credentials: "
  }

  /** `getNewCredentials`: the lookup, with each error after the login check
      wrapped in a message naming its stage. */
  function GetNewCredentials(target: string, cli: CliEnv, decode: JsonDecoder): (r: Result<Credentials>)
    ensures r.Ok? <==> LookUpCredentials(target, cli, decode).Found?
    ensures r.Ok? ==> r.value == LookUpCredentials(target, cli, decode).creds
    ensures r.Err? ==> r.msg == StagePrefix(LookUpCredentials(target, cli, decode).stage) + LookUpCredentials(target, cli, decode).msg
  {
    match LookUpCredentials(target, cli, decode)
    case Found(c) => Ok(c)
    case Stopped(stage, e) => Err(StagePrefix(stage) + e)
  }

  /** The request made with a set of credentials: the identity service is
      always addressed at version 3 of its API, with an empty tenant. */
  function RequestFor(c: Credentials): (q: AuthRequest)
    ensures q.authUrl == c.authUrl + "/v3"
    ensures q.username == c.username && q.password == c.password && q.domain == c.domainName && q.tenant == ""
  {
    AuthRequest(c.username, c.password, c.authUrl + "/v3", c.domainName, "")
  }

  /** How `GetAuthInfo` ends, and the one request it made, if any. */
  datatype AuthInfoRun = AuthInfoRun(result: Result<Destination>, request: Option<AuthRequest>)

  /** `GetAuthInfo`: one lookup and one authentication attempt, every error
      returned as its stage produced it. */
  function GetAuthInfo(target: string, cli: CliEnv, decode: JsonDecoder,
                       authenticate: AuthRequest -> Result<Destination>): (r: AuthInfoRun)
    ensures r.request.Some? <==> LookUpCredentials(target, cli, decode).Found?
    ensures r.request.Some? ==> r.request.value == RequestFor(LookUpCredentials(target, cli, decode).creds)
    ensures r.request.Some? ==> r.result == authenticate(r.request.value)
    ensures r.request.None? ==> r.result == Err(LookUpCredentials(target, cli, decode).msg)
  {
    match LookUpCredentials(target, cli, decode)
    case Stopped(_, e) => AuthInfoRun(Err(e), None)
    case Found(c) =>
      var request := RequestFor(c);
      AuthInfoRun(authenticate(request), Some(request))
  }

  /** `GetAuthInfo` authenticates exactly with what `getNewCredentials` would
      fetch, and fails before authenticating exactly when it fails. */
  lemma GetAuthInfoUsesNewCredentials(target: string, cli: CliEnv, decode: JsonDecoder,
                                      authenticate: AuthRequest -> Result<Destination>)
    ensures GetAuthInfo(target, cli, decode, authenticate).request.Some? <==> GetNewCredentials(target, cli, decode).Ok?
    ensures GetNewCredentials(target, cli, decode).Ok? ==>
      GetAuthInfo(target, cli, decode, authenticate).request == Some(RequestFor(GetNewCredentials(target, cli, decode).value))
    ensures GetNewCredentials(target, cli, decode).Err? && !cli.loggedIn ==>
      GetAuthInfo(target, cli, decode, authenticate).result.msg == GetNewCredentials(target, cli, decode).msg
  {
  }

  // ---------------------------------------------------------------------
  // Authenticate

  /** The cache file's place under the user's home directory. The path is
      written with '/' and without the cleaning `filepath.Join` applies. */
  function CacheDir(home: string): string
  {
    home + "/.cf"
  }

  function CachePath(home: string): string
  {
    CacheDir(home) + "/os_creds.json"
  }

  /** What the operating system answers during one run of `Authenticate`: the
      current user's home directory, creating the cache directory, opening
      (or creating) the cache file, its size, reading it, and writing it. The
      file's bytes before the run are `cache`. */
  datatype AuthEnv = AuthEnv(
    home: Result<string>, mkdir: Outcome, open: Outcome, stat: Outcome,
    cache: string, read: Outcome, write: Outcome)

  /** The services `Authenticate` talks to. The Cloud Foundry connection may
      answer differently on the first and the second lookup of a run, and the
      identity service on the first and the second attempt. */
  datatype Backend = Backend(
    cli: nat -> CliEnv, decode: JsonDecoder, encode: JsonEncoder,
    authenticate: (AuthRequest, nat) -> Result<Destination>)

  /** How one run of `Authenticate` ends: its result, the credentials of each
      authentication attempt in order, the number of lookups through Cloud
      Foundry, and the bytes written to the cache file, if any. */
  datatype AuthRun = AuthRun(result: Result<Destination>, used: seq<Credentials>, lookups: nat, written: Option<string>)

  /** The credentials a run starts from, and the lookups spent on them. */
  datatype Start = Start(creds: Result<Credentials>, lookups: nat)

  /** Setup succeeded: the home directory is known, and the cache directory
      and file could be created, opened and measured. */
  predicate SetUp(env: AuthEnv)
  {
    env.home.Ok? && env.mkdir.Pass? && env.open.Pass? && env.stat.Pass?
  }

  /** The message of the first setup step that failed. */
  function SetupError(env: AuthEnv): (msg: string)
    requires !SetUp(env)
  {
    if env.home.Err? then "Failed to get current user: " + env.home.msg
    else if env.mkdir.Fail? then "Failed to create directory " + CacheDir(env.home.value) + ": " + env.mkdir.msg
    else if env.open.Fail? then "Failed to open/create " + CachePath(env.home.value) + ": " + env.open.msg
    else "Failed to get file size: " + env.stat.msg
  }

  /** The first credentials: from a non-empty cache file, whose read and
      decoding errors are final; from Cloud Foundry when the file is empty. */
  function FirstCredentials(target: string, env: AuthEnv, b: Backend): (s: Start)
    ensures |env.cache| > 0 ==> s.lookups == 0
    ensures |env.cache| > 0 && env.read.Fail? ==> s.creds == Err("Failed to read credentials: " + env.read.msg)
    ensures |env.cache| > 0 && env.read.Pass? ==>
      if b.decode(env.cache).Ok? then s.creds == Ok(b.decode(env.cache).value)
      else s.creds.Err? && s.creds.msg == "Failed to extract JSON credentials: " + ExtractFromJson(env.cache, b.decode).msg
    ensures |env.cache| == 0 ==> s.lookups == 1
    ensures |env.cache| == 0 ==> (s.creds.Ok? <==> GetNewCredentials(target, b.cli(0), b.decode).Ok?)
    ensures |env.cache| == 0 && s.creds.Ok? ==> s.creds.value == GetNewCredentials(target, b.cli(0), b.decode).value
    ensures |env.cache| == 0 && GetNewCredentials(target, b.cli(0), b.decode).Err? ==>
      s.creds == Err("Failed to fetch a new set of credentials: " + GetNewCredentials(target, b.cli(0), b.decode).msg)
  {
    if |env.cache| > 0 then
      if env.read.Fail? then Start(Err("Failed to read credentials: " + env.read.msg), 0)
      else
        match ExtractFromJson(env.cache, b.decode)
        case Err(e) => Start(Err("Failed to extract JSON credentials: " + e), 0)
        case Ok(c) => Start(Ok(c), 0)
    else
      match GetNewCredentials(target, b.cli(0), b.decode)
      case Err(e) => Start(Err("Failed to fetch a new set of credentials: " + e), 1)
      case Ok(c) => Start(Ok(c), 1)
  }

  /** The end of a run once an attempt succeeded: encode the credentials that
      worked and write them. */
  function Save(d: Destination, used: seq<Credentials>, lookups: nat, env: AuthEnv, b: Backend): (r: AuthRun)
    requires |used| > 0
    ensures r.used == used && r.lookups == lookups
    ensures r.result.Ok? <==> b.encode(used[|used| - 1]).Ok? && env.write.Pass?
    ensures r.result.Ok? ==> r.result.value == d
    ensures r.written.Some? <==> r.result.Ok?
    ensures r.written.Some? ==> b.encode(used[|used| - 1]) == Ok(r.written.value)
    ensures b.encode(used[|used| - 1]).Err? ==>
      r.result == Err("Failed to JSON encode credentials: " + b.encode(used[|used| - 1]).msg)
    ensures b.encode(used[|used| - 1]).Ok? && env.write.Fail? ==>
      r.result == Err("Failed to write credentials to file: " + env.write.msg)
  {
    match b.encode(used[|used| - 1])
    case Err(e) => AuthRun(Err("Failed to JSON encode credentials: " + e), used, lookups, None)
    case Ok(json) =>
      if env.write.Fail? then AuthRun(Err("Failed to write credentials to file: " + env.write.msg), used, lookups, None)
      else AuthRun(Ok(d), used, lookups, Some(json))
  }

  /** The retry after a failed first attempt with `c`: one more lookup, and
      an attempt with what it found. A failure of either is final. */
  function Retry(target: string, c: Credentials, lookups: nat, env: AuthEnv, b: Backend): (r: AuthRun)
    ensures r.lookups == lookups + 1
    ensures |r.used| == 1 || |r.used| == 2
    ensures r.used[0] == c
    ensures |r.used| == 2 <==> GetNewCredentials(target, b.cli(lookups), b.decode).Ok?
    ensures |r.used| == 2 ==> r.used[1] == GetNewCredentials(target, b.cli(lookups), b.decode).value
    ensures |r.used| == 1 ==> r.result == Err("Failed to fetch a new set of credentials: "
                                              + GetNewCredentials(target, b.cli(lookups), b.decode).msg)
    ensures r.result.Ok? ==>
      |r.used| == 2 && b.authenticate(RequestFor(r.used[1]), 1).Ok?
      && r.result.value == b.authenticate(RequestFor(r.used[1]), 1).value
    ensures |r.used| == 2 && b.authenticate(RequestFor(r.used[1]), 1).Err? ==>
      r.result == Err("Failed to authenticate: " + b.authenticate(RequestFor(r.used[1]), 1).msg)
    ensures r.written.Some? <==> r.result.Ok?
    ensures r.written.Some? ==> b.encode(r.used[|r.used| - 1]) == Ok(r.written.value)
  {
    match GetNewCredentials(target, b.cli(lookups), b.decode)
    case Err(e) => AuthRun(Err("Failed to fetch a new set of credentials: " + e), [c], lookups + 1, None)
    case Ok(c2) =>
      match b.authenticate(RequestFor(c2), 1)
      case Err(e) => AuthRun(Err("Failed to authenticate: " + e), [c, c2], lookups + 1, None)
      case Ok(d) => Save(d, [c, c2], lookups + 1, env, b)
  }

  /** The attempts made from the starting credentials `c`: the first one, and
      the retry when it fails. */
  function Attempts(target: string, c: Credentials, lookups: nat, env: AuthEnv, b: Backend): (r: AuthRun)
    ensures |r.used| == 1 || |r.used| == 2
    ensures r.used[0] == c
    ensures r.lookups == lookups <==> b.authenticate(RequestFor(c), 0).Ok?
    ensures r.lookups == lookups || r.lookups == lookups + 1
    ensures |r.used| == 2 ==>
      && b.authenticate(RequestFor(c), 0).Err?
      && GetNewCredentials(target, b.cli(lookups), b.decode).Ok?
      && r.used[1] == GetNewCredentials(target, b.cli(lookups), b.decode).value
    ensures r.result.Ok? ==>
      b.authenticate(RequestFor(r.used[|r.used| - 1]), |r.used| - 1).Ok?
      && r.result.value == b.authenticate(RequestFor(r.used[|r.used| - 1]), |r.used| - 1).value
    ensures r.result.Ok? ==> (|r.used| == 1 <==> r.lookups == lookups)
    ensures r.written.Some? <==> r.result.Ok?
    ensures r.written.Some? ==> b.encode(r.used[|r.used| - 1]) == Ok(r.written.value)
    ensures b.authenticate(RequestFor(c), 0).Ok? ==>
      && |r.used| == 1
      && (r.result.Ok? <==> b.encode(c).Ok? && env.write.Pass?)
      && (b.encode(c).Err? ==> r.result == Err("Failed to JSON encode credentials: " + b.encode(c).msg))
      && (b.encode(c).Ok? && env.write.Fail? ==>
            r.result == Err("Failed to write credentials to file: " + env.write.msg))
    ensures b.authenticate(RequestFor(c), 0).Err? ==>
      (var refetched := GetNewCredentials(target, b.cli(lookups), b.decode);
       && (refetched.Ok? <==> |r.used| == 2)
       && (refetched.Err? ==> r.result == Err("Failed to fetch a new set of credentials: " + refetched.msg))
       && (refetched.Ok? && b.authenticate(RequestFor(refetched.value), 1).Err? ==>
             r.result == Err("Failed to authenticate: " + b.authenticate(RequestFor(refetched.value), 1).msg))
       && (refetched.Ok? && b.authenticate(RequestFor(refetched.value), 1).Ok? ==>
             (r.result.Ok? <==> b.encode(refetched.value).Ok? && env.write.Pass?)))
  {
    match b.authenticate(RequestFor(c), 0)
    case Ok(d) => Save(d, [c], lookups, env, b)
    case Err(_) => Retry(target, c, lookups, env, b)
  }

  /** `Authenticate`: set up the cache file, take the first credentials from
      it or from Cloud Foundry, and try them. When the attempt fails, look up
      fresh credentials and try once more; the second failure is final. The
      credentials that worked are then written back. */
  function Authenticate(target: string, env: AuthEnv, b: Backend): (r: AuthRun)
    ensures !SetUp(env) ==> r == AuthRun(Err(SetupError(env)), [], 0, None)
    ensures |r.used| <= 2
    ensures r.result.Ok? ==>
      |r.used| > 0 && b.authenticate(RequestFor(r.used[|r.used| - 1]), |r.used| - 1).Ok?
      && r.result.value == b.authenticate(RequestFor(r.used[|r.used| - 1]), |r.used| - 1).value
    ensures r.written.Some? <==> r.result.Ok?
    ensures r.written.Some? ==> b.encode(r.used[|r.used| - 1]) == Ok(r.written.value)
    ensures SetUp(env) && FirstCredentials(target, env, b).creds.Err? ==>
      r == AuthRun(Err(FirstCredentials(target, env, b).creds.msg), [], FirstCredentials(target, env, b).lookups, None)
    ensures SetUp(env) && FirstCredentials(target, env, b).creds.Ok? ==>
      (var start := FirstCredentials(target, env, b);
       && |r.used| > 0 && r.used[0] == start.creds.value
       && (b.authenticate(RequestFor(start.creds.value), 0).Err? ==>
             && r.lookups == start.lookups + 1
             && (|r.used| == 2 <==> GetNewCredentials(target, b.cli(start.lookups), b.decode).Ok?)))
  {
    if !SetUp(env) then AuthRun(Err(SetupError(env)), [], 0, None)
    else
      var start := FirstCredentials(target, env, b);
      match start.creds
      case Err(e) => AuthRun(Err(e), [], start.lookups, None)
      case Ok(c) => Attempts(target, c, start.lookups, env, b)
  }

  /** The first attempt, if any, uses the credentials the run started from:
      the cache file's when it is not empty. */
  lemma FirstAttemptUsesStartingCredentials(target: string, env: AuthEnv, b: Backend)
    ensures SetUp(env) && FirstCredentials(target, env, b).creds.Ok? <==> |Authenticate(target, env, b).used| > 0
    ensures |Authenticate(target, env, b).used| > 0 ==>
      Authenticate(target, env, b).used[0] == FirstCredentials(target, env, b).creds.value
  {
  }

  /** The index of the lookup that serves a retry: the first of the run when
      the cache supplied the starting credentials, the second otherwise. */
  function RetryLookup(env: AuthEnv): nat
  {
    if |env.cache| > 0 then 0 else 1
  }

  /** A second attempt is made only after the first failed, and uses the
      credentials of a fresh lookup. */
  lemma SecondAttemptOnlyAfterFailure(target: string, env: AuthEnv, b: Backend)
    ensures var r := Authenticate(target, env, b);
      |r.used| == 2 ==>
      && b.authenticate(RequestFor(r.used[0]), 0).Err?
      && r.lookups == RetryLookup(env) + 1
      && GetNewCredentials(target, b.cli(RetryLookup(env)), b.decode).Ok?
      && r.used[1] == GetNewCredentials(target, b.cli(RetryLookup(env)), b.decode).value
  {
    if |Authenticate(target, env, b).used| == 2 {
      var start := FirstCredentials(target, env, b);
      assert SetUp(env) && start.creds.Ok?;
      assert start.lookups == RetryLookup(env);
      var r := Attempts(target, start.creds.value, start.lookups, env, b);
      assert Authenticate(target, env, b) == r;
    }
  }

  /** At most two lookups happen in a run, and a cache hit saves one: a run
      that starts from the cache looks up only to retry. */
  lemma LookupsPerRun(target: string, env: AuthEnv, b: Backend)
    ensures Authenticate(target, env, b).lookups <= 2
    ensures Authenticate(target, env, b).lookups <= |Authenticate(target, env, b).used| + 1
    ensures |env.cache| > 0 ==> Authenticate(target, env, b).lookups <= |Authenticate(target, env, b).used|
    ensures |env.cache| > 0 && Authenticate(target, env, b).result.Ok? ==>
      Authenticate(target, env, b).lookups + 1 == |Authenticate(target, env, b).used|
  {
  }

  /** A cache file that cannot be decoded ends the run: no lookup, no
      attempt, and the decoder's complaint in the message. */
  lemma UndecodableCacheIsFinal(target: string, env: AuthEnv, b: Backend)
    requires SetUp(env) && |env.cache| > 0 && env.read.Pass? && b.decode(env.cache).Err?
    ensures Authenticate(target, env, b) == AuthRun(
      Err("Failed to extract JSON credentials: " + ("Failed to unmarshall JSON credentials: " + b.decode(env.cache).msg)),
      [], 0, None)
  {
  }

  // ---------------------------------------------------------------------
  // The cache file after a run

  /** The cache file after a run, as the plugin leaves it. The file is opened
      for reading and writing without truncation, and on a cache hit it has
      just been read to its end, so the new bytes land after the old ones (on
      a miss the file was empty). A run that writes nothing leaves it alone. */
  function CacheFileAsWritten(env: AuthEnv, r: AuthRun): (file: string)
    ensures r.written.None? ==> file == env.cache
    ensures r.written.Some? ==> |file| == |env.cache| + |r.written.value| && env.cache <= file
    ensures r.written.Some? ==> file[|env.cache|..] == r.written.value
  {
    if r.written.Some? then env.cache + r.written.value else env.cache
  }

  /** The cache file after a run when writing replaces the old contents,
      which is what reading it back on the next run needs. */
  function CacheFileAfter(env: AuthEnv, r: AuthRun): (file: string)
    ensures r.written.None? ==> file == env.cache
    ensures r.written.Some? ==> file == r.written.value
  {
    if r.written.Some? then r.written.value else env.cache
  }

  /** The cache of the next run: same setup, the file as a run left it. */
  function NextRun(env: AuthEnv, file: string): AuthEnv
  {
    env.(cache := file)
  }

  /** A run with an empty cache whose lookup and first attempt succeed
      writes the looked-up credentials. */
  lemma FreshRunSucceeds(target: string, env: AuthEnv, b: Backend, c: Credentials)
    requires SetUp(env) && env.write.Pass? && env.cache == ""
    requires GetNewCredentials(target, b.cli(0), b.decode) == Ok(c)
    requires b.authenticate(RequestFor(c), 0).Ok? && b.encode(c).Ok?
    ensures Authenticate(target, env, b) ==
      AuthRun(Ok(b.authenticate(RequestFor(c), 0).value), [c], 1, Some(b.encode(c).value))
  {
    assert FirstCredentials(target, env, b) == Start(Ok(c), 1);
    assert Attempts(target, c, 1, env, b) == Save(b.authenticate(RequestFor(c), 0).value, [c], 1, env, b);
  }

  /** The refetch: cached credentials the service rejects are replaced by a
      lookup; when the service accepts those, they are the ones written. */
  lemma RetryRunSucceeds(target: string, env: AuthEnv, b: Backend, c: Credentials, c2: Credentials)
    requires SetUp(env) && env.read.Pass? && env.write.Pass? && env.cache != ""
    requires b.decode(env.cache) == Ok(c)
    requires b.authenticate(RequestFor(c), 0).Err?
    requires GetNewCredentials(target, b.cli(0), b.decode) == Ok(c2)
    requires b.authenticate(RequestFor(c2), 1).Ok? && b.encode(c2).Ok?
    ensures Authenticate(target, env, b) ==
      AuthRun(Ok(b.authenticate(RequestFor(c2), 1).value), [c, c2], 1, Some(b.encode(c2).value))
  {
    assert FirstCredentials(target, env, b) == Start(Ok(c), 0);
    assert Retry(target, c, 0, env, b) == Save(b.authenticate(RequestFor(c2), 1).value, [c, c2], 1, env, b);
    assert Attempts(target, c, 0, env, b) == Retry(target, c, 0, env, b);
  }

  /** A run whose cache decodes to credentials the service accepts writes
      them again, without a lookup. */
  lemma CachedRunSucceeds(target: string, env: AuthEnv, b: Backend, c: Credentials)
    requires SetUp(env) && env.read.Pass? && env.write.Pass? && env.cache != ""
    requires b.decode(env.cache) == Ok(c)
    requires b.authenticate(RequestFor(c), 0).Ok? && b.encode(c).Ok?
    ensures Authenticate(target, env, b) ==
      AuthRun(Ok(b.authenticate(RequestFor(c), 0).value), [c], 0, Some(b.encode(c).value))
  {
    assert FirstCredentials(target, env, b) == Start(Ok(c), 0);
    assert Attempts(target, c, 0, env, b) == Save(b.authenticate(RequestFor(c), 0).value, [c], 0, env, b);
  }

  /** As written, the cache breaks on the second run. With an empty cache and
      a service that always accepts the credentials, the first run writes
      them; the second reads them back, succeeds without a lookup, and appends
      them again; the third finds two JSON documents in a row, which the
      decoder rejects, and fails without looking up fresh credentials, leaving
      the file as it was, so every later run fails the same way. */
  lemma CacheBreaksOnSecondRunAsWritten(target: string, env: AuthEnv, b: Backend)
    requires SetUp(env) && env.read.Pass? && env.write.Pass? && env.cache == ""
    requires GetNewCredentials(target, b.cli(0), b.decode).Ok?
    requires var c := GetNewCredentials(target, b.cli(0), b.decode).value;
      && b.authenticate(RequestFor(c), 0).Ok?
      && b.encode(c).Ok?
      && b.decode(b.encode(c).value) == Ok(c)
      && b.decode(b.encode(c).value + b.encode(c).value).Err?
    ensures var json := b.encode(GetNewCredentials(target, b.cli(0), b.decode).value).value;
      var r1 := Authenticate(target, env, b);
      var f1 := CacheFileAsWritten(env, r1);
      var r2 := Authenticate(target, NextRun(env, f1), b);
      var f2 := CacheFileAsWritten(NextRun(env, f1), r2);
      var r3 := Authenticate(target, NextRun(env, f2), b);
      && r1.result.Ok? && f1 == json
      && r2.result.Ok? && r2.lookups == 0 && f2 == json + json
      && r3.result.Err? && r3.lookups == 0 && r3.used == []
      && CacheFileAsWritten(NextRun(env, f2), r3) == f2
  {
    var c := GetNewCredentials(target, b.cli(0), b.decode).value;
    var json := b.encode(c).value;
    FreshRunSucceeds(target, env, b, c);
    var r1 := Authenticate(target, env, b);
    assert CacheFileAsWritten(env, r1) == json;
    assert json != "";
    var env2 := NextRun(env, json);
    CachedRunSucceeds(target, env2, b, c);
    var r2 := Authenticate(target, env2, b);
    assert CacheFileAsWritten(env2, r2) == json + json;
    var env3 := NextRun(env, json + json);
    assert env3.cache != "";
    UndecodableCacheIsFinal(target, env3, b);
    var r3 := Authenticate(target, env3, b);
    assert r3.result.Err? && r3.lookups == 0 && r3.used == [] && r3.written.None?;
  }

  /** With replacing writes, a successful run leaves a cache the next run
      starts from: the credentials that worked, without a lookup. It takes a
      decoder that reads back what the encoder wrote and rejects empty input. */
  lemma CacheReadsBackAfterSuccess(target: string, env: AuthEnv, b: Backend, next: AuthEnv)
    requires Authenticate(target, env, b).result.Ok?
    requires var r := Authenticate(target, env, b);
      b.decode(r.written.value) == Ok(r.used[|r.used| - 1])
    requires b.decode("").Err?
    requires SetUp(next) && next.read.Pass?
    requires next.cache == CacheFileAfter(env, Authenticate(target, env, b))
    ensures var r := Authenticate(target, env, b);
      FirstCredentials(target, next, b) == Start(Ok(r.used[|r.used| - 1]), 0)
  {
  }

  /** With replacing writes, the runs of the scenario above all succeed: the
      file keeps exactly one copy of the credentials, and only the first run
      looks them up. The decoder rejects empty input, as Go's does. */
  lemma CacheSurvivesRuns(target: string, env: AuthEnv, b: Backend)
    requires SetUp(env) && env.read.Pass? && env.write.Pass? && env.cache == ""
    requires GetNewCredentials(target, b.cli(0), b.decode).Ok?
    requires var c := GetNewCredentials(target, b.cli(0), b.decode).value;
      && b.authenticate(RequestFor(c), 0).Ok?
      && b.encode(c).Ok?
      && b.decode(b.encode(c).value) == Ok(c)
    requires b.decode("").Err?
    ensures var json := b.encode(GetNewCredentials(target, b.cli(0), b.decode).value).value;
      var r1 := Authenticate(target, env, b);
      var f1 := CacheFileAfter(env, r1);
      var r2 := Authenticate(target, NextRun(env, f1), b);
      var f2 := CacheFileAfter(NextRun(env, f1), r2);
      var r3 := Authenticate(target, NextRun(env, f2), b);
      && r1.result.Ok? && f1 == json
      && r2.result.Ok? && r2.lookups == 0 && f2 == json
      && r3 == r2
  {
    var c := GetNewCredentials(target, b.cli(0), b.decode).value;
    var json := b.encode(c).value;
    FreshRunSucceeds(target, env, b, c);
    assert json != "";
    CachedRunSucceeds(target, NextRun(env, json), b, c);
  }
}
