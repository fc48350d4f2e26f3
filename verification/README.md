# cf-object-storage: the decision logic of the plugin, in Dafny

This project models the Cloud Foundry CLI plugin `cf-object-storage`. The plugin uploads large
files to an OpenStack Swift object store as static and dynamic large objects (SLOs and DLOs). It
also puts and deletes single objects, creates containers, prints help, and obtains a storage URL
and an auth token from the object-storage service bound to the current Cloud Foundry space.

Most of the plugin is glue around external libraries. The model lifts out the decisions the
plugin makes itself and proves what they guarantee:

- the chunk-size policies of the two versions of `make-slo`;
- the all-or-nothing parsing of container headers;
- the help-text serialiser and the subcommand lookup;
- the single-object rules: the 5 GB limit, the hex MD5 name, and the create, write, close order;
- the static-large-object delete request;
- the argument defaults of `put-object` and `make-dlo`;
- credential lookup, and the cache-then-refetch authentication policy.

One Dafny module models one Go source file. Where the repository holds two versions of a file,
each version gets its own module:

| module | file |
|---|---|
| `SloLegacy` | `slo/make-slo.go` |
| `Slo` | `slo/slo.go` |
| `Container` | `container/container.go` |
| `Help` | `help.go` |
| `Object` | `object/object.go` |
| `PutObjectCommand` | `object/put-object.go` |
| `Dlo` | `dlo/dlo.go` |
| `DloLegacy` | `dlo/make-dlo.go` |
| `XAuth` | `x_auth/get_auth_info.go` |

Two modules are shared by the others:

- `Common` holds the Go idioms: a nil-or-not `error` (`Outcome`), a `(T, error)` return that may
  also panic (`Exit`), bytes, and flag values.
- `Strings` holds the standard-library string functions the plugin calls: `strings.Split`,
  `strings.Join`, `strings.Replace` and `filepath.Base`. It states them only in the shapes the
  plugin uses.

Everything the plugin only calls is a parameter of the model. That covers:

- Go's `flag` parser: a function from words to the set flags, or an error;
- the file system and the HTTP client: one answer per step;
- the swiftlygo uploaders, the Swift connection and the identity service (`auth.Authenticate`);
- the Cloud Foundry connection;
- the JSON codec and MD5.

The model therefore decides what the plugin does with each possible answer. It does not decide
what those answers are.

## Model

| member | source | states |
|---|---|---|
| SloLegacy.FlagValsOf | slo/make-slo.go:42-60 | Each flag left unset keeps its own default: not only-missing, no log file, chunk size -1 (meaning "derive it") and the CPU count as thread count. A set "-m", "-s", "-t" or "-o" replaces its default. |
| SloLegacy.ParseArgs | slo/make-slo.go:34-70 | Container, name and source are the first three words. The flag parser sees only the words after them, and is called only when there are any. A parse error is possible only then, and it is wrapped as "Failed to parse flags: ". With exactly three words the defaults apply. |
| SloLegacy.DerivedChunkSize | slo/make-slo.go:83-90 | The derived chunk c is the smallest size for which 1000 chunks cover the file: 1000·c ≥ size and 1000·(c−1) < size, which is ceil(size/1000). |
| SloLegacy.EffectiveChunkSize | slo/make-slo.go:84-90 | A positive request reaches the uploader unchanged. A request of zero or less is replaced by the derived size. |
| SloLegacy.CeilDivAtMost | slo/make-slo.go:90 | If k chunks of size c cover n bytes, then ceil(n/c) ≤ k. |
| SloLegacy.CeilDivAbove | slo/make-slo.go:90 | If k chunks of size c fall short of n bytes, then ceil(n/c) > k. |
| SloLegacy.DerivedChunkSizeBounds | slo/make-slo.go:44-90 | For a non-empty file the derived chunk lies between 1 and the file size, and it cuts the file into at most 1000 chunks. |
| SloLegacy.DerivedChunkSizeIsLeast | slo/make-slo.go:83-90 | Every smaller positive chunk would need more than 1000 chunks. |
| SloLegacy.SmallFileOneByteChunks | slo/make-slo.go:90 | A file of at most 1000 bytes gets a one-byte chunk, so it is cut into as many chunks as it has bytes. |
| SloLegacy.EmptyFileChunkSize | slo/make-slo.go:84-90 | An empty file with no chunk size requested gets chunk size 0. |
| SloLegacy.ChunkStep | slo/make-slo.go:84-91 | The file is stat-ed only when the request is not positive. A stat failure is then the only error, reported as "Failed to obtain file stats: ". The result is never negative. |
| SloLegacy.MakeSlo | slo/make-slo.go:73-125 | The corrected command. An open failure stops it before anything else. The uploader is requested exactly when the source opens, the chunk step succeeds and any named log file opens. The request carries the adjusted chunk, the container, name, source, threads and only-missing flag. Its sink is the discard sink exactly when no log file is named, and otherwise the file named by "-o". Each failing step has its own message: open, stat, output file, uploader constructor, upload. The command succeeds exactly when the uploader was built and the upload passed. |
| SloLegacy.MakeSloAsWritten | slo/make-slo.go:95-116 | As written, the command behaves exactly like the corrected one in every case but one: a log file is named, the uploader is requested and its constructor fails. In that case it panics on the nil uploader, and still records the request. |
| SloLegacy.UploaderErrorLostWithLogFile | slo/make-slo.go:101-116 | Take a log file, a positive chunk size and a failing constructor. The code as written panics, while the corrected command reports "Failed to create SLO uploader: …". |
| SloLegacy.StatUnusedForPositiveChunk | slo/make-slo.go:84-91 | With a positive chunk size requested, the stat answer cannot change the outcome. |
| Slo.FlagValsOf | slo/slo.go:41-59 | Each flag left unset keeps its own default: not only-missing, no log file, 1 GB chunks and the CPU count as thread count. A set "-m", "-s", "-t" or "-o" replaces its default. |
| Slo.ParseArgs | slo/slo.go:33-69 | Positional fields are the first three words. The flags are parsed only when more words follow, and only then can parsing fail. The default chunk size is 1,000,000,000. |
| Slo.ThreadsFromFlagT | slo/slo.go:44-58 | The thread count is whatever the flag named "t" holds. |
| Slo.ClampChunkSize | slo/slo.go:89-91 | The adjusted chunk never exceeds the file size or the request, and it is one of the two. |
| Slo.ClampIsMinimum | slo/slo.go:89-91 | The adjusted chunk is the minimum of request and file size. A request that fits, including zero or a negative one, is left unchanged. |
| Slo.ClampIdempotent | slo/slo.go:89-91 | Clamping an already clamped chunk changes nothing. |
| Slo.SinkFor | slo/slo.go:95-105 | The log is discarded exactly when the output flag is empty. Otherwise it goes to the named file. |
| Slo.MakeSlo | slo/slo.go:72-125 | Fewer than six words panic with an index out of range. The flags come from the words after the third, and a parse error panics, because the discarded error leaves a nil result that is then read. The uploader is requested exactly when the source opens, the stat succeeds and any named log file opens. The request carries args[3..5], the clamped chunk, the threads, the only-missing flag and the chosen sink. Each failing step returns "" with its own message: open, stat, output file, uploader constructor, upload. Success returns the confirmation naming the object and the container. |
| Slo.UploadChunkWithinFile | slo/slo.go:84-110 | The uploader never receives a chunk larger than the file. |
| Container.ParseHeaders | container/container.go:29-40 | The result is an error exactly when some argument is not of the form name:value with one ':'. The error text is the fixed format message. The map has no more entries than there are arguments. |
| Container.HeaderNames | container/container.go:32-40 | The map's keys are exactly the names of the arguments. |
| Container.LastOccurrenceWins | container/container.go:32-40 | Each header's value is in the map under its name, unless a later argument repeats that name. |
| Container.HeaderRoundTrip | container/container.go:33-39 | A name and a value without ':' joined by ':' are accepted and read back verbatim, with no trimming. |
| Container.HeaderSplitsAtItsColon | container/container.go:33-34 | An accepted header holds exactly one ':', and it is its name, ':' and its value. |
| Container.EmptyPartsAccepted | container/container.go:33-34 | "X:" and ":" are accepted, with empty values and names. |
| Container.MalformedRejected | container/container.go:33-36 | A header with zero colons, or with two or more, is rejected. |
| Container.Echoed | container/container.go:32-40 | One line per header, in order, stopping at the first malformed header: a header is echoed exactly when it and every header before it are well formed. |
| Container.MakeContainer | container/container.go:29-50 | The container is created only when every header parses, and then with exactly the parsed map. No headers means an empty map. A malformed header fails before the create call. A failing create is reported as "Failed to create container: ". The echoed lines are those of the headers before the first malformed one, so every header is echoed exactly when the container is created. |
| Help.NamesAreTheKeys | help.go:178-195 | The table and the map hold the same sixteen names. |
| Help.EntriesFiledUnderTheirNames | help.go:10-195 | Every map entry's Name is the key it is filed under. |
| Help.ToString | help.go:198-214 | The text always begins with the NAME and USAGE header. The OPTIONS block appears exactly when the command has options. |
| Help.OptionLines | help.go:204-210 | There is one line per option key, in the visiting order. The leading '-' is left out for make-container and update-container. |
| Help.DistinctMultiplicity | help.go:204 | A map key appears once in any visiting order. |
| Help.EnumerationsArePermutations | help.go:204 | Any two visiting orders of the same map are permutations of each other. |
| Help.PermutationPosition | help.go:204 | The first key of one order sits somewhere in the other, and removing it from both leaves permutations. |
| Help.OptionLinesOfPermutation | help.go:204-210 | Permuting the keys permutes the option lines. |
| Help.OptionLinesOrderIndependent | help.go:202-210 | Whatever order Go visits the options in, the same option lines are printed, compared as a multiset. |
| Help.GetSubcommandHelp | help.go:216-223 | The lookup fails exactly for unknown names, with "<name> is not a valid subcommand". Otherwise it returns the entry's help text, which begins with its header. |
| Help.ListingLines | help.go:228-245 | One line per name, indented by six spaces. |
| Help.HelpCommand | help.go:226-259 | With fewer than three words the listing is printed. Otherwise the command fails exactly when the third word names no subcommand, and otherwise prints that subcommand's help. |
| Help.ListingNamesEverySubcommand | help.go:228-245 | The listing has sixteen lines, which name exactly the keys of the subcommand map. |
| Help.SloHelpAdvertisesJ | help.go:163-173 | The make-slo help lists a "-j" thread option and no "-t", while the command reads "t". |
| Object.GetFileContents | object/object.go:121-144 | The file is read exactly when it opens, stats and is at most 5 GB. The data is the file-size buffer holding the delivered bytes. Each failure has its own message. The stat failure's message lacks its argument. |
| Object.Fill | object/object.go:137-138 | The buffer has the file's size. It holds the delivered bytes first and zeros after them. |
| Object.SizeLimitIsInclusive | object/object.go:133-135 | The limit is 5 GB as the constant at line 14 defines it. A file of exactly 5,000,000,000 bytes is read. One byte more is refused by name, without a read. |
| Object.HexEncode | object/object.go:146-151 | The encoding has two lower-case hex digits per byte. |
| Object.HexRoundTrip | object/object.go:146-151 | Hex decoding inverts the encoding. |
| Object.HashSource | object/object.go:146-151 | The hash is exactly 32 characters from 0-9a-f. |
| Object.HashNamesDigest | object/object.go:146-151 | The digest can be recovered from the hash. |
| Object.PutObject | object/object.go:34-58 | A file error makes no storage call and is wrapped with the path. The calls made are a prefix of: create with the hash of the data, write of that data, close. The first failing call ends the run: a failed create is followed by nothing, and a failed write by no close. Each has its own message: "Failed to create object: ", "Failed to write object: ", "Failed to close object writer: ". Success means all three passed. |
| Object.HashMatchesWrittenBytes | object/object.go:35-47 | The hash given to create is the hash of exactly the bytes written, and the create comes first. |
| Object.OversizedFileNotUploaded | object/object.go:35-38 | A file over the limit is neither read nor uploaded, and the error names it. |
| Object.SuccessIsTwoHundredClass | object/object.go:114 | The status check accepts exactly the codes whose hundreds digit is 2. |
| Object.DeleteLargeObject | object/object.go:93-119 | It sends one DELETE to the static-large-object delete URL, carrying the connection's token as X-Auth-Token. It succeeds exactly on a 2xx answer. Otherwise the message names the status; the two request errors lose their argument. |
| Object.DeleteUrlParts | object/object.go:102 | The delete URL splits at its one '?' into the object's path and "multipart-manifest=delete". |
| PutObjectCommand.ParseArgs | object/put-object.go:28-56 | The container and source are the first two words. The name is the "-n" value when set, and otherwise the source path's last element. Flags are parsed, and can fail, only when more words follow. |
| PutObjectCommand.DefaultNameIsFileName | object/put-object.go:35 | Without flags, a source "dir/name" uploads as "name". |
| PutObjectCommand.DefaultNameIsOneElement | object/put-object.go:35 | The default name is non-empty and holds no '/' unless it is "/" itself. |
| PutObjectCommand.PutObject | object/put-object.go:59-77 | The upload is requested only when the file opens, and under the chosen name. Success returns that name. Each failure returns "" with its own message. |
| PutObjectCommand.ReportedNameIsUploadedName | object/put-object.go:70-76 | A successful run reports the very name it uploaded under. |
| Dlo.ParseArgs | dlo/dlo.go:26-56 | The manifest container and name are the first two words. The segment container defaults to the manifest container and the prefix to the name, unless "-c" or "-p" are set. Flags are parsed, and can fail, only when more words follow. |
| Dlo.MakeDlo | dlo/dlo.go:59-71 | Fewer than five words panic with an index out of range. The flags come from the words after the third, and a parse error panics, since its error is overwritten and the nil result is read. The uploader receives args[3], args[4] and the segment settings. Success returns the message naming the DLO, the segment container and the prefix. A failure returns "" and the wrapped error. |
| Dlo.ManifestPlacementIgnoresFlags | dlo/dlo.go:62-64 | Flags never move the manifest, only the segments. |
| DloLegacy.ParseArgs | dlo/make-dlo.go:27-57 | Container_flag defaults to the manifest container and Prefix_flag to the DLO name. Flags are parsed only when more words follow. |
| DloLegacy.SegmentsDefaultToManifest | dlo/make-dlo.go:34-35 | Without "-c" or "-p", the segments go beside the manifest, prefixed by its name. |
| DloLegacy.MakeDlo | dlo/make-dlo.go:60-72 | The manifest uploader receives the manifest container and name, the segment container and the prefix, exactly as parsed. It returns nil exactly when the upload succeeds, and otherwise the wrapped error. |
| XAuth.FindService | x_auth/get_auth_info.go:39-63 | It succeeds exactly when the listing worked and some service has the target name. An empty space gives "No services found…" whatever the target. |
| XAuth.ScanServices | x_auth/get_auth_info.go:51-56 | The loop that sets a flag on a match computes membership. |
| XAuth.OffersIgnoresOrderAndDuplicates | x_auth/get_auth_info.go:51-62 | The lookup does not depend on the order of the services or on duplicates among them. |
| XAuth.NameAfterHeading | x_auth/get_auth_info.go:74-87 | A key name is found exactly when the output contains the "name" heading line. It is one line, without line breaks. |
| XAuth.NameIsLeftmost | x_auth/get_auth_info.go:74-84 | The name is the rest of the line after the first heading in the output. |
| XAuth.ListingYieldsName | x_auth/get_auth_info.go:74-84 | Output whose listing starts at the heading yields the first key's name. |
| XAuth.GetCredentialsName | x_auth/get_auth_info.go:66-90 | It runs `cf service-keys <target>`. A command failure names the service. A name is returned exactly when the output has the heading, and it is the rest of the line after the first heading. Output without the heading gives "Could not find credentials for target service". |
| XAuth.GetJsonCredentials | x_auth/get_auth_info.go:93-120 | It runs `cf service-key <target> <name>`. A command failure gives "Failed to get credentials '<name>' for service '<target>': " and the error. Otherwise it returns the captured JSON, or "Failed to fetch JSON credentials for service '<target>'" when nothing is captured. |
| XAuth.UnescapeIsIdentity | x_auth/get_auth_info.go:132-140 | `unescape` replaces '<', '>' and '&' by themselves, so it changes nothing. |
| XAuth.ExtractFromJson | x_auth/get_auth_info.go:123-154 | It fails exactly when decoding fails. Otherwise the credentials are the decoded ones, field for field. |
| XAuth.ParseFlags | x_auth/get_auth_info.go:157-174 | "-url" and "-x" are false unless set. A parse error yields a message without its argument. |
| XAuth.LookUpCredentials | x_auth/get_auth_info.go:177-211 | The lookup stops at the first failing stage in order: login, service, key name, key JSON, decoding. Each stop names that stage and carries that step's own error. Not being logged in wins over a login error. Found credentials are the decoded key of a service that is present. |
| XAuth.GetNewCredentials | x_auth/get_auth_info.go:308-345 | It returns exactly the credentials the lookup finds. Each stage's error after login is wrapped in its own prefix. |
| XAuth.RequestFor | x_auth/get_auth_info.go:215 | Every authentication uses the credentials' Auth_URL with "/v3" appended, their user, password and domain name, and an empty tenant. |
| XAuth.GetAuthInfo | x_auth/get_auth_info.go:177-222 | It makes one attempt, exactly when the lookup succeeds, with the found credentials. The lookup's error is returned unwrapped. |
| XAuth.GetAuthInfoUsesNewCredentials | x_auth/get_auth_info.go:177-222 | `GetAuthInfo` authenticates with exactly what `getNewCredentials` fetches, and fails before authenticating exactly when that fails. |
| XAuth.FirstCredentials | x_auth/get_auth_info.go:255-275 | A non-empty cache file supplies the first credentials with no lookup. A read or decode failure there is final, with its own message. An empty file means one lookup, whose failure gives "Failed to fetch a new set of credentials: " and the lookup's error. |
| XAuth.Save | x_auth/get_auth_info.go:292-305 | After a successful attempt, the credentials that worked are encoded and written. The run succeeds exactly when both steps pass. An encode failure gives "Failed to JSON encode credentials: " and a write failure "Failed to write credentials to file: ", each with its error. |
| XAuth.Retry | x_auth/get_auth_info.go:280-290 | A retry costs exactly one lookup. A second attempt happens exactly when that lookup succeeds, and it uses the looked-up credentials. A failed lookup gives "Failed to fetch a new set of credentials: ", and a failed second attempt "Failed to authenticate: ", each with its error. |
| XAuth.Attempts | x_auth/get_auth_info.go:277-305 | There are one or two attempts. When the first succeeds, nothing more is looked up, and the run succeeds exactly when encoding and writing pass, each with its own failure message. When the first fails, one lookup follows. Its failure gives "Failed to fetch a new set of credentials: ". Its success leads to a second attempt with the fresh credentials, whose failure gives "Failed to authenticate: ", and whose success leads to the save. |
| XAuth.Authenticate | x_auth/get_auth_info.go:224-306 | A setup failure ends the run before any lookup. A failure to get the first credentials ends it with that error, no attempt and nothing written. Otherwise the first attempt uses those credentials. If it fails, one more lookup follows, and a second attempt is made exactly when that lookup succeeds. There are at most two attempts. Success returns the last attempt's destination, and only then is anything written: the encoding of the credentials that worked. |
| XAuth.FirstAttemptUsesStartingCredentials | x_auth/get_auth_info.go:255-279 | The first attempt uses the cached credentials when the cache file is non-empty, and otherwise the looked-up ones. |
| XAuth.SecondAttemptOnlyAfterFailure | x_auth/get_auth_info.go:279-290 | A second attempt implies a failed first one, and it uses the credentials of the run's last lookup. |
| XAuth.LookupsPerRun | x_auth/get_auth_info.go:256-290 | A run makes at most two lookups. A cache hit saves one, and a successful run from the cache looks up only to retry. |
| XAuth.UndecodableCacheIsFinal | x_auth/get_auth_info.go:264-269 | An undecodable cache ends the run with no lookup and no attempt. |
| XAuth.CacheFileAsWritten | x_auth/get_auth_info.go:256-300 | As written, a successful run leaves the old cache contents followed by exactly the bytes it wrote. |
| XAuth.CacheFileAfter | x_auth/get_auth_info.go:294-303 | Corrected: a successful run leaves exactly the encoded credentials in the file. |
| XAuth.FreshRunSucceeds | x_auth/get_auth_info.go:270-305 | With an empty cache, a successful lookup and an accepting service, the run writes the looked-up credentials. |
| XAuth.CachedRunSucceeds | x_auth/get_auth_info.go:256-305 | With a decodable cache and an accepting service, the run writes the cached credentials again, with no lookup. |
| XAuth.RetryRunSucceeds | x_auth/get_auth_info.go:256-305 | Take cached credentials the service rejects, a lookup that succeeds, and a service that accepts its result. The run then makes two attempts and one lookup, succeeds with the second attempt's destination, and writes the looked-up credentials. |
| XAuth.CacheBreaksOnSecondRunAsWritten | x_auth/get_auth_info.go:243-303 | As written, the second run leaves two JSON documents in the file. The third run then fails with the decode error and no refetch, and it leaves the file as it was. |
| XAuth.CacheReadsBackAfterSuccess | x_auth/get_auth_info.go:256-303 | Corrected: after a successful run, the next run starts from the credentials that worked, with no lookup. |
| XAuth.CacheSurvivesRuns | x_auth/get_auth_info.go:243-303 | Corrected: repeated runs keep one copy of the credentials, and only the first run looks them up. |

## Left out

- The segment planner, the probing of existing segments, the worker pool, progress tracking and the manifest commit. They belong to the swiftlygo uploader library. The model only records the request handed to it and takes its answer as a parameter.
- The terminal writers (console_writer/writer.go, writer/writer.go). The ANSI colour codes and the line-clearing escape are also dropped from the success messages of `Slo.MakeSlo` and `Dlo.MakeDlo`.
- main.go and command/command.go: plugin wiring, not decision logic.
- Go's `flag` package, `encoding/json`, MD5 and the identity service. They are parameters of the model.
- The regular expression of `getJSONCredentials` is a parameter as well. The one of `getCredentialsName` is modelled with the usual leftmost-match reading: the rest of the line after the first "\nname\n".
- The storage-library wrappers `GetObjectInfo`, `ShowObjects`, `CopyObject`, `GetObject` and `DeleteObject` in object/object.go. The same goes for `GetContainerInfo`, `ShowContainers` and `DeleteContainer` in container/container.go. Each makes one library call and wraps its error.
- Object.PutObject: the caller's extra headers passed through to `ObjectCreate` are not recorded.
- SloLegacy.DerivedChunkSize: it uses integer ceiling division where the source computes `math.Ceil` on a float64. The two agree for file sizes below 2^53 bytes.
- Slo.MakeSlo, SloLegacy.MakeSlo: the chunk size and thread count stay Go `int`. The source converts them to `uint` for the uploader, which wraps a negative "-t" to a huge thread count in both versions. In `Slo.MakeSlo` a negative "-s" wraps to a huge chunk size the same way.
- XAuth.CacheFileAsWritten: it assumes one `Read` delivers the whole cache file, so the write lands right after its old contents.
- XAuth.FirstCredentials: it rests on the same assumption. It decodes the cache file's whole contents, as if one `Read` had returned them all.
- XAuth.Authenticate: the cache path is written as home + "/.cf/os_creds.json". The cleaning that `filepath.Join` applies to the home directory is not modelled.
- Command-name constants: the plugin namespace and the sixteen command names in help.go are declared in a file that is not part of this model. The namespace "os" and the names in `Help` are stand-ins the model chooses. Every property proved about them depends only on the names being pairwise different.
- Container.MakeContainer: the echoed lines are recorded as text. Writing them to standard output is not modelled.
- SloLegacy.ParseArgs, Slo.ParseArgs: they require at least three words. The Go functions index the first three words without a length check, so a shorter list panics with an index out of range. The `Result` these functions return has no panic case, so those inputs are left out.
- Dlo.ParseArgs, DloLegacy.ParseArgs, PutObjectCommand.ParseArgs: they require at least two words, for the same reason: Go panics on a shorter list. `Slo.MakeSlo` and `Dlo.MakeDlo`, which pass the words after the third to these parsers, do model that panic for short argument lists.
- Object.GetFileContents: the short read, where `Read` delivers fewer bytes than the file holds, is modelled as zero-filling the rest of the buffer. Which bytes arrive is a parameter.

## Notes on the source

- The older `make-slo` derives ceil(size / 1000) for a non-positive chunk request. A file of 1000 bytes or less therefore gets one-byte chunks, one chunk per byte, not a single chunk spanning the file (`SloLegacy.SmallFileOneByteChunks`). An empty file gets chunk size 0. The newer version defaults to 1 GB and only lowers the request to the file size. There, a small file is one chunk, and a zero or negative request is passed through unchecked.
- The help text of make-slo advertises "-j" for the thread count, while both versions read "-t".
- Several error messages use a `%s` verb with no argument. Go prints that verb as "%!s(MISSING)", and the model keeps this text. The affected messages are the request errors of `DeleteLargeObject`, the stat error of `getFileContents` and the parse error of `ParseFlags`.

## Findings

| source | as written | input that shows it | evidently intended | confidence | as-written member | corrected member |
|---|---|---|---|---|---|---|
| slo/make-slo.go:101-116 | `outFile, err :=` declares a new `err` inside the log-file branch. The uploader constructor's error lands there, and the check after the branch reads the outer, nil `err`. | `make-slo` with `-o log.txt` while `sg.NewUploader` fails: the nil uploader's `Status` is read and the command panics. | Report "Failed to create SLO uploader: …", as the branch without a log file does. | not executed; high | SloLegacy.MakeSloAsWritten, SloLegacy.UploaderErrorLostWithLogFile | SloLegacy.MakeSlo |
| x_auth/get_auth_info.go:243-300 | The cache file is opened read-write without truncation. After a cache hit has read it to the end, the fresh JSON is appended to the old. | Three successful logins in a row. The second leaves `{…}{…}` in the file, and the third fails with "Failed to extract JSON credentials: …" without refetching. Every later run fails the same way. | The file holds exactly the last good credentials, and later runs keep hitting the cache. | not executed; high | XAuth.CacheFileAsWritten, XAuth.CacheBreaksOnSecondRunAsWritten | XAuth.CacheFileAfter, XAuth.CacheReadsBackAfterSuccess, XAuth.CacheSurvivesRuns |
