# arma-bench in Dafny

A verified model of the core of arma-bench, a service that benchmarks SQF
scripts inside a throw-away Arma 3 dedicated server.

- **Client.** A client connects over TCP and exchanges a fixed 16-byte header
  and a one-byte acknowledgement with the server. It sends its session
  configuration (server binary, branch and branch password), then sends
  `Execute` or `Compare` requests.
- **Building a job.** For each request the server packs an addon archive (a
  PBO) under `<temp>/arma_bench/<uuid>`. The archive holds `config.cpp`, a
  generated bootstrap script, and the code under test.
- **Running a job.** The server installs the requested branch with `steamcmd`
  (an installation under twelve hours old is reused). It launches the game
  with the addon and waits for it to exit.
- **Reporting back.** The game-side extension writes the timing results as
  JSON to `/tmp/arma_bench/<uuid>/{execute,compare}.txt`. The server reads
  that file back and replies. Every message on the wire is an 8-byte
  little-endian length followed by the payload.

## Modules

One module per source file, plus three shared ones.

- `Base`: the shared vocabulary.
  - `Option`, `Result`.
  - `Run`, the outcome of code that may `expect`: it finishes, or panics with the `expect` text.
  - `byte`, `u16`, `u32`.
  - Paths as lists of components.
- `Bytes`: the little-endian `u64` length and UTF-8 `as_bytes`.
- `Decimal`: `u16::to_string` and `str::parse::<u16>`.
- `Protocol` (`client/src/lib.rs`): message types and framing.
  - A connection end is the `Stream` class: incoming bytes and a read position; written bytes and a flushed count.
  - The payload codecs are a `Codec` pair of functions. The round trip is a precondition (`RoundTrips`), never an axiom.
- `ClientSide` (`client/src/client.rs`): the handshake, `execute` and `compare`.
- `Pbo`: the `WritablePbo` class, as an ordered list of entries plus header properties.
- `FileSystem`: a class holding a set of directories and a map of files.
- `Build` (`server/src/build.rs`): the archive, the bootstrap text, `build` and `Drop`.
- `Arma` (`server/src/arma.rs`): the install cache rule, the `steamcmd` command and the launch command.
- `Extension` (`extension/src/lib.rs`): result conversion and the result files.
- `Server` (`server/src/lib.rs`): `process` and `handle`.

Each stateful operation is a method proved against a specification function.

- `Server.Process` against `Session`, `Build.FillArchive` against `ArchiveFor`, `Arma.Install` against `InstallResult`.
- `Server.Handle` against `HandleReply` and the pruned filesystem.
- The lemmas beside each function prove what the source promises about it.

A `Compare` request with no scripts gives the bootstrap loop the array `[""]`
(`Build.ForEachIds`). Whether the game then runs the loop body with that id
depends on SQF, which is not modelled. If that id does reach the extension,
`Extension.CompareBadId` applies: `Decimal.ParseU16` of `""` is `Err(Empty)`.

## Model

| member | source | states |
|---|---|---|
| Bytes.FromToLe | client/src/lib.rs:27-29 | decoding the `k` little-endian bytes of any `n < 256^k` gives back `n` |
| Bytes.ToFromLe | client/src/lib.rs:27-29 | re-encoding the value of any byte string at its own width gives back the bytes |
| Bytes.U64LeRoundTrip | client/src/lib.rs:45-46 | the eight length bytes of `payload.len()` decode to that length |
| Bytes.U64Le | client/src/lib.rs:45-46 | `(len as u64).to_le_bytes()`: always eight bytes; `U64LeRoundTrip` reads them back as the length |
| Bytes.Utf8 | server/src/build.rs:47 | `as_bytes` of a string: at least one byte per character; `Utf8Append` and `Utf8Ascii` prove how it composes |
| Bytes.Utf8Append | server/src/build.rs:79-100 | `as_bytes` of a concatenation, such as the formatted bootstrap, is the concatenation of the bytes |
| Bytes.Utf8Ascii | client/src/lib.rs:12 | ASCII text encodes to one byte per character, holding its code |
| Decimal.ToDecimal | server/src/build.rs:74 | the printed id is a non-empty string of decimal digits |
| Decimal.ParseU16 | extension/src/lib.rs:45 | the empty string fails with `Empty`; a successful parse had input |
| Decimal.Accumulate | extension/src/lib.rs:45 | the digit loop of `parse::<u16>`; `AccumulateSnoc` and `AccumulateDecimal` prove it reads decimal text as its value |
| Decimal.AccumulateSnoc | extension/src/lib.rs:45 | reading one more digit multiplies the value read so far by ten and adds the digit |
| Decimal.AccumulateDecimal | extension/src/lib.rs:45 | the digit loop reads the decimal text of any `n <= 65535` back as `n` |
| Decimal.ParseToDecimal | extension/src/lib.rs:45 | `parse::<u16>(n.to_string()) == Ok(n)` for every `u16` |
| Decimal.ToDecimalInjective | server/src/build.rs:74-75 | distinct ids print as distinct strings |
| Protocol.HeaderIdText | client/src/lib.rs:12 | `HEADER_ID` is the 16 bytes of `ARMABENCH-VER010` |
| Protocol.Stream.ReadExact | client/src/lib.rs:28 | fills the buffer with the next bytes and advances by its length, or fails exactly when fewer bytes remain |
| Protocol.Stream.WriteAll | client/src/lib.rs:47-48 | appends the bytes to what was written |
| Protocol.Stream.Flush | client/src/lib.rs:94 | everything written so far is flushed |
| Protocol.Frame | client/src/lib.rs:44-48 | a frame is 8 bytes longer than its payload and ends with the payload |
| Protocol.ReadFrame | client/src/lib.rs:27-33 | a read never consumes more than is there, and a message costs at least the 8 length bytes |
| Protocol.FrameLength | client/src/lib.rs:45-47 | the length header of a frame decodes to the payload length |
| Protocol.ReadFrameConsumes | client/src/lib.rs:27-31 | a successful read consumes exactly `8 + len` bytes and decodes the payload between them |
| Protocol.ReadFrameShort | client/src/lib.rs:28-31 | fewer than 8 bytes, or fewer payload bytes than announced, give `UnexpectedEof` and no message |
| Protocol.ReadFrameOverflow | client/src/lib.rs:29 | a length above the reader's `usize` gives an error after the 8 length bytes |
| Protocol.FrameRoundTrip | client/src/lib.rs:23-49 | reading back what `write` emitted, followed by anything, gives the message and consumes exactly the frame |
| Protocol.ReadFrameIsFrame | client/src/lib.rs:23-49 | conversely, the bytes of every accepted message are the frame of its payload |
| Protocol.FromReader | client/src/lib.rs:23-34 | `from_reader` returns `ReadFrame`'s result and advances by its consumed count |
| Protocol.FromAsyncReader | client/src/lib.rs:52-74 | the async reader returns the same result and consumes the same bytes as the sync one |
| Protocol.Write | client/src/lib.rs:43-49 | `write` appends exactly the frame of the encoded payload, or nothing when encoding fails |
| Protocol.WriteAsync | client/src/lib.rs:77-96 | the async writer appends the same bytes as `write` and then flushes them |
| ClientSide.Handshake | client/src/client.rs:24-55 | the client never consumes more than the server sent |
| ClientSide.HandshakeOrder | client/src/client.rs:27-43 | the client sends the header first, and sends the configuration only after reading a matching header |
| ClientSide.HandshakeBadHeader | client/src/client.rs:32-38 | a wrong header gives `Err("Invalid header ID")` having sent only the header |
| ClientSide.HandshakeBadAck | client/src/client.rs:46-50 | an acknowledgement byte other than 1 gives `Err("Invalid ACK")` |
| ClientSide.Exchange | client/src/client.rs:76-82 | one request/response exchange as a trace; it never consumes more than the server sent |
| ClientSide.ExchangeOneEach | client/src/client.rs:76-82 | one call writes exactly its request's frame and reads exactly one response frame |
| ClientSide.Client.Execute | client/src/client.rs:75-88 | `execute` sends and reads what `Exchange` says, panics with its `expect` texts, and maps the response by `ExecuteOutcome` |
| ClientSide.Client.Compare | client/src/client.rs:97-110 | `compare` likewise, with `Failed to write request` and `CompareOutcome` |
| ClientSide.OpenSession | client/src/client.rs:27-50 | the handshake steps write and read exactly what `Handshake` says and end as it says |
| ClientSide.ConnectWithPort | client/src/client.rs:24-55 | dials `host:port`; a client is returned only after both checks pass; each error and panic passes through |
| ClientSide.Connect | client/src/client.rs:64-66 | `connect` dials port 7562 and otherwise behaves like `connect_with_port` |
| Pbo.WritablePbo.AddProperty | server/src/build.rs:46 | appends one header property |
| Pbo.WritablePbo.AddFile | server/src/build.rs:47-48 | appends one named entry after the earlier ones |
| FileSystem.PruneRemovesSubtree | server/src/build.rs:13 | after removal nothing at or below the directory remains, everything else stays with its contents, and removing again changes nothing |
| FileSystem.PruneNested | server/src/build.rs:13 | removing a subdirectory and then its ancestor leaves what removing the ancestor alone leaves |
| FileSystem.FileSystem.CreateDirAll | server/src/build.rs:23 | the directory and all its ancestors exist afterwards, and nothing else changes |
| FileSystem.FileSystem.CreateFile | server/src/build.rs:44 | creating a file succeeds exactly when its parent directory exists, and replaces any earlier file |
| FileSystem.FileSystem.Read | server/src/lib.rs:73-74 | reading gives the file's contents, or nothing when there is no file |
| FileSystem.FileSystem.Overlay | server/src/lib.rs:69 | the files the game wrote while the server waited are added |
| FileSystem.FileSystem.RemoveDirAll | server/src/build.rs:13 | fails exactly when the directory is missing; otherwise removes it with everything below it |
| Build.ConfigEntry | server/src/build.rs:47-48 | the descriptor entry is named `config.cpp` |
| Build.ScratchDirsDisjoint | server/src/build.rs:18-22 | every build directory lies under the temp directory, and builds with different uuids own disjoint trees |
| Build.ExecuteLines | server/src/build.rs:51-63 | the lines of the execute bootstrap; `ExecuteBootstrap` proves what they call |
| Build.CompareLines | server/src/build.rs:79-99 | the lines of the compare bootstrap; `CompareBootstrap` and `ForEachIds` prove what they call and loop over |
| Build.Render | server/src/build.rs:51-63 | the raw-string layout of a script; `RenderHasLine` and `RenderEndsWith` prove every line is in it and how it ends |
| Build.BootstrapBytesHoldLine | server/src/build.rs:51-65 | the bytes stored for `bootstrap.sqf` contain the bytes of each of its lines |
| Build.RenderHasLine | server/src/build.rs:51-63 | every template line appears as a line of the rendered script |
| Build.RenderEndsWith | server/src/build.rs:61-63 | the rendered script ends with its last line, then the closing indent |
| Build.JoinIds | server/src/build.rs:98 | `ids.join("\", \"")`; `SplitJoin` proves it can be read back |
| Build.SplitIds | server/src/build.rs:92 | reading the array literal back splits at every separator, giving at least one id |
| Build.SplitJoin | server/src/build.rs:98 | splitting the joined ids at `", "` gives back the ids, in order, when none contains a quote |
| Build.CollectOneMore | server/src/build.rs:72-77 | one more loop iteration adds the script's id and its entry at the end |
| Build.ArchiveFor | server/src/build.rs:44-102 | the archive `build` writes; `FillArchive` produces it and `ExecuteArchive`, `CompareArchive`, `CompareNamesDistinct` state its shape |
| Build.FillArchive | server/src/build.rs:45-102 | the filled archive is exactly `ArchiveFor(request, uuid)` |
| Build.RequestEntries | server/src/build.rs:49-103 | the entries after `config.cpp`: the request's own files and its bootstrap; `ExecuteArchive` and `CompareArchive` state them |
| Build.AddRequestFiles | server/src/build.rs:49-103 | the `match` adds exactly `RequestEntries` after the entries already there and keeps the properties |
| Build.AddScripts | server/src/build.rs:72-78 | the `for` loop adds one entry per script, in order, after the earlier ones, and collects the ids as `IdStrings`; its invariants keep what was collected so far |
| Build.ExecuteArchive | server/src/build.rs:50-68 | an `Execute` archive has prefix `tab` and holds exactly `config.cpp`, `bootstrap.sqf`, `bench.sqf`; `bench.sqf` is the content unchanged |
| Build.CompareArchive | server/src/build.rs:71-101 | a `Compare` archive has prefix `tab`, then `config.cpp`, then one entry per script in order, then `bootstrap.sqf` |
| Build.FileName | server/src/build.rs:75 | `<id>.sqfc` or `<id>.sqf`; `FileNameInjective` and `FileNameStartsWithDigit` prove it names each script apart |
| Build.FileNameInjective | server/src/build.rs:75 | an entry name determines the script's id and whether it is compiled |
| Build.FileNameStartsWithDigit | server/src/build.rs:75 | a script's entry name begins with a digit |
| Build.CompareNamesDistinct | server/src/build.rs:71-101 | scripts with distinct ids give an archive whose entry names are pairwise distinct |
| Build.ExecuteBootstrap | server/src/build.rs:51-64 | the execute bootstrap arms a 30-second timeout and reports results under the build id; it ends with the `die` call |
| Build.CompareBootstrap | server/src/build.rs:79-99 | the compare bootstrap arms a 120-second timeout, loops over the joined ids and reports under the build id; it ends with `die` |
| Build.ForEachIds | server/src/build.rs:92-98 | the loop's array reads back as exactly the ids in order (`[""]` with no scripts), and each id parses back to its script's id |
| Build.Build | server/src/build.rs:17-108 | creates `<temp>/arma_bench/<uuid>/addons`, writes `ArchiveFor` to `execute.pbo` in it, and returns the parent of `addons` |
| Build.Drop | server/src/build.rs:11-15 | removes the build directory and everything below it; panics with `Failed to remove temp directory`, changing nothing, when it is gone |
| Arma.Command.Arg | server/src/arma.rs:32-35 | appends one argument |
| Arma.Command.CurrentDir | server/src/arma.rs:59 | sets the working directory |
| Arma.LowerFolds | server/src/arma.rs:12-13 | lower-casing keeps the length, leaves no `A`..`Z`, changes no other character, and is idempotent |
| Arma.InstallPath | server/src/arma.rs:12-13 | `/opt/servers/<lower-cased branch>`; `DefaultSteamcmdArgs` computes it for the default configuration |
| Arma.Fresh | server/src/arma.rs:15-26 | the cache rule: the age could be read and is under 43200 seconds |
| Arma.SteamcmdArgs | server/src/arma.rs:31-45 | the `steamcmd` arguments; `SteamcmdArgsShape` proves their order and which flags appear |
| Arma.InstallResult | server/src/arma.rs:10-53 | what `install` returns; `FreshSkipsSteamcmd` and `InstallErrors` prove its cases |
| Arma.SteamcmdCommand | server/src/arma.rs:31-45 | the built command is `/steamcmd/steamcmd.sh` with exactly `SteamcmdArgs` |
| Arma.Install | server/src/arma.rs:10-53 | `install` returns `InstallResult`; `steamcmd` runs exactly when the installation is stale and both credentials are set |
| Arma.FreshSkipsSteamcmd | server/src/arma.rs:15-26 | an installation under 43200 seconds old is returned without reading credentials or running anything |
| Arma.InstallErrors | server/src/arma.rs:27-51 | otherwise `STEAM_USER` then `STEAM_PASS` are required, a failed run is an error, and success gives the install path |
| Arma.SteamcmdArgsShape | server/src/arma.rs:31-46 | fixed head; `-beta <branch>` iff the branch is not `public`; `-betapassword <pw>` iff a password is set; then `validate`, `+quit` |
| Arma.DefaultSteamcmdArgs | server/src/arma.rs:12-46 | the default configuration installs into `/opt/servers/public` with no beta flags |
| Arma.LaunchArgs | server/src/arma.rs:60-65 | the game's arguments; `StartLaunchesBuild` proves they name the build |
| Arma.StartResult | server/src/arma.rs:55-69 | what `start` returns; `StartErrors` and `StartLaunchesBuild` prove its cases |
| Arma.Start | server/src/arma.rs:55-69 | `start` returns `StartResult`: install's error, the spawn error, or the name and the spawned command |
| Arma.StartLaunchesBuild | server/src/arma.rs:58-65 | the game runs `<path>/<binary>` from `<path>`, `-name=<name>` first and the build's `-mod` argument last |
| Arma.StartErrors | server/src/arma.rs:56-67 | `start` fails exactly when `install` or the spawn fails, and with that error |
| Extension.ResultFileInjective | extension/src/lib.rs:17-20 | different ids or file names never give the same result file |
| Extension.ResultKindsDiffer | extension/src/lib.rs:37-40 | the execute and compare results of one run are different files |
| Extension.CompareRecords | extension/src/lib.rs:42-50 | succeeds iff every id parses, with one result per tuple in order (parsed id, copied time, iterations and value); otherwise panics `Failed to parse ID` |
| Extension.CompareIdsRoundTrip | extension/src/lib.rs:45 | tuples carrying printed ids convert without panic, and each result carries its id |
| Extension.CompareBadId | extension/src/lib.rs:45 | any id that does not parse as `u16` panics |
| Extension.Execute | extension/src/lib.rs:15-31 | writes the `ExecuteResult` built from the sample to `execute.txt`; panics if the directory is missing or encoding fails |
| Extension.Compare | extension/src/lib.rs:34-54 | creates `compare.txt`, converts the samples, and writes the results; a bad id panics and leaves the file empty |
| Server.ResultReply | server/src/lib.rs:70-100 | the reply built from the result file; `HandleReadFailure` and the end-to-end lemmas prove its cases |
| Server.HandleReply | server/src/lib.rs:56-102 | what `handle` replies; `HandleReplyKinds`, `HandleStartFailure` and `HandleReadFailure` prove its cases |
| Server.HandleReplyKinds | server/src/lib.rs:56-102 | an `Execute` job is answered with `Error` or `Execute(Ok ..)`, a `Compare` job with `Error` or `Compare(Ok ..)`, never with `Err` inside |
| Server.HandleStartFailure | server/src/lib.rs:61-68 | when `start` fails the reply is its error, whatever the result file holds |
| Server.HandleReadFailure | server/src/lib.rs:70-100 | a missing or undecodable result file gives the panic reply |
| Server.ResultFilesAgree | server/src/lib.rs:73-88 | the file the extension writes is the one `handle` reads, when the temp directory is `/tmp` |
| Server.ExecuteEndToEnd | server/src/lib.rs:70-85 | the `ExecuteResult` the extension encoded is what `handle` replies and what the client's `execute` returns |
| Server.CompareEndToEnd | server/src/lib.rs:86-100 | one result per script, in order, each with its script's id, reaches the client's `compare` |
| Server.Handle | server/src/lib.rs:56-102 | replies `HandleReply` for the build's result file; the build directory is removed on every path and nothing remains under it |
| Server.RunBuilt | server/src/lib.rs:61-100 | after the build: start, wait, read, reply, and remove the build directory |
| Server.JobQueue.Send | server/src/lib.rs:143-152 | appends one job to the queue |
| Server.Greet | server/src/lib.rs:110-135 | a successful handshake consumed the 16 header bytes and a whole configuration frame; a refused one wrote only the header |
| Server.Session | server/src/lib.rs:104-160 | one connection's transcript; it never consumes more than the client sent |
| Server.Serve | server/src/lib.rs:137-159 | the request loop's transcript; it never consumes more than remains |
| Server.Replies | server/src/lib.rs:143-158 | the reply frames of the given jobs, front first; `ServeRepliesInOrder` proves the loop writes exactly them |
| Server.Step | server/src/lib.rs:138-158 | a round that continues consumed a whole request frame, and its job carries the session configuration |
| Server.Process | server/src/lib.rs:104-160 | `process` writes, flushes, reads and queues exactly what `Session` says, and ends as it says |
| Server.Handshake | server/src/lib.rs:110-135 | header, echo check, configuration, then the acknowledgement 1, as `Greet` says |
| Server.ServeRequests | server/src/lib.rs:137-159 | the loop writes, reads and queues what `Serve` says, and ends as it says |
| Server.ServeOne | server/src/lib.rs:138-158 | one iteration of the loop, as `Step` says |
| Server.Answer | server/src/lib.rs:143-158 | queues the job, then writes and flushes the reply's frame, or nothing when it cannot be encoded |
| Server.SessionHeaderFirst | server/src/lib.rs:111-120 | whatever the client sends, the server's first 16 bytes are the header |
| Server.SessionBadHeader | server/src/lib.rs:121-124 | a wrong echo ends the connection having written only the header, read no configuration and queued no job |
| Server.ServeJobs | server/src/lib.rs:137-159 | every queued job carries the session configuration, and the loop ends only on a read or write failure |
| Server.SessionAck | server/src/lib.rs:128-135 | after a good echo and configuration the output is the header then the single byte 1, and every job carries the configuration |
| Server.ServeRepliesInOrder | server/src/lib.rs:137-159 | the loop's output is the reply of each queued job, in order, and nothing else |
| Server.SessionRepliesInOrder | server/src/lib.rs:111-159 | a whole connection writes the header, the byte 1, then the replies of its jobs in order |
| Server.HandshakeAgreement | server/src/lib.rs:111-135 | a client that echoes the header and sends its configuration completes its own handshake against what the server writes |

## Left out

- The MessagePack and JSON payload encodings (`rmp_serde`, `serde_json`) are `Codec` parameters. Where a round trip is needed it is a precondition.
- The binary PBO layout written by `hemtt_pbo` is left out. A written archive is the `Pbo.Archive` value.
- UUID generation, `std::env::temp_dir`, the installation's modification age, the Steam environment variables, and process outcomes are inputs. The process outcomes are the `steamcmd` output or spawn error, the game's spawn error, and the files the game writes before it exits (`game`).
- Concurrency is left out: tokio tasks, the bounded channel of capacity 16, the oneshot reply, the worker loop, and the client's `Mutex`.
  - `Server.Process` takes the worker's reply to the n-th job as a function.
  - The panics `Failed to send request` and `Failed to receive response` therefore do not occur in the model.
- Server.Process: writes and flushes never fail, so the panics `Failed to write header ID`, `Failed to flush` and `Failed to write ACK` are not modelled. A read fails only at end of stream; other socket errors are left out. The same holds for the client's `Failed to send header ID`.
- Build.Build: directory and file creation always succeeds. The panics of `create_dir_all`, `File::create`, `add_file` and `write` are left out.
- The game's writes are a map of files added while `handle` waits. Their timing relative to the extension is not modelled.
- Extension.Execute: a failed JSON encode leaves the file empty. `serde_json::to_writer` can leave a partial prefix instead.
- Extension.Compare: the same simplification applies.
- `std::process::exit` in the extension ends the method and is not otherwise modelled.
- Arma.Lower: lower-cases ASCII letters only. Rust's `to_lowercase` also maps non-ASCII letters.
- A path join adds one component. Ids or binary names containing `/` are not split into several components.
- `f64` timings and `arma_rs::Value` are carried as opaque values, with no arithmetic.
- The SQF meaning of the bootstrap is not modelled; only its text is. The `timeout` and `die` extension commands are not part of this model: `extension/src/lib.rs` registers only `execute` and `compare`.
- The width of `usize` is the parameter `usizeMax` in `Wire`.
- Protocol.ReadFrame: the allocation of the payload buffer never fails. In the source `vec![0; len]` panics with `capacity overflow` above `isize::MAX` and aborts when memory runs out; the model instead reads on and reports end of stream.
- Protocol.FromReader: the same allocation failure is left out, so a caller panics with its own read-failure text instead.
- Protocol.FromAsyncReader: the same allocation failure is left out.
- `peer_addr`, logging, `server/src/main.rs` and the client examples are left out.
- Server.Handle: the panic text of a failed result read is fixed as `panic: Any { .. }`, the `Debug` form of a boxed panic payload.
