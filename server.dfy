/** The benchmark server (server/src/lib.rs): `process`, which runs one
    connection (handshake, then a loop of request in, job queued, reply
    out), and `handle`, which runs one job (build, start the game, wait,
    read the result file, reply). The worker that answers queued jobs is
    a parameter of `process`; `handle` is modelled on its own, with the
    world outside it (temp directory, uuid, installation, environment,
    processes, what the game wrote) as inputs. */
module Server {
  import opened Base
  import opened Bytes
  import opened Protocol
  import opened FileSystem
  import opened Build
  import Arma
  import Extension
  import ClientSide

  /** `InternalRequest`: a request together with its session's configuration. */
  datatype Job = Job(config: ServerConfig, request: Request)

  /** The JSON codecs of the two result files. */
  datatype Json = Json(execute: Codec<ExecuteResult>, compare: Codec<seq<CompareResult>>)

  /** The reply to a job whose result-file closure panicked: the `{:?}`
      text of the panic payload. */
  const PANIC_REPLY: string := "panic: Any { .. }"

  /** Everything `handle` learns from outside: the temp directory and the
      uuid `build` draws, the installation's age, the Steam variables and
      the `steamcmd` outcome `install` meets, the name and spawn outcome of
      `start`. */
  datatype JobEnv = JobEnv(temp: Path, uuid: string, age: Option<nat>, env: Arma.Env,
                           steamcmd: Result<Arma.Output, string>, name: string, spawnError: Option<string>)

  /** The result file a job reads: `execute.txt` or `compare.txt`. */
  function ResultName(request: Request): string
  {
    match request
    case Execute(_) => Extension.EXECUTE_FILE
    case Compare(_) => Extension.COMPARE_FILE
  }

  /** What `start` gives `handle`. */
  function Started(job: Job, env: JobEnv): Result<(string, Arma.Invocation), string>
  {
    Arma.StartResult(job.config, BuiltRequest(ScratchDir(env.temp, env.uuid)), env.age, env.env,
                     env.steamcmd, env.name, env.spawnError)
  }

  /** `read_to_string` then `serde_json::from_str`: the value, or `None`
      when either panics (no file, or a file that does not decode). */
  function ReadResult<T>(c: Codec<T>, file: Option<Content>): Option<T>
  {
    match file
    case Some(Bytes(data)) =>
      (match c.decode(data)
       case Ok(v) => Some(v)
       case Err(_) => None)
    case _ => None
  }

  /** The reply of a job whose game ran, from what its result file holds:
      the decoded result under the request's own kind, or the panic reply. */
  function ResultReply(json: Json, request: Request, file: Option<Content>): Response
  {
    match request
    case Execute(_) =>
      (match ReadResult(json.execute, file)
       case None => Response.Error(PANIC_REPLY)
       case Some(result) => Response.Execute(Ok(result)))
    case Compare(_) =>
      (match ReadResult(json.compare, file)
       case None => Response.Error(PANIC_REPLY)
       case Some(results) => Response.Compare(Ok(results)))
  }

  /** The reply `handle` sends for `job`, where `file` is what the result
      file holds once the game has exited. */
  function HandleReply(json: Json, job: Job, env: JobEnv, file: Option<Content>): Response
  {
    match Started(job, env)
    case Err(e) => Response.Error(e)
    case Ok(_) => ResultReply(json, job.request, file)
  }

  /** `handle` answers an `Execute` job with `Error` or `Execute(Ok ..)`,
      a `Compare` job with `Error` or `Compare(Ok ..)`, and never with
      `Execute(Err ..)` or `Compare(Err ..)`. */
  lemma HandleReplyKinds(json: Json, job: Job, env: JobEnv, file: Option<Content>)
    ensures var reply := HandleReply(json, job, env, file);
      && (job.request.Execute? ==> reply.Error? || (reply.Execute? && reply.executed.Ok?))
      && (job.request.Compare? ==> reply.Error? || (reply.Compare? && reply.compared.Ok?))
  {
  }

  /** When `start` fails the reply is its error, whatever the result
      file holds: no result file is read. */
  lemma HandleStartFailure(json: Json, job: Job, env: JobEnv, file: Option<Content>, other: Option<Content>)
    requires Started(job, env).Err?
    ensures HandleReply(json, job, env, file) == Response.Error(Started(job, env).error)
    ensures HandleReply(json, job, env, file) == HandleReply(json, job, env, other)
  {
  }

  /** A missing or undecodable result file becomes the panic reply. */
  lemma HandleReadFailure(json: Json, job: Job, env: JobEnv, file: Option<Content>)
    requires Started(job, env).Ok?
    requires job.request.Execute? ==> ReadResult(json.execute, file).None?
    requires job.request.Compare? ==> ReadResult(json.compare, file).None?
    ensures HandleReply(json, job, env, file) == Response.Error(PANIC_REPLY)
  {
  }

  /** The file the extension writes is the one `handle` reads, when the
      temp directory is `/tmp`. */
  lemma ResultFilesAgree(uuid: string, request: Request)
    ensures Extension.ResultFile(uuid, ResultName(request)) == ScratchDir(["tmp"], uuid) + [ResultName(request)]
    ensures Under(ScratchDir(["tmp"], uuid), Extension.ResultFile(uuid, ResultName(request)))
  {
  }

  /** End to end for `execute`: the `ExecuteResult` the extension wrote
      for this build is the one `handle` replies with, and the one the
      client's `execute` returns. */
  lemma ExecuteEndToEnd(json: Json, job: Job, env: JobEnv, data: (F64, u32), value: Value, bytes: seq<byte>)
    requires RoundTrips(json.execute)
    requires job.request.Execute? && Started(job, env).Ok?
    requires json.execute.encode(ExecuteResult(data.0, data.1, value)) == Ok(bytes)
    ensures HandleReply(json, job, env, Some(Bytes(bytes))) == Response.Execute(Ok(ExecuteResult(data.0, data.1, value)))
    ensures ClientSide.ExecuteOutcome(HandleReply(json, job, env, Some(Bytes(bytes)))) == Ok(ExecuteResult(data.0, data.1, value))
  {
  }

  /** End to end for `compare`: when the game reports one sample per
      script under the id the bootstrap printed, `handle` replies with one
      result per script, in order, each carrying its script's id, and the
      client's `compare` returns them. */
  lemma CompareEndToEnd(json: Json, items: seq<CompareRequest>, config: ServerConfig, env: JobEnv,
                        samples: seq<Extension.Sample>, bytes: seq<byte>)
    requires RoundTrips(json.compare)
    requires Started(Job(config, Request.Compare(items)), env).Ok?
    requires |samples| == |items|
    requires forall k :: 0 <= k < |items| ==> samples[k].0 == IdStrings(items)[k]
    requires Extension.CompareRecords(samples).Done?
    requires json.compare.encode(Extension.CompareRecords(samples).value) == Ok(bytes)
    ensures var reply := HandleReply(json, Job(config, Request.Compare(items)), env, Some(Bytes(bytes)));
      && reply == Response.Compare(Ok(Extension.CompareRecords(samples).value))
      && ClientSide.CompareOutcome(reply).Ok?
      && |ClientSide.CompareOutcome(reply).value| == |items|
      && forall k :: 0 <= k < |items| ==> ClientSide.CompareOutcome(reply).value[k].id == items[k].id
  {
    var ids := seq(|items|, k requires 0 <= k < |items| => items[k].id);
    Extension.CompareIdsRoundTrip(samples, ids);
  }

  /** `handle`: build the request, start the game (replying with the error
      when that fails), wait for it — `game` is what it wrote meanwhile —
      then read, decode and reply with the result file. Dropping the
      built request removes its directory on every path. */
  method Handle(fs: FileSystem, json: Json, job: Job, env: JobEnv, game: map<Path, Content>)
    returns (reply: Response)
    modifies fs
    ensures reply == HandleReply(json, job, env,
      Lookup(old(fs.files) + game, ScratchDir(env.temp, env.uuid) + [ResultName(job.request)]))
    ensures var scratch := ScratchDir(env.temp, env.uuid);
      var built := old(fs.files)[PboPath(env.temp, env.uuid) := PboFile(ArchiveFor(job.request, env.uuid))];
      && fs.dirs == PrunedDirs(old(fs.dirs) + Ancestry(AddonsDir(env.temp, env.uuid)), scratch)
      && fs.files == PrunedFiles(if Started(job, env).Ok? then built + game else built, scratch)
    ensures forall q :: q in fs.files ==> !Under(ScratchDir(env.temp, env.uuid), q)
  {
    var built := Build.Build(fs, job.request, env.temp, env.uuid);
    ghost var scratch := ScratchDir(env.temp, env.uuid);
    assert scratch == AddonsDir(env.temp, env.uuid)[..|scratch|];
    ghost var resultPath := scratch + [ResultName(job.request)];
    assert Lookup(fs.files + game, resultPath) == Lookup(old(fs.files) + game, resultPath) by {
      assert resultPath != PboPath(env.temp, env.uuid);
    }
    reply := RunBuilt(fs, json, job, env, built, game);
  }

  /** The rest of `handle` once the request is built: start, wait, read
      the result file, reply, and remove the built directory. */
  method RunBuilt(fs: FileSystem, json: Json, job: Job, env: JobEnv, built: BuiltRequest, game: map<Path, Content>)
    returns (reply: Response)
    requires built.path == ScratchDir(env.temp, env.uuid) && built.path in fs.dirs
    modifies fs
    ensures reply == HandleReply(json, job, env, Lookup(old(fs.files) + game, built.path + [ResultName(job.request)]))
    ensures fs.dirs == PrunedDirs(old(fs.dirs), built.path)
    ensures fs.files == PrunedFiles(if Started(job, env).Ok? then old(fs.files) + game else old(fs.files), built.path)
  {
    var started := Arma.Start(job.config, built, env.age, env.env, env.steamcmd, env.name, env.spawnError);
    if started.Err? {
      reply := Response.Error(started.error);
      var _ := Build.Drop(fs, built);
      return;
    }
    fs.Overlay(game);
    var file := fs.Read(built.path + [ResultName(job.request)]);
    var _ := Build.Drop(fs, built);
    reply := ResultReply(json, job.request, file);
  }

  /** The channel into the worker: the jobs sent so far, in order. */
  class JobQueue {
    var jobs: seq<Job>

    constructor ()
      ensures jobs == []
    {
      jobs := [];
    }

    method Send(job: Job)
      modifies this`jobs
      ensures jobs == old(jobs) + [job]
    {
      jobs := jobs + [job];
    }
  }

  /** How a connection ends: the client's header echo was wrong, or a
      read or write on the connection failed and the task panicked. */
  datatype SessionEnd = HeaderMismatch | Panicked(message: string)

  /** A connection, or the rest of one, as the server runs it: the bytes
      it writes, the jobs it queues, the bytes it reads, and how it ends. */
  datatype Transcript = Transcript(output: seq<byte>, jobs: seq<Job>, consumed: nat, end: SessionEnd)

  /** The handshake of `process` on a connection whose client sends
      `incoming`: either it gives the session configuration and the bytes
      it consumed, or it ends the connection. */
  datatype Greeting = Greeted(config: ServerConfig, consumed: nat) | Refused(transcript: Transcript)

  /** Write the header, read the client's 16-byte echo and compare it,
      then read the session configuration. */
  function Greet(w: Wire, incoming: seq<byte>): (g: Greeting)
    ensures g.Greeted? ==> 16 + 8 <= g.consumed <= |incoming|
    ensures g.Refused? ==> g.transcript.output == HEADER_ID && g.transcript.jobs == [] && g.transcript.consumed <= |incoming|
  {
    if |incoming| < 16 then Refused(Transcript(HEADER_ID, [], |incoming|, Panicked("Failed to read header ID")))
    else if incoming[..16] != HEADER_ID then Refused(Transcript(HEADER_ID, [], 16, HeaderMismatch))
    else
      var d := ReadFrame(w.config, w.usizeMax, incoming[16..]);
      match d.result
      case Err(_) => Refused(Transcript(HEADER_ID, [], 16 + d.consumed, Panicked("Failed to read server config")))
      case Ok(config) => Greeted(config, 16 + d.consumed)
  }

  /** `process` on a connection whose client sends `incoming`; `reply`
      is the worker's answer to the `n`-th job of the connection. After a
      good handshake the server writes the acknowledgement byte 1. */
  function Session(w: Wire, incoming: seq<byte>, reply: (nat, Job) -> Response): (t: Transcript)
    ensures t.consumed <= |incoming|
  {
    match Greet(w, incoming)
    case Refused(t) => t
    case Greeted(config, consumed) =>
      var t := Serve(w, config, incoming[consumed..], reply, 0);
      Transcript(HEADER_ID + [1] + t.output, t.jobs, consumed + t.consumed, t.end)
  }

  /** One round of the request loop: it ends the connection, or it
      writes `output` in reply to `job` having read `consumed` bytes. */
  datatype Round = Stop(transcript: Transcript) | Continue(output: seq<byte>, job: Job, consumed: nat)

  /** The `n`-th round of the request loop on the bytes `rest` still to
      read: read a request, queue it with the session configuration, and
      write the frame of the worker's reply. */
  function Step(w: Wire, config: ServerConfig, rest: seq<byte>, reply: (nat, Job) -> Response, n: nat): (r: Round)
    ensures r.Stop? ==> r.transcript.output == [] && |r.transcript.jobs| <= 1 && r.transcript.consumed <= |rest|
    ensures r.Continue? ==> 8 <= r.consumed <= |rest| && r.job.config == config
  {
    var d := ReadFrame(w.request, w.usizeMax, rest);
    match d.result
    case Err(_) => Stop(Transcript([], [], d.consumed, Panicked("Failed to read request")))
    case Ok(request) =>
      var job := Job(config, request);
      match EncodeFrame(w.response, reply(n, job))
      case Err(_) => Stop(Transcript([], [job], d.consumed, Panicked("Failed to write response")))
      case Ok(f) => Continue(f, job, d.consumed)
  }

  /** The request loop on the bytes `rest` still to read, from the `n`-th
      job of the connection on. */
  function Serve(w: Wire, config: ServerConfig, rest: seq<byte>, reply: (nat, Job) -> Response, n: nat): (t: Transcript)
    ensures t.consumed <= |rest|
    decreases |rest|
  {
    match Step(w, config, rest, reply, n)
    case Stop(t) => t
    case Continue(f, job, consumed) =>
      var t := Serve(w, config, rest[consumed..], reply, n + 1);
      Transcript(f + t.output, [job] + t.jobs, consumed + t.consumed, t.end)
  }

  /** A round that continues is followed by the rest of the loop:
      appending the loop's output and jobs to what came before is
      appending the round's, then the rest's. */
  lemma ServeUnroll(w: Wire, config: ServerConfig, rest: seq<byte>, reply: (nat, Job) -> Response, n: nat,
                    sent: seq<byte>, jobs: seq<Job>)
    requires Step(w, config, rest, reply, n).Continue?
    ensures var r := Step(w, config, rest, reply, n);
      var t0 := Serve(w, config, rest, reply, n);
      var t := Serve(w, config, rest[r.consumed..], reply, n + 1);
      && t0.end == t.end
      && sent + t0.output == (sent + r.output) + t.output
      && t0.consumed == r.consumed + t.consumed
      && jobs + t0.jobs == (jobs + [r.job]) + t.jobs
  {
    var r := Step(w, config, rest, reply, n);
    var t := Serve(w, config, rest[r.consumed..], reply, n + 1);
    assert Serve(w, config, rest, reply, n) == Transcript(r.output + t.output, [r.job] + t.jobs, r.consumed + t.consumed, t.end);
  }

  /** After a good handshake the connection is the header, the
      acknowledgement, then the request loop on what follows. */
  lemma SessionUnroll(w: Wire, incoming: seq<byte>, reply: (nat, Job) -> Response, sent: seq<byte>)
    requires Greet(w, incoming).Greeted?
    ensures var g := Greet(w, incoming);
      var s := Session(w, incoming, reply);
      var t := Serve(w, g.config, incoming[g.consumed..], reply, 0);
      && s.end == t.end
      && sent + s.output == (sent + HEADER_ID + [1]) + t.output
      && s.consumed == g.consumed + t.consumed
      && s.jobs == t.jobs
  {
  }

  /** `process`: the handshake, then the request loop. */
  method Process(socket: Stream, queue: JobQueue, w: Wire, reply: (nat, Job) -> Response)
    returns (end: SessionEnd)
    requires socket.Valid()
    modifies socket`pos, socket`sent, socket`flushed, queue`jobs
    ensures socket.Valid()
    ensures var t := Session(w, old(socket.Remaining()), reply);
      && end == t.end
      && socket.sent == old(socket.sent) + t.output
      && socket.flushed == |socket.sent|
      && socket.pos == old(socket.pos) + t.consumed
      && queue.jobs == old(queue.jobs) + t.jobs
  {
    ghost var incoming := socket.Remaining();
    ghost var sent0 := socket.sent;
    var greeting := Handshake(socket, w);
    if greeting.Refused? {
      return greeting.transcript.end;
    }
    SessionUnroll(w, incoming, reply, sent0);
    assert socket.Remaining() == incoming[greeting.consumed..];
    end := ServeRequests(socket, queue, w, greeting.config, reply);
  }

  /** The handshake of `process`: write and flush the header, read the
      client's echo and compare it, read the session configuration, and
      write and flush the acknowledgement byte 1. */
  method Handshake(socket: Stream, w: Wire) returns (g: Greeting)
    requires socket.Valid()
    modifies socket`pos, socket`sent, socket`flushed
    ensures socket.Valid()
    ensures g == Greet(w, old(socket.Remaining()))
    ensures g.Refused? ==> socket.sent == old(socket.sent) + HEADER_ID && socket.pos == old(socket.pos) + g.transcript.consumed
    ensures g.Greeted? ==> socket.sent == old(socket.sent) + HEADER_ID + [1] && socket.pos == old(socket.pos) + g.consumed
    ensures socket.flushed == |socket.sent|
  {
    ghost var incoming := socket.Remaining();
    var start := socket.pos;
    socket.WriteAll(HEADER_ID);
    socket.Flush();
    var buf := new byte[16];
    var ok := socket.ReadExact(buf);
    if !ok {
      return Refused(Transcript(HEADER_ID, [], socket.pos - start, Panicked("Failed to read header ID")));
    }
    assert buf[..] == incoming[..16];
    if buf[..] != HEADER_ID {
      return Refused(Transcript(HEADER_ID, [], 16, HeaderMismatch));
    }
    assert socket.Remaining() == incoming[16..];
    ghost var d := ReadFrame(w.config, w.usizeMax, incoming[16..]);
    var config := FromAsyncReader(w.config, w.usizeMax, socket);
    if config.Err? {
      return Refused(Transcript(HEADER_ID, [], socket.pos - start, Panicked("Failed to read server config")));
    }
    socket.WriteAll([1]);
    socket.Flush();
    g := Greeted(config.value, socket.pos - start);
  }

  /** The loop of `process`: forever read a request, queue it as a job
      with the session configuration, and write and flush the worker's
      reply; it ends when the connection fails. */
  method ServeRequests(socket: Stream, queue: JobQueue, w: Wire, config: ServerConfig, reply: (nat, Job) -> Response)
    returns (end: SessionEnd)
    requires socket.Valid() && socket.flushed == |socket.sent|
    modifies socket`pos, socket`sent, socket`flushed, queue`jobs
    ensures socket.Valid()
    ensures var t := Serve(w, config, old(socket.Remaining()), reply, 0);
      && end == t.end
      && socket.sent == old(socket.sent) + t.output
      && socket.flushed == |socket.sent|
      && socket.pos == old(socket.pos) + t.consumed
      && queue.jobs == old(queue.jobs) + t.jobs
  {
    ghost var whole := Serve(w, config, socket.Remaining(), reply, 0);
    var n := 0;
    while true
      invariant socket.Valid() && socket.flushed == |socket.sent|
      invariant var t := Serve(w, config, socket.Remaining(), reply, n);
        && whole.end == t.end
        && old(socket.sent) + whole.output == socket.sent + t.output
        && old(socket.pos) + whole.consumed == socket.pos + t.consumed
        && old(queue.jobs) + whole.jobs == queue.jobs + t.jobs
      decreases |socket.incoming| - socket.pos
    {
      ghost var rest := socket.Remaining();
      ghost var sent, jobs := socket.sent, queue.jobs;
      var stop := ServeOne(socket, queue, w, config, reply, n);
      if stop.Some? {
        return stop.value;
      }
      ServeUnroll(w, config, rest, reply, n, sent, jobs);
      assert rest[Step(w, config, rest, reply, n).consumed..] == socket.Remaining();
      n := n + 1;
    }
  }

  /** One round of the loop of `process`, for its `n`-th job: read a
      request, queue the job, write and flush the reply, as `Step` says. */
  method ServeOne(socket: Stream, queue: JobQueue, w: Wire, config: ServerConfig, reply: (nat, Job) -> Response, n: nat)
    returns (stop: Option<SessionEnd>)
    requires socket.Valid() && socket.flushed == |socket.sent|
    modifies socket`pos, socket`sent, socket`flushed, queue`jobs
    ensures socket.Valid() && socket.flushed == |socket.sent|
    ensures var r := Step(w, config, old(socket.Remaining()), reply, n);
      && stop.Some? == r.Stop?
      && (r.Stop? ==>
        && stop.value == r.transcript.end
        && socket.sent == old(socket.sent)
        && socket.pos == old(socket.pos) + r.transcript.consumed
        && queue.jobs == old(queue.jobs) + r.transcript.jobs)
      && (r.Continue? ==>
        && socket.sent == old(socket.sent) + r.output
        && socket.pos == old(socket.pos) + r.consumed
        && queue.jobs == old(queue.jobs) + [r.job])
  {
    var request := FromAsyncReader(w.request, w.usizeMax, socket);
    if request.Err? {
      return Some(Panicked("Failed to read request"));
    }
    var job := Job(config, request.value);
    var response := reply(n, job);
    var written := Answer(socket, queue, w, job, response);
    if !written {
      return Some(Panicked("Failed to write response"));
    }
    stop := None;
  }

  /** Queue `job` for the worker, then write and flush the worker's
      `response`; fails, having written nothing, when the response cannot
      be encoded. */
  method Answer(socket: Stream, queue: JobQueue, w: Wire, job: Job, response: Response) returns (written: bool)
    requires socket.Valid()
    modifies socket`sent, socket`flushed, queue`jobs
    ensures socket.Valid()
    ensures queue.jobs == old(queue.jobs) + [job]
    ensures written == EncodeFrame(w.response, response).Ok?
    ensures written ==> socket.sent == old(socket.sent) + EncodeFrame(w.response, response).value && socket.flushed == |socket.sent|
    ensures !written ==> socket.sent == old(socket.sent) && socket.flushed == old(socket.flushed)
  {
    queue.Send(job);
    var r := WriteAsync(w.response, response, socket);
    written := r.Ok?;
  }

  /** Whatever the client sends, the server's first bytes are the
      header: it writes them before it reads anything. */
  lemma SessionHeaderFirst(w: Wire, incoming: seq<byte>, reply: (nat, Job) -> Response)
    ensures var t := Session(w, incoming, reply);
      |t.output| >= 16 && t.output[..16] == HEADER_ID
  {
    var t := Session(w, incoming, reply);
    if Greet(w, incoming).Greeted? {
      assert t.output == HEADER_ID + ([1] + Serve(w, Greet(w, incoming).config, incoming[Greet(w, incoming).consumed..], reply, 0).output);
    }
  }

  /** A wrong header echo ends the connection having written only the
      header: no configuration is read, no acknowledgement written, no
      job queued. */
  lemma SessionBadHeader(w: Wire, incoming: seq<byte>, reply: (nat, Job) -> Response)
    requires |incoming| >= 16 && incoming[..16] != HEADER_ID
    ensures Session(w, incoming, reply) == Transcript(HEADER_ID, [], 16, HeaderMismatch)
  {
  }

  /** Every job the loop queues carries the session configuration, and
      the loop ends only when a request cannot be read or a reply cannot
      be written. */
  lemma {:induction false} ServeJobs(w: Wire, config: ServerConfig, rest: seq<byte>, reply: (nat, Job) -> Response, n: nat)
    ensures var t := Serve(w, config, rest, reply, n);
      && (forall k :: 0 <= k < |t.jobs| ==> t.jobs[k].config == config)
      && (t.end == Panicked("Failed to read request") || t.end == Panicked("Failed to write response"))
    decreases |rest|
  {
    var d := ReadFrame(w.request, w.usizeMax, rest);
    if d.result.Ok? {
      ServeJobs(w, config, rest[d.consumed..], reply, n + 1);
    }
  }

  /** After a correct header echo and a configuration that decodes, the
      server writes the acknowledgement byte 1 right after the header, and
      every job it then queues carries that configuration. */
  lemma SessionAck(w: Wire, incoming: seq<byte>, reply: (nat, Job) -> Response)
    requires |incoming| >= 16 && incoming[..16] == HEADER_ID
    requires ReadFrame(w.config, w.usizeMax, incoming[16..]).result.Ok?
    ensures var t := Session(w, incoming, reply);
      var config := ReadFrame(w.config, w.usizeMax, incoming[16..]).result.value;
      && |t.output| >= 17 && t.output[..17] == HEADER_ID + [1]
      && (forall k :: 0 <= k < |t.jobs| ==> t.jobs[k].config == config)
      && t.end != HeaderMismatch
  {
    var d := ReadFrame(w.config, w.usizeMax, incoming[16..]);
    ServeJobs(w, d.result.value, incoming[16 + d.consumed..], reply, 0);
  }

  /** The bytes written in reply to `job`, the `n`-th of its connection:
      its frame, or nothing when the reply cannot be encoded. */
  function ReplyBytes(w: Wire, reply: (nat, Job) -> Response, n: nat, job: Job): seq<byte>
  {
    match EncodeFrame(w.response, reply(n, job))
    case Ok(f) => f
    case Err(_) => []
  }

  /** The reply bytes of `jobs`, the `n`-th job of the connection first,
      one after another in order. */
  function Replies(w: Wire, reply: (nat, Job) -> Response, n: nat, jobs: seq<Job>): seq<byte>
    decreases |jobs|
  {
    if |jobs| == 0 then [] else ReplyBytes(w, reply, n, jobs[0]) + Replies(w, reply, n + 1, jobs[1..])
  }

  /** The loop writes the reply of each queued job, in order, and nothing
      else. */
  lemma {:induction false} ServeRepliesInOrder(w: Wire, config: ServerConfig, rest: seq<byte>,
                                               reply: (nat, Job) -> Response, n: nat)
    ensures var t := Serve(w, config, rest, reply, n);
      t.output == Replies(w, reply, n, t.jobs)
    decreases |rest|
  {
    var d := ReadFrame(w.request, w.usizeMax, rest);
    if d.result.Ok? {
      var job := Job(config, d.result.value);
      var t := Serve(w, config, rest, reply, n);
      if EncodeFrame(w.response, reply(n, job)).Ok? {
        ServeRepliesInOrder(w, config, rest[d.consumed..], reply, n + 1);
        assert t.jobs[1..] == Serve(w, config, rest[d.consumed..], reply, n + 1).jobs;
      } else {
        assert t.jobs == [job];
      }
    }
  }

  /** A whole connection after a good handshake: the header, the
      acknowledgement, then the replies of its jobs in order. */
  lemma SessionRepliesInOrder(w: Wire, incoming: seq<byte>, reply: (nat, Job) -> Response)
    requires |incoming| >= 16 && incoming[..16] == HEADER_ID
    requires ReadFrame(w.config, w.usizeMax, incoming[16..]).result.Ok?
    ensures var t := Session(w, incoming, reply);
      t.output == HEADER_ID + [1] + Replies(w, reply, 0, t.jobs)
  {
    var d := ReadFrame(w.config, w.usizeMax, incoming[16..]);
    assert Greet(w, incoming) == Greeted(d.result.value, 16 + d.consumed);
    var t := Serve(w, d.result.value, incoming[16 + d.consumed..], reply, 0);
    ServeRepliesInOrder(w, d.result.value, incoming[16 + d.consumed..], reply, 0);
    assert Session(w, incoming, reply).output == HEADER_ID + [1] + t.output;
  }

  /** Both ends of the handshake agree: a client that echoes the header
      and sends its configuration's frame completes its handshake against
      what the server writes, and the server's jobs carry that
      configuration. */
  lemma HandshakeAgreement(w: Wire, config: ServerConfig, requests: seq<byte>, serverRest: seq<byte>,
                           reply: (nat, Job) -> Response)
    requires RoundTrips(w.config) && w.config.encode(config).Ok?
    requires |w.config.encode(config).value| < TWO_64 && |w.config.encode(config).value| <= w.usizeMax
    ensures var clientSent := HEADER_ID + EncodeFrame(w.config, config).value;
      var t := Session(w, clientSent + requests, reply);
      && |t.output| >= 17 && t.output[..17] == HEADER_ID + [1]
      && ClientSide.Handshake(t.output[..17] + serverRest, EncodeFrame(w.config, config)).outcome == Done(Ok(()))
      && ClientSide.Handshake(t.output[..17] + serverRest, EncodeFrame(w.config, config)).sent == clientSent
      && forall k :: 0 <= k < |t.jobs| ==> t.jobs[k].config == config
  {
    var f := EncodeFrame(w.config, config).value;
    var incoming := HEADER_ID + f + requests;
    assert incoming[..16] == HEADER_ID;
    assert incoming[16..] == f + requests;
    FrameRoundTrip(w.config, w.usizeMax, config, requests);
    SessionAck(w, incoming, reply);
    var out := Session(w, incoming, reply).output[..17] + serverRest;
    assert out[..16] == HEADER_ID && out[16] == 1;
  }
}
