/** The two request handlers of app.py. Each takes the validated body, reads
    the clock, calls the backend, and builds one log record for
    `jsonl_logger.log`. Clock readings (`time.time()`) are integer ticks
    passed in by the caller. */
module App {
  import opened Wrappers
  import opened Text
  import opened Services
  import opened Schemas
  import opened Dependencies
  import Logger

  /** The dict both handlers log: endpoint, prompt, full response, backend
      type tag, the two clock readings and the duration in milliseconds. */
  datatype LogRecord = LogRecord(
    endpoint: string,
    prompt: string,
    response: string,
    llmType: string,
    startedAt: int,
    finishedAt: int,
    durationMs: int)

  /** `(finished_at - started_at) * 1000`: never negative when the clock did
      not go backwards between the two readings. */
  function DurationMs(startedAt: int, finishedAt: int): (ms: int)
    ensures ms >= 0 <==> finishedAt >= startedAt
    ensures ms == 0 <==> finishedAt == startedAt
  {
    (finishedAt - startedAt) * 1000
  }

  /** The record a handler logs for a completed request. */
  function MakeRecord(endpoint: string, body: GenerateRequest, response: string, service: Service,
                      startedAt: int, finishedAt: int): LogRecord
  {
    LogRecord(endpoint, body.prompt, response, TypeValue(GetType(service)),
              startedAt, finishedAt, DurationMs(startedAt, finishedAt))
  }

  /** What the `/generate` handler produces: the reply, or the backend's
      exception, and the record it logged, if any. */
  datatype GenerateOutcome = GenerateOutcome(reply: Result<GenerateResponse, BackendError>, record: Option<LogRecord>)

  /** The `/generate` handler. `started_at` is read before the backend call,
      `finished_at` after it; the record is logged only once the backend has
      returned, so an exception from the backend leaves no record. */
  function HandleGenerate(body: GenerateRequest, service: Service, env: Environment,
                          startedAt: int, finishedAt: int): (out: GenerateOutcome)
    requires ValidEnvironment(env)
    ensures var backend := Generate(service, body.prompt, env);
      (out.reply.Success? <==> backend.Success?) &&
      (out.record.Some? <==> backend.Success?) &&
      (backend.Failure? ==> out.reply.error == backend.error)
    ensures out.reply.Success? ==>
      var rec := out.record.value;
      out.reply.value.response == Generate(service, body.prompt, env).value &&
      rec.response == out.reply.value.response &&
      rec.endpoint == "/generate" && rec.prompt == body.prompt &&
      rec.llmType == TypeValue(GetType(service)) &&
      rec.startedAt == startedAt && rec.finishedAt == finishedAt &&
      rec.durationMs == (finishedAt - startedAt) * 1000
    ensures service.StubbedService? ==> out.reply.Success? && out.reply.value.response in Responses
  {
    match Generate(service, body.prompt, env)
    case Failure(e) => GenerateOutcome(Failure(e), None)
    case Success(text) =>
      GenerateOutcome(Success(GenerateResponse(text)),
                      Some(MakeRecord("/generate", body, text, service, startedAt, finishedAt)))
  }

  /** The `stream_generator` of the `/stream` handler, driven by a client
      that pulls `pulls` times. Each pull resumes the generator: the first
      reads the clock and asks the backend for its chunks, and every pull
      forwards the next chunk, which is then appended to `full_response`.
      The pull after the last chunk finds the backend's stream ended: if it
      ended with an exception, that exception reaches the client and nothing
      is logged; otherwise the clock is read again and one record is logged
      whose response is all the chunks joined. A client that stops pulling
      before that point gets no record logged. */
  method HandleStream(body: GenerateRequest, service: Service, env: Environment, pulls: nat,
                      startedAt: int, finishedAt: int)
    returns (forwarded: seq<string>, failure: Option<BackendError>, record: Option<LogRecord>)
    requires ValidEnvironment(env)
    ensures var backend := Stream(service, body.prompt, env);
      var n := |backend.chunks|;
      forwarded == backend.chunks[..if pulls < n then pulls else n] &&
      failure == (if pulls > n then backend.failure else None) &&
      (record.Some? <==> pulls > n && backend.failure.None?)
    ensures record.Some? ==>
      var rec := record.value;
      forwarded == Stream(service, body.prompt, env).chunks &&
      rec.response == Concat(forwarded) &&
      rec.endpoint == "/stream" && rec.prompt == body.prompt &&
      rec.llmType == TypeValue(GetType(service)) &&
      rec.startedAt == startedAt && rec.finishedAt == finishedAt &&
      rec.durationMs == (finishedAt - startedAt) * 1000
    ensures service.StubbedService? && record.Some? ==>
      record.value.response == StubGenerate(body.prompt, env.choice) + " "
  {
    var backend := Stream(service, body.prompt, env);
    var chunks := backend.chunks;
    var fullResponse: seq<string> := [];
    forwarded := [];
    var i := 0;
    while i < |chunks| && i < pulls
      invariant i <= |chunks| && i <= pulls
      invariant forwarded == chunks[..i]
      invariant fullResponse == chunks[..i]
    {
      forwarded := forwarded + [chunks[i]];        // yield chunk
      fullResponse := fullResponse + [chunks[i]];  // full_response.append(chunk)
      i := i + 1;
    }
    if i < pulls {
      assert chunks[..i] == chunks;
      match backend.failure
      case Some(e) =>
        failure, record := Some(e), None;
      case None =>
        failure := None;
        record := Some(MakeRecord("/stream", body, Concat(fullResponse), service, startedAt, finishedAt));
        if service.StubbedService? {
          StubStreamReassembles(body.prompt, env.choice);
        }
    } else {
      failure, record := None, None;
    }
  }

  /** Why a request failed: the body did not validate (the handler never
      ran), or the backend raised. */
  datatype RequestError = Invalid(reason: ValidationError) | BackendFailed(error: BackendError)

  /** `POST /generate` end to end: the prompt is validated, a backend is
      built from the settings, the handler runs, and its record goes to the
      logger's queue. */
  method ServeGenerate(logger: Logger.JsonlLogger<LogRecord>, settings: LlmServiceSettings, prompt: string,
                       env: Environment, startedAt: int, finishedAt: int)
    returns (reply: Result<GenerateResponse, RequestError>)
    requires ValidEnvironment(env)
    modifies logger
    ensures logger.files == old(logger.files)
    ensures logger.stopped == old(logger.stopped) && logger.running == old(logger.running)
    ensures ValidateRequest(prompt).Failure? ==>
      reply == Failure(Invalid(ValidateRequest(prompt).error)) && logger.queue == old(logger.queue)
    ensures ValidateRequest(prompt).Success? ==>
      var out := HandleGenerate(GenerateRequest(prompt), GetLlmService(settings), env, startedAt, finishedAt);
      (out.reply.Success? ==> reply == Success(out.reply.value) &&
                              logger.queue == old(logger.queue) + [out.record.value]) &&
      (out.reply.Failure? ==> reply == Failure(BackendFailed(out.reply.error)) &&
                              logger.queue == old(logger.queue))
  {
    var request := ValidateRequest(prompt);
    if request.Failure? {
      return Failure(Invalid(request.error));
    }
    var service := GetLlmService(settings);
    var out := HandleGenerate(request.value, service, env, startedAt, finishedAt);
    if out.reply.Failure? {
      return Failure(BackendFailed(out.reply.error));
    }
    logger.Log(out.record.value);
    reply := Success(out.reply.value);
  }

  /** `POST /stream` end to end: the prompt is validated, a backend is built
      from the settings, the generator is pulled `pulls` times, and its
      record, if it logs one, goes to the logger's queue. */
  method ServeStream(logger: Logger.JsonlLogger<LogRecord>, settings: LlmServiceSettings, prompt: string,
                     env: Environment, pulls: nat, startedAt: int, finishedAt: int)
    returns (forwarded: seq<string>, failure: Option<RequestError>)
    requires ValidEnvironment(env)
    modifies logger
    ensures logger.files == old(logger.files)
    ensures logger.stopped == old(logger.stopped) && logger.running == old(logger.running)
    ensures ValidateRequest(prompt).Failure? ==>
      forwarded == [] && failure == Some(Invalid(ValidateRequest(prompt).error)) &&
      logger.queue == old(logger.queue)
    ensures ValidateRequest(prompt).Success? ==>
      var backend := Stream(GetLlmService(settings), prompt, env);
      var n := |backend.chunks|;
      forwarded == backend.chunks[..if pulls < n then pulls else n] &&
      (pulls > n && backend.failure.Some? ==>
         failure == Some(BackendFailed(backend.failure.value)) && logger.queue == old(logger.queue)) &&
      (pulls > n && backend.failure.None? ==>
         failure.None? &&
         logger.queue == old(logger.queue) +
           [MakeRecord("/stream", GenerateRequest(prompt), Concat(backend.chunks), GetLlmService(settings),
                       startedAt, finishedAt)]) &&
      (pulls <= n ==> failure.None? && logger.queue == old(logger.queue))
  {
    var request := ValidateRequest(prompt);
    if request.Failure? {
      return [], Some(Invalid(request.error));
    }
    var service := GetLlmService(settings);
    var err, record;
    forwarded, err, record := HandleStream(request.value, service, env, pulls, startedAt, finishedAt);
    failure := if err.Some? then Some(BackendFailed(err.value)) else None;
    if record.Some? {
      logger.Log(record.value);
    }
  }
}
