# minivault-api, modelled in Dafny

minivault-api is a small FastAPI service that generates text through a
pluggable backend and keeps a JSONL audit log of every request. This project
models its core and proves properties of the model:

- **The backends** (`services.dfy`, `stub_answers.dfy`). `LLMService.Type`
  and `get_type`. The stub: `generate` returns one of two canned answers and
  `stream` splits one answer on whitespace into word-plus-space chunks. The
  Ollama client: its generate URL and JSON request bodies, `generate`'s
  status and `response`-field handling, and the line loop of `stream`.
  Python's `str.split()` and `str.strip()` are modelled with CPython's exact
  whitespace set.
- **Request validation and backend selection** (`schemas.dfy`,
  `dependencies.dfy`). The prompt must be 1 to 8192 characters long.
  `get_llm_service` picks the backend from the settings.
- **The handlers** (`app.dfy`). `/generate` is a function from the backend's
  outcome to the reply and the optional log record. The `/stream` generator
  is a method with the source's loop: it forwards each chunk and appends it
  to `full_response`. Two serve methods put validation, backend selection, a
  handler and `jsonl_logger.log` together on a `JsonlLogger`.
- **The JSONL logger** (`logger.dfy`). It is a state machine over the queue,
  the log files (each a sequence of lines), the stop event and the worker's
  liveness. The class `JsonlLogger` has the source's `log`, one iteration of
  `_worker` (`WorkerStep`) and `close`. Each method is proved to follow a
  step function. The lemmas cover any sequence of events: FIFO order,
  append-only files, `close` abandoning the queue, and a write error ending
  the worker.

Modules: `Wrappers` (Option, Result), `Text` (whitespace, `"".join`),
`StubAnswers`, `Services`, `Schemas`, `Dependencies`, `Logger`, `App`.

The model follows the code wherever the code and the intended design differ:

- `close` sets the stop flag and joins the worker. The worker checks the flag
  only at the top of its loop, so records still queued are never written.
  `close` does not drain the queue (`Logger.CloseAbandonsQueue`).
- An exception while opening or writing a log file is not caught. It ends the
  worker thread: the record it took is lost and later records stay queued
  (`Logger.WriteFaultEndsWorker`). The worker does not carry on past a
  failed write.
- `/stream` logs nothing when the client stops early or the backend raises.
  There is no `try`/`finally` and no partial record.
- The Ollama `stream` path never checks the HTTP status. A non-2xx reply is
  read line by line like any other, and it fails only when a line has no
  `response` field.

## Model

| member | source | states |
|---|---|---|
| Services.TypeValue | services.py:14-16 | the tag is `"stubbed"` or `"ollama"`, and it is `"stubbed"` exactly for the stub type |
| Services.GetType | services.py:49-51 | the stub reports the stubbed type and the Ollama service the Ollama type (the latter at services.py:87-89) |
| Services.Split | services.py:43 | `split()` yields only non-empty words without whitespace; a text starting with a non-space yields its leading word first |
| Services.SplitKeepsText | services.py:43 | the words of `split()`, joined, are exactly the text's non-whitespace characters in order |
| Services.SplitJoinWords | services.py:43 | splitting words joined by single spaces gives back the same words |
| Services.JoinSplitSingleSpaced | services.py:43 | for a single-spaced text, joining its `split()` words with single spaces gives back the text |
| Services.JoinWordsSingleSpaced | services.py:34-35 | words joined by single spaces form a single-spaced text |
| StubAnswers.CannedWordsAreWords | services.py:33-36 | every word of both canned answers is non-empty and holds no whitespace |
| Services.CannedSingleSpaced | services.py:33-36 | both canned answers are single-spaced |
| Services.ConcatChunked | services.py:43-44 | the word-plus-space chunks, joined, are the words joined by single spaces plus one trailing space |
| Services.StubGenerate | services.py:38-39 | the stub's `generate` returns one of the canned answers, whatever the prompt |
| Services.StubStream | services.py:41-47 | one chunk per `split()` word of the picked answer; every chunk is non-empty, ends in a space and has no other whitespace |
| Services.StubStreamChunks | services.py:41-47 | one chunk per word of the chosen answer, in order; each chunk is the word plus one space, so it is non-empty, ends in a space and has no other whitespace |
| Services.StubStreamReassembles | services.py:38-47 | with the same random pick, the stream's chunks joined are the generated answer plus one trailing space |
| Services.NewOllama | services.py:55-59 | the service keeps the base URL and model, and its endpoint is the base URL followed by `/api/generate` |
| Services.GenerateRequest | services.py:62-66 | `generate` posts to the endpoint with the configured model, the prompt unchanged and `stream` false |
| Services.StreamRequest | services.py:70-76 | `stream` posts the same request as `generate` except that `stream` is true |
| Services.OllamaGenerate | services.py:62-68 | a transport error or a non-2xx status fails before the body is read; otherwise the call succeeds exactly when the body has a `response` field and returns that field unchanged, and fails with a protocol error otherwise |
| Services.StreamLines | services.py:77-80 | the line loop yields at most one chunk per line |
| Services.StreamLinesSpec | services.py:77-80 | the stream yields, in line order, the `response` of every non-blank line before the first bad line. It fails with a protocol error exactly when a bad line exists (after exactly the earlier chunks), fails with a transport error when the connection broke after all lines, and otherwise ends normally |
| Services.OllamaStream | services.py:70-82 | the stream posts the streaming request and yields, in line order, the `response` of each non-blank line of its reply before the first bad line; it then fails with a protocol error if there is a bad line, with a transport error if the connection broke after the last line, and otherwise ends normally |
| Services.BlankLineIgnored | services.py:78 | inserting a whitespace-only line anywhere changes nothing the stream yields or raises |
| Services.Generate | app.py:20 | the stub's `generate` succeeds with the picked canned answer; the Ollama service's is the client's `generate` |
| Services.Stream | app.py:49 | the stub's stream never fails |
| Schemas.ValidateRequest | schemas.py:4-7 | a prompt is accepted exactly when its length is 1..8192, and then unchanged; an empty prompt is too short and a longer one too long |
| Dependencies.GetLlmService | dependencies.py:7-14 | `"ollama"` settings give an Ollama service built from their base URL and model; anything else gives the stub; the service's type tag equals the configured type |
| Dependencies.DefaultServices | settings.py:12-25 | with nothing configured the service is the stub; with only the Ollama type configured it posts to `http://localhost:11434/api/generate` with model `tinyllama` (the defaults at services.py:55) |
| Logger.PaddedValue | logger.py:32 | the zero-padded decimal digits of a number read back as that number |
| Logger.FileName | logger.py:32-33 | the file name is 16 characters: four digits, `-`, two digits, `-`, two digits, `.jsonl` |
| Logger.FileNameRoundTrip | logger.py:32-33 | the file name parses back to its date |
| Logger.FileNameInjective | logger.py:32-33 | different dates go to different files |
| Logger.AppendLine | logger.py:34-36 | appending to a file adds one line at its end, creates the file if needed, and leaves every other file unchanged |
| Logger.HaltedStep | logger.py:25-26 | once the worker loop has ended, an event writes nothing and takes nothing off the queue |
| Logger.HaltedWorkerIsInert | logger.py:25-26 | once the worker loop has ended, no sequence of events changes a file; every later logged record stays queued |
| Logger.StepAccounting | logger.py:22-36 | each single event's added records equal its written record, then its dropped record, then the new queue; its file change is its write |
| Logger.RunAccounting | logger.py:16-36 | over any run, the initial queue plus the logged records equal the written records, then at most one record dropped by a failed write, then the remaining queue; nothing is lost or duplicated |
| Logger.WritesFollowLogOrder | logger.py:16-36 | records reach the files in the order they were queued and logged, each at most once |
| Logger.RunFiles | logger.py:32-36 | the files after a run are the initial files with the run's writes applied in order |
| Logger.ApplyWritesLines | logger.py:34-36 | after a series of writes, each file holds its old lines followed by one line per record written to it, in order |
| Logger.LogFileContents | logger.py:32-36 | log files are append-only: after any run, each file's old lines are a prefix, followed by the serialised lines of exactly the records written to it, in write order |
| Logger.CloseAbandonsQueue | logger.py:38-41 | after `close`, no file changes; records queued at close or logged later are never written |
| Logger.WriteFaultEndsWorker | logger.py:25-36 | a failed open or write ends the worker; the record it took is lost and no later record reaches a file |
| Logger.JsonlLogger.constructor | logger.py:14-20 | a new logger has an empty queue, the directory's existing files, the stop flag clear and the worker running |
| Logger.JsonlLogger.Log | logger.py:22-23 | `log` appends the record to the queue and changes no file |
| Logger.JsonlLogger.WorkerStep | logger.py:25-36 | one loop iteration follows the step function. With an empty queue nothing changes. Otherwise the queue head is removed and its line appended to the dated file, with other files unchanged |
| Logger.JsonlLogger.Close | logger.py:38-41 | `close` sets the stop flag and ends the worker, leaving the queue and the files as they were |
| App.DurationMs | app.py:30 | the duration is non-negative exactly when the clock did not go backwards, and zero exactly when both readings are equal |
| App.HandleGenerate | app.py:14-33 | the reply succeeds exactly when the backend does and carries its string unchanged. A record is logged exactly on success, with endpoint `/generate`, the prompt, the same response, the backend's tag and the duration from the two clock readings. A backend error is passed on and nothing is logged |
| App.HandleStream | app.py:41-64 | the client receives the backend's chunks unchanged and in order, up to the number it pulled. A backend error reaches it only after all chunks. One `/stream` record is logged exactly when the client pulls past the last chunk and the backend ended normally; its response is all forwarded chunks joined. For the stub, that is the canned answer plus a trailing space |
| App.ServeGenerate | app.py:14-33 | an invalid prompt is rejected without reaching a backend or the logger. Otherwise the reply is the handler's, and the logger's queue grows by exactly the handler's record on success and not at all on failure |
| App.ServeStream | app.py:36-66 | an invalid prompt is rejected with nothing forwarded or logged. Otherwise the forwarded chunks are the backend's pulled prefix. A backend error is passed on and nothing is logged; a client that stops before the end gets nothing logged; when the stream is read to its normal end the queue grows by exactly one `/stream` record with the prompt, all chunks joined, the backend's type tag and the two clock readings |

## Left out

- Network I/O of the Ollama client (the httpx `AsyncClient`, its 120-second timeout, `aclose`, and releasing the connection at the end of `async with`). `generate` takes the HTTP exchange as a function from request to reply. `stream` takes it as a function from request to the reply's lines plus a flag for a transport error after them.
- JSON decoding (`response.json()`, `orjson.loads`). It is a function from a body or line to its `response` field, `None` when the text is not JSON or has no such field. A `response` that is not a string is not modelled.
- `orjson.dumps` is the logger's `dumps` function. The model reasons only about framing: one `dumps(record) + "\n"` line per record.
- `random.choice` is the `choice` index of `Environment`. `Services.ValidEnvironment` holds it within the two answers.
- Asynchronous laziness and pacing: `async` generators, `asyncio.sleep(0.01 * len(chunk))`, and StreamingResponse backpressure. A client of `/stream` is the number of times it pulls the generator.
- FastAPI routing, `Depends` and response serialisation. The serve methods call validation, `get_llm_service` and the handler in order.
- `time.time()` floats are integer clock ticks passed in. `datetime.now()` is the `date` of each worker step.
- Concurrency: the worker thread, `threading.Event`, `join`, the daemon flag, `atexit` and the 1-second `get` timeout. The worker runs one loop iteration per `WorkerStep`, and each iteration is atomic. A racing `close` and a final record has the same end state as the record being written before `close`.
- Logger.JsonlLogger.WorkerStep: a write that fails after the payload but before the newline would leave a partial line. Here a failed open or write leaves the file unchanged.
- `LOG_DIR.mkdir` and the directory path. Files are keyed by name within the one log directory.
- Logger.FileName: pads the year to four digits for every year. On glibc, `%Y` does not pad years below 1000.
- Dependencies.GetLlmService: services are immutable values. A new instance is built on every call from nothing but the settings, but nothing here can state freshness or non-sharing. The only mutable part of an Ollama service is its httpx client, which is not modelled.
- settings.py (environment loading, `print`) is not part of this model beyond the two settings shapes and their defaults.
- test_service.py is a smoke script against a running server and is not part of this model.
- The canned answers are written as their words joined by single spaces. Each source literal is single-spaced, so the strings are the same.
