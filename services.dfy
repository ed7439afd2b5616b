/** The generation backends of services.py: the `LLMService.Type` tags, the
    stub that answers with canned text, and the Ollama client's requests and
    its handling of replies. */
module Services {
  import opened Wrappers
  import opened Text
  import opened StubAnswers

  // ---------------------------------------------------------------------------
  // LLMService.Type and the two concrete services
  // ---------------------------------------------------------------------------

  /** `LLMService.Type`, a string-valued enum. */
  datatype LlmType = Stubbed | Ollama

  /** `LLMService.Type.value`: the tag written into log records. */
  function TypeValue(t: LlmType): (v: string)
    ensures v == "stubbed" || v == "ollama"
    ensures t == Stubbed <==> v == "stubbed"
  {
    match t
    case Stubbed => "stubbed"
    case Ollama => "ollama"
  }

  /** A constructed backend. The Ollama service's fields are set once by its
      constructor and never reassigned, so both services are values here. */
  datatype Service =
    | StubbedService
    | OllamaService(client: OllamaClient)

  /** The fields `OllamaLLMService.__init__` sets: the base URL, the generate
      endpoint derived from it, and the model name. The httpx client itself
      is not modelled. */
  datatype OllamaClient = OllamaClient(baseUrl: string, generateUrl: string, model: string)

  /** `get_type()`: each class answers with its own tag. */
  function GetType(s: Service): (t: LlmType)
    ensures t == Stubbed <==> s.StubbedService?
  {
    match s
    case StubbedService => Stubbed
    case OllamaService(_) => Ollama
  }

  // ---------------------------------------------------------------------------
  // StubbedLLMService
  // ---------------------------------------------------------------------------

  /** Length of the longest prefix of `s` that holds no whitespace. */
  function WordLength(s: string): (n: nat)
    ensures n <= |s|
    ensures NoSpace(s[..n])
    ensures n < |s| ==> IsSpace(s[n])
  {
    if s == [] || IsSpace(s[0]) then 0
    else
      var n := 1 + WordLength(s[1..]);
      assert s[..n] == [s[0]] + s[1..][..n - 1];
      n
  }

  /** `s.split()` with no separator: the maximal runs of non-whitespace
      characters, in order; leading, trailing and repeated whitespace give
      no empty words. */
  function Split(s: string): (words: seq<string>)
    ensures AllWords(words)
    ensures s != [] && !IsSpace(s[0]) ==> words != [] && words[0] == s[..WordLength(s)]
    decreases |s|
  {
    if s == [] then []
    else if IsSpace(s[0]) then Split(s[1..])
    else
      var n := WordLength(s);
      [s[..n]] + Split(s[n..])
  }

  /** `" ".join(words)`. */
  function JoinWords(words: seq<string>): string
  {
    if words == [] then ""
    else if |words| == 1 then words[0]
    else words[0] + " " + JoinWords(words[1..])
  }

  /** `StubbedLLMService.responses`: the two canned answers. */
  const Responses: seq<string> := [JoinWords(ResponseWords[0]), JoinWords(ResponseWords[1])]


  /** A text whose words are separated by exactly one plain space, with no
      whitespace before the first word or after the last. */
  predicate SingleSpaced(s: string)
  {
    s != [] && !IsSpace(s[0]) && !IsSpace(s[|s| - 1]) &&
    forall i :: 0 <= i < |s| && IsSpace(s[i]) ==> s[i] == ' ' && i + 1 < |s| && !IsSpace(s[i + 1])
  }

  /** `split()` loses only the whitespace: its words, put together, are the
      non-whitespace characters of the text in their original order. */
  lemma {:induction false} SplitKeepsText(s: string)
    ensures Concat(Split(s)) == RemoveSpaces(s)
    decreases |s|
  {
    if s == [] {
    } else if IsSpace(s[0]) {
      SplitKeepsText(s[1..]);
    } else {
      var n := WordLength(s);
      assert s == s[..n] + s[n..];
      RemoveSpacesAppend(s[..n], s[n..]);
      RemoveSpacesOfNoSpace(s[..n]);
      SplitKeepsText(s[n..]);
      assert Concat(Split(s)) == s[..n] + Concat(Split(s[n..]));
    }
  }

  lemma {:induction false} WordLengthOfWord(w: string, t: string)
    requires NoSpace(w)
    requires t == [] || IsSpace(t[0])
    ensures WordLength(w + t) == |w|
  {
    if w != [] {
      assert (w + t)[1..] == w[1..] + t;
      WordLengthOfWord(w[1..], t);
    }
  }

  /** Splitting words joined by single spaces gives the words back. */
  lemma {:induction false} SplitJoinWords(words: seq<string>)
    requires AllWords(words)
    ensures Split(JoinWords(words)) == words
  {
    if |words| == 1 {
      var w := words[0];
      WordLengthOfWord(w, "");
      assert w + "" == w;
      assert w[|w|..] == [];
    } else if |words| > 1 {
      var w, rest := words[0], JoinWords(words[1..]);
      var s := w + " " + rest;
      assert s == w + (" " + rest);
      WordLengthOfWord(w, " " + rest);
      assert s[..|w|] == w;
      assert s[|w|..][1..] == rest;
      SplitJoinWords(words[1..]);
    }
  }

  /** Words joined by single spaces make a single-spaced text. */
  lemma {:induction false} JoinWordsSingleSpaced(words: seq<string>)
    requires words != [] && AllWords(words)
    ensures SingleSpaced(JoinWords(words))
  {
    if |words| > 1 {
      var w, rest := words[0], JoinWords(words[1..]);
      JoinWordsSingleSpaced(words[1..]);
      var s := w + " " + rest;
      assert forall i :: 0 <= i < |w| ==> s[i] == w[i];
      assert forall i :: |w| < i < |s| ==> s[i] == rest[i - |w| - 1];
      forall i | 0 <= i < |s| && IsSpace(s[i])
        ensures s[i] == ' ' && i + 1 < |s| && !IsSpace(s[i + 1])
      {
        if i == |w| {
          assert s[i + 1] == rest[0];
        }
      }
    }
  }

  /** Both canned answers are single-spaced, like the literals they stand for. */
  lemma CannedSingleSpaced(choice: nat)
    requires choice < |Responses|
    ensures SingleSpaced(Responses[choice])
  {
    CannedWordsAreWords(choice);
    JoinWordsSingleSpaced(ResponseWords[choice]);
  }

  /** What follows any space of a single-spaced text is single-spaced too. */
  lemma SingleSpacedAfterSpace(s: string, n: nat)
    requires SingleSpaced(s) && n < |s| && IsSpace(s[n])
    ensures SingleSpaced(s[n + 1..])
  {
    var tail := s[n + 1..];
    forall i | 0 <= i < |tail| && IsSpace(tail[i])
      ensures tail[i] == ' ' && i + 1 < |tail| && !IsSpace(tail[i + 1])
    {
      assert tail[i] == s[n + 1 + i];
    }
  }

  /** Joining the words of a single-spaced text by single spaces gives the text back. */
  lemma {:induction false} JoinSplitSingleSpaced(s: string)
    requires SingleSpaced(s)
    ensures JoinWords(Split(s)) == s
    decreases |s|
  {
    var n := WordLength(s);
    if n == |s| {
      assert s[..n] == s;
      assert Split(s) == [s];
    } else {
      assert s[n] == ' ';
      var tail := s[n + 1..];
      assert s[n..][1..] == tail;
      assert Split(s[n..]) == Split(tail);
      SingleSpacedAfterSpace(s, n);
      JoinSplitSingleSpaced(tail);
      assert Split(tail) != [];
      assert s == s[..n] + " " + tail;
    }
  }

  /** The stub's framing of one word: the word followed by one space. */
  function Chunked(words: seq<string>): (chunks: seq<string>)
  {
    seq(|words|, k requires 0 <= k < |words| => words[k] + " ")
  }

  /** Putting the chunks together gives the words joined by single spaces,
      plus one trailing space. */
  lemma {:induction false} ConcatChunked(words: seq<string>)
    requires words != []
    ensures Concat(Chunked(words)) == JoinWords(words) + " "
  {
    if |words| > 1 {
      assert Chunked(words)[1..] == Chunked(words[1..]);
      ConcatChunked(words[1..]);
    } else {
      assert Chunked(words)[1..] == [];
    }
  }

  /** `StubbedLLMService.generate`: one of the canned answers, chosen at
      random; `choice` stands for the random pick. The prompt is not used. */
  function StubGenerate(prompt: string, choice: nat): (text: string)
    requires choice < |Responses|
    ensures text in Responses
  {
    Responses[choice]
  }

  /** `StubbedLLMService.stream`: a single random pick, split on whitespace,
      one chunk per word, each word followed by a space. */
  function StubStream(prompt: string, choice: nat): (chunks: seq<string>)
    requires choice < |Responses|
    ensures |chunks| == |Split(Responses[choice])|
    ensures forall k :: 0 <= k < |chunks| ==>
      |chunks[k]| >= 2 && chunks[k][|chunks[k]| - 1] == ' ' && NoSpace(chunks[k][..|chunks[k]| - 1])
  {
    Chunked(Split(Responses[choice]))
  }

  /** Each stub chunk is one word of the chosen answer, in order, followed by
      one space; so it is non-empty, ends in a space and holds no other
      whitespace. */
  lemma StubStreamChunks(prompt: string, choice: nat)
    requires choice < |Responses|
    ensures var words := Split(Responses[choice]);
      |StubStream(prompt, choice)| == |words| &&
      forall k :: 0 <= k < |words| ==>
        var c := StubStream(prompt, choice)[k];
        c == words[k] + " " && |c| >= 2 && c[|c| - 1] == ' ' && NoSpace(c[..|c| - 1])
  {
    var words := Split(Responses[choice]);
    forall k | 0 <= k < |words|
      ensures var c := StubStream(prompt, choice)[k];
        c == words[k] + " " && |c| >= 2 && c[|c| - 1] == ' ' && NoSpace(c[..|c| - 1])
    {
      var c := StubStream(prompt, choice)[k];
      assert c[..|c| - 1] == words[k];
    }
  }

  /** For the stub, streaming and generating with the same random pick agree:
      the chunks put together are the answer plus one trailing space. */
  lemma StubStreamReassembles(prompt: string, choice: nat)
    requires choice < |Responses|
    ensures Concat(StubStream(prompt, choice)) == StubGenerate(prompt, choice) + " "
  {
    var words := ResponseWords[choice];
    CannedWordsAreWords(choice);
    SplitJoinWords(words);
    ConcatChunked(words);
  }

  // ---------------------------------------------------------------------------
  // OllamaLLMService
  // ---------------------------------------------------------------------------

  /** The constructor's default arguments. */
  const DefaultBaseUrl: string := "http://localhost:11434"
  const DefaultModel: string := "tinyllama"

  /** The path of Ollama's generate endpoint, appended to the base URL. */
  const GeneratePath: string := "/api/generate"

  /** `OllamaLLMService(base_url, model)`. */
  function NewOllama(baseUrl: string, model: string): (c: OllamaClient)
    ensures c.baseUrl == baseUrl && c.model == model
    ensures |c.generateUrl| == |baseUrl| + |GeneratePath|
    ensures c.generateUrl[..|baseUrl|] == baseUrl && c.generateUrl[|baseUrl|..] == GeneratePath
  {
    OllamaClient(baseUrl, baseUrl + GeneratePath, model)
  }

  /** The JSON body the client posts: `{"model", "prompt", "stream"}`. */
  datatype RequestBody = RequestBody(model: string, prompt: string, stream: bool)

  /** An HTTP POST of a JSON body to a URL. */
  datatype Request = Post(url: string, json: RequestBody)

  /** The request `generate` posts: the configured model, the prompt as
      given, and streaming switched off. */
  function GenerateRequest(c: OllamaClient, prompt: string): (r: Request)
    ensures r.url == c.generateUrl
    ensures r.json.model == c.model && r.json.prompt == prompt && !r.json.stream
  {
    Post(c.generateUrl, RequestBody(c.model, prompt, false))
  }

  /** The request `stream` posts: the same as `generate`'s in everything but
      the streaming flag, which is on. */
  function StreamRequest(c: OllamaClient, prompt: string): (r: Request)
    ensures r.json.stream
    ensures r == GenerateRequest(c, prompt).(json := GenerateRequest(c, prompt).json.(stream := true))
  {
    Post(c.generateUrl, RequestBody(c.model, prompt, true))
  }

  /** How a backend call can fail: the transport raised, the server answered
      with a status outside 2xx (`raise_for_status`), or a body could not be
      parsed as JSON or had no `response` field. */
  datatype BackendError = Transport | HttpStatus(status: int) | Protocol

  /** What posting a request gave: a transport failure, or a status and a body. */
  datatype HttpReply = TransportFailed | Reply(status: int, body: string)

  /** httpx's `is_success`: a 2xx status. */
  predicate IsSuccess(status: int)
  {
    200 <= status < 300
  }

  /** `OllamaLLMService.generate`. `send` stands for the HTTP exchange and
      `field` for `orjson.loads(body)['response']`, `None` when the body is not
      JSON or lacks that field. The status is checked before the body is read. */
  function OllamaGenerate(c: OllamaClient, prompt: string, send: Request -> HttpReply,
                          field: string -> Option<string>): (r: Result<string, BackendError>)
    ensures var reply := send(GenerateRequest(c, prompt));
      match reply
      case TransportFailed => r == Failure(Transport)
      case Reply(status, body) =>
        (!IsSuccess(status) ==> r == Failure(HttpStatus(status))) &&
        (IsSuccess(status) ==> r.Success? == field(body).Some?) &&
        (r.Success? ==> r.value == field(body).value) &&
        (r.Failure? && IsSuccess(status) ==> r.error == Protocol)
  {
    match send(GenerateRequest(c, prompt))
    case TransportFailed => Failure(Transport)
    case Reply(status, body) =>
      if !IsSuccess(status) then Failure(HttpStatus(status))
      else match field(body)
        case None => Failure(Protocol)
        case Some(text) => Success(text)
  }

  /** What a streamed backend call produces: chunks, in order, and then either
      the end of the stream (`None`) or the error that ended it. */
  datatype ChunkStream = ChunkStream(chunks: seq<string>, failure: Option<BackendError>)

  /** What the streamed HTTP exchange delivers: the body's lines, in order,
      and whether the transport failed after them. The client never checks the
      status of a streamed reply, so the status plays no part. */
  datatype LineStream = LineStream(lines: seq<string>, broken: bool)

  /** The `async for line in response.aiter_lines()` loop of
      `OllamaLLMService.stream`: blank lines are skipped, every other line
      yields its `response` field, and a line without one raises. */
  function StreamLines(lines: seq<string>, broken: bool, field: string -> Option<string>): (s: ChunkStream)
    ensures |s.chunks| <= |lines|
  {
    if lines == [] then ChunkStream([], if broken then Some(Transport) else None)
    else if IsBlank(lines[0]) then StreamLines(lines[1..], broken, field)
    else match field(lines[0])
      case None => ChunkStream([], Some(Protocol))
      case Some(text) =>
        var rest := StreamLines(lines[1..], broken, field);
        ChunkStream([text] + rest.chunks, rest.failure)
  }

  /** `OllamaLLMService.stream`: the line loop over the reply to the
      streaming request. It yields the `response` of every non-blank line of
      that reply before its first bad line, and then fails with a protocol
      error if there is a bad line, with a transport error if the connection
      broke after the last line, and otherwise ends normally. */
  function OllamaStream(c: OllamaClient, prompt: string, open: Request -> LineStream,
                        field: string -> Option<string>): (s: ChunkStream)
    ensures var reply := open(StreamRequest(c, prompt));
      var k := FirstBadLine(reply.lines, field);
      s.chunks == ResponsesOf(reply.lines[..k], field) &&
      s.failure == (if k < |reply.lines| then Some(Protocol) else if reply.broken then Some(Transport) else None)
  {
    var reply := open(StreamRequest(c, prompt));
    StreamLinesSpec(reply.lines, reply.broken, field);
    StreamLines(reply.lines, reply.broken, field)
  }

  /** A line the loop would raise on: not blank, and no `response` field. */
  predicate IsBadLine(line: string, field: string -> Option<string>)
  {
    !IsBlank(line) && field(line).None?
  }

  /** Index of the first bad line, or the number of lines when there is none. */
  function FirstBadLine(lines: seq<string>, field: string -> Option<string>): (k: nat)
    ensures k <= |lines|
    ensures forall j :: 0 <= j < k ==> !IsBadLine(lines[j], field)
    ensures k < |lines| ==> IsBadLine(lines[k], field)
  {
    if lines == [] then 0
    else if IsBadLine(lines[0], field) then 0
    else 1 + FirstBadLine(lines[1..], field)
  }

  /** The `response` fields of the non-blank lines, in order; every non-blank
      line must have one. */
  function ResponsesOf(lines: seq<string>, field: string -> Option<string>): seq<string>
    requires forall j :: 0 <= j < |lines| ==> !IsBadLine(lines[j], field)
  {
    if lines == [] then []
    else if IsBlank(lines[0]) then ResponsesOf(lines[1..], field)
    else
      assert !IsBadLine(lines[0], field);
      [field(lines[0]).value] + ResponsesOf(lines[1..], field)
  }

  /** The stream yields, in line order, the `response` of every non-blank line
      before the first bad line; it fails with a protocol error exactly when
      there is a bad line, with a transport error when the lines ran out on a
      broken connection, and otherwise ends normally. */
  lemma {:induction false} StreamLinesSpec(lines: seq<string>, broken: bool, field: string -> Option<string>)
    ensures var k := FirstBadLine(lines, field);
      var s := StreamLines(lines, broken, field);
      s.chunks == ResponsesOf(lines[..k], field) &&
      s.failure == (if k < |lines| then Some(Protocol) else if broken then Some(Transport) else None)
  {
    if lines != [] {
      var k := FirstBadLine(lines, field);
      StreamLinesSpec(lines[1..], broken, field);
      if !IsBadLine(lines[0], field) {
        assert lines[..k][1..] == lines[1..][..k - 1];
      }
    }
  }

  /** A blank line anywhere in the reply changes nothing the stream yields. */
  lemma {:induction false} BlankLineIgnored(before: seq<string>, blank: string, after: seq<string>,
                                            broken: bool, field: string -> Option<string>)
    requires IsBlank(blank)
    ensures StreamLines(before + [blank] + after, broken, field) == StreamLines(before + after, broken, field)
  {
    if before == [] {
      var lines := before + [blank] + after;
      assert lines == [blank] + after;
      assert lines[0] == blank && lines[1..] == after;
      assert before + after == after;
    } else {
      assert (before + [blank] + after)[1..] == before[1..] + [blank] + after;
      assert (before + after)[1..] == before[1..] + after;
      BlankLineIgnored(before[1..], blank, after, broken, field);
    }
  }

  // ---------------------------------------------------------------------------
  // Calling a backend through the `LLMService` interface
  // ---------------------------------------------------------------------------

  /** Everything a backend call depends on besides the service and the prompt:
      the stub's random pick, the HTTP exchanges of the Ollama client, and the
      JSON decoding of a body or line down to its `response` field. */
  datatype Environment = Environment(
    choice: nat,
    send: Request -> HttpReply,
    open: Request -> LineStream,
    field: string -> Option<string>)

  /** `random.choice` can only pick one of the canned answers. */
  predicate ValidEnvironment(env: Environment)
  {
    env.choice < |Responses|
  }

  /** `llm_service.generate(prompt)`, dispatched on the concrete service. */
  function Generate(s: Service, prompt: string, env: Environment): (r: Result<string, BackendError>)
    requires ValidEnvironment(env)
    ensures s.StubbedService? ==> r == Success(Responses[env.choice])
    ensures s.OllamaService? ==> r == OllamaGenerate(s.client, prompt, env.send, env.field)
  {
    match s
    case StubbedService => Success(StubGenerate(prompt, env.choice))
    case OllamaService(c) => OllamaGenerate(c, prompt, env.send, env.field)
  }

  /** `llm_service.stream(prompt)`, consumed to its end, dispatched on the
      concrete service. The stub never fails. */
  function Stream(s: Service, prompt: string, env: Environment): (r: ChunkStream)
    requires ValidEnvironment(env)
    ensures s.StubbedService? ==> r.failure.None?
  {
    match s
    case StubbedService => ChunkStream(StubStream(prompt, env.choice), None)
    case OllamaService(c) => OllamaStream(c, prompt, env.open, env.field)
  }
}
