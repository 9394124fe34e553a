/** The raw HTTP client: base-URL normalisation, header and form construction,
    status gating and stream line filtering. The HTTP exchange itself is an
    oracle (`Transport`) that maps each outgoing request to a reply. */
module RawClient {
  import opened Wrappers
  import opened Strings
  import opened Provider
  import opened Schema
  import Base64

  const ApiKeyHeader: string := "X-Api-Key"
  const ProviderHeader: string := "X-Provider"
  const BaseUrlHeader: string := "X-Base-Url"

  const AgentRunPath: string := "/agent/run"
  const AgentRunStreamPath: string := "/agent/run_stream"
  const SpeakPath: string := "/audio/speak"
  const SpeakStreamPath: string := "/audio/speak_stream"
  const TranscribePath: string := "/audio/transcribe"

  const ModelField: string := "model"
  const LanguageField: string := "language"
  const GenConfigField: string := "gen_config"

  const DefaultTimeout: real := 30.0

  datatype Client = Client(baseUrl: string, timeout: real)

  predicate IsSlash(c: char) {
    c == '/'
  }

  /** Python's `base_url.rstrip("/")`. */
  function StripTrailingSlashes(url: string): (r: string)
    ensures r <= url
    ensures |r| == 0 || r[|r| - 1] != '/'
    ensures forall k :: |r| <= k < |url| ==> url[k] == '/'
  {
    DropTrailing(url, IsSlash)
  }

  /** Stripping a stripped URL changes nothing. */
  lemma StripTrailingSlashesIdempotent(url: string)
    ensures StripTrailingSlashes(StripTrailingSlashes(url)) == StripTrailingSlashes(url)
  {
    DropTrailingIdempotent(url, IsSlash);
  }

  /** The constructor keeps the base URL without its trailing slashes. */
  function NewClient(baseUrl: string, timeout: real := DefaultTimeout): (c: Client)
    ensures c.baseUrl <= baseUrl
    ensures |c.baseUrl| == 0 || c.baseUrl[|c.baseUrl| - 1] != '/'
    ensures forall k :: |c.baseUrl| <= k < |baseUrl| ==> baseUrl[k] == '/'
    ensures c.timeout == timeout
  {
    Client(StripTrailingSlashes(baseUrl), timeout)
  }

  /** The address a request for `path` goes to. */
  function Endpoint(client: Client, path: string): string {
    client.baseUrl + path
  }

  /** Python's truthiness of an optional string: `None` and `""` are false. */
  predicate IsSet(s: Option<string>) {
    s.Some? && s.value != ""
  }

  /** The headers sent with every gateway request. */
  function BuildHeaders(apiKey: string, provider: string, baseUrl: Option<string> := None): (h: map<string, string>)
    ensures ApiKeyHeader in h && h[ApiKeyHeader] == apiKey
    ensures ProviderHeader in h && h[ProviderHeader] == provider
    ensures BaseUrlHeader in h <==> IsSet(baseUrl)
    ensures BaseUrlHeader in h ==> h[BaseUrlHeader] == baseUrl.value
    ensures forall k :: k in h ==> k == ApiKeyHeader || k == ProviderHeader || k == BaseUrlHeader
  {
    var common := map[ApiKeyHeader := apiKey, ProviderHeader := provider];
    if IsSet(baseUrl) then common[BaseUrlHeader := baseUrl.value] else common
  }

  function HeadersFor(creds: Creds): map<string, string> {
    BuildHeaders(creds.apiKey, creds.provider, creds.baseUrl)
  }

  /** Reads credentials back from request headers. */
  function CredsOfHeaders(h: map<string, string>): Option<Creds> {
    if ApiKeyHeader in h && ProviderHeader in h then
      Some(Creds(h[ApiKeyHeader], h[ProviderHeader], if BaseUrlHeader in h then Some(h[BaseUrlHeader]) else None))
    else None
  }

  /** The headers identify the credentials exactly, except that an empty
      base URL is sent the same way as no base URL. */
  lemma HeadersRoundTrip(creds: Creds)
    ensures CredsOfHeaders(HeadersFor(creds)) == Some(creds) <==> creds.baseUrl != Some("")
    ensures CredsOfHeaders(HeadersFor(creds)) == Some(creds.(baseUrl := if IsSet(creds.baseUrl) then creds.baseUrl else None))
  {
  }

  /** A form field of the transcription upload: plain text, or a
      configuration serialised as JSON. */
  datatype FormField = Field(text: string) | JsonField(config: GenConfig)

  /** The form fields of a transcription upload: the model always; the
      language and generation configuration only when they are non-empty. */
  function TranscribeForm(model: string, language: Option<string>, genConfig: Option<GenConfig>): (d: map<string, FormField>)
    ensures ModelField in d && d[ModelField] == Field(model)
    ensures LanguageField in d <==> IsSet(language)
    ensures LanguageField in d ==> d[LanguageField] == Field(language.value)
    ensures GenConfigField in d <==> genConfig.Some? && |genConfig.value| > 0
    ensures GenConfigField in d ==> d[GenConfigField] == JsonField(genConfig.value)
    ensures forall k :: k in d ==> k == ModelField || k == LanguageField || k == GenConfigField
  {
    var withModel := map[ModelField := Field(model)];
    var withLanguage := if IsSet(language) then withModel[LanguageField := Field(language.value)] else withModel;
    if genConfig.Some? && |genConfig.value| > 0 then withLanguage[GenConfigField := JsonField(genConfig.value)]
    else withLanguage
  }

  /** Reads the model, language and configuration back from a form. */
  function FormInputs(d: map<string, FormField>): (string, Option<string>, Option<GenConfig>) {
    var model := if ModelField in d && d[ModelField].Field? then d[ModelField].text else "";
    var language := if LanguageField in d && d[LanguageField].Field? then Some(d[LanguageField].text) else None;
    var config := if GenConfigField in d && d[GenConfigField].JsonField? then Some(d[GenConfigField].config) else None;
    (model, language, config)
  }

  /** The form recovers its inputs, with an empty language or configuration
      read back as absent. */
  lemma TranscribeFormRoundTrip(model: string, language: Option<string>, genConfig: Option<GenConfig>)
    ensures FormInputs(TranscribeForm(model, language, genConfig))
      == (model,
          if IsSet(language) then language else None,
          if genConfig.Some? && |genConfig.value| > 0 then genConfig else None)
  {
  }

  // ---------------------------------------------------------------------------
  // The transport oracle
  // ---------------------------------------------------------------------------

  datatype HttpPost<B> = HttpPost(url: string, headers: map<string, string>, body: B)

  /** A form upload: the text fields and the file. */
  datatype FormPost = FormPost(url: string, headers: map<string, string>, data: map<string, FormField>, file: FileUpload)

  /** A reply: the status code and the decoded payload, or why decoding failed. */
  datatype Reply<T> = Reply(status: int, payload: Result<T, string>)

  /** A streamed reply: the status code, the items received, and the
      transport error that cut the stream short, if any. */
  datatype StreamReply<C> = StreamReply(status: int, items: seq<C>, cut: Option<string>)

  /** What the client sees of the network: one reply per request, plus the
      decoder of one NDJSON line. */
  datatype Transport = Transport(
    agentRun: HttpPost<AgentRequest> -> Reply<AgentResponse>,
    agentRunStream: HttpPost<AgentRequest> -> StreamReply<string>,
    parseChunk: string -> Result<AgentResponse, string>,
    speak: HttpPost<SpeakRequest> -> Reply<seq<Base64.byte>>,
    speakStream: HttpPost<SpeakRequest> -> StreamReply<seq<Base64.byte>>,
    transcribe: FormPost -> Reply<TranscribeResponse>)

  /** What a consumer of a stream observes: the chunks yielded, then the
      error raised while iterating, if any. */
  datatype Stream<T> = Stream(chunks: seq<T>, error: Option<string>)

  /** The 2xx range, outside which httpx's `raise_for_status` raises. */
  predicate IsSuccessStatus(status: int) {
    200 <= status < 300
  }

  function AgentRunPost(client: Client, creds: Creds, request: AgentRequest, path: string): HttpPost<AgentRequest> {
    HttpPost(Endpoint(client, path), HeadersFor(creds), request)
  }

  function SpeakPost(client: Client, creds: Creds, request: SpeakRequest, path: string): HttpPost<SpeakRequest> {
    HttpPost(Endpoint(client, path), HeadersFor(creds), request)
  }

  /** A blocking agent run: anything but status 200 is an error. */
  function AgentRun(client: Client, t: Transport, creds: Creds, request: AgentRequest): (r: Result<AgentResponse, string>)
    ensures t.agentRun(AgentRunPost(client, creds, request, AgentRunPath)).status != 200 ==> r.Failure?
    ensures t.agentRun(AgentRunPost(client, creds, request, AgentRunPath)).status == 200
      ==> r == t.agentRun(AgentRunPost(client, creds, request, AgentRunPath)).payload
  {
    var reply := t.agentRun(AgentRunPost(client, creds, request, AgentRunPath));
    if reply.status != 200 then Failure("Error running agent") else reply.payload
  }

  /** The three blocking endpoints succeed exactly when the gateway's status
      passes their gate and the body decodes. Agent runs accept 200 only,
      while speech and transcription accept any 2xx, so a 201 fails an agent
      run but not a speech request. */
  lemma StatusGates(client: Client, t: Transport, creds: Creds, run: AgentRequest, speak: SpeakRequest,
                    model: string, file: FileUpload, language: Option<string>, genConfig: Option<GenConfig>)
    ensures AgentRun(client, t, creds, run).Success?
      <==> (t.agentRun(AgentRunPost(client, creds, run, AgentRunPath)).status == 200
           && t.agentRun(AgentRunPost(client, creds, run, AgentRunPath)).payload.Success?)
    ensures AudioSpeak(client, t, creds, speak).Success?
      <==> (IsSuccessStatus(t.speak(SpeakPost(client, creds, speak, SpeakPath)).status)
           && t.speak(SpeakPost(client, creds, speak, SpeakPath)).payload.Success?)
    ensures var post := FormPost(Endpoint(client, TranscribePath), HeadersFor(creds), TranscribeForm(model, language, genConfig), file);
      AudioTranscribe(client, t, creds, model, file, language, genConfig).Success?
      <==> IsSuccessStatus(t.transcribe(post).status) && t.transcribe(post).payload.Success?
  {
  }

  /** The non-blank lines of an NDJSON body, each stripped, in order. */
  function NdjsonLines(lines: seq<string>): (r: seq<string>)
    ensures |r| <= |lines|
    ensures forall k :: 0 <= k < |r| ==> |r[k]| > 0
    decreases |lines|
  {
    if |lines| == 0 then []
    else
      var line := Strip(lines[0]);
      var rest := NdjsonLines(lines[1..]);
      if |line| == 0 then rest else [line] + rest
  }

  /** Lines are filtered independently: the filter distributes over
      concatenation of line sequences. */
  lemma {:induction false} NdjsonLinesAppend(a: seq<string>, b: seq<string>)
    ensures NdjsonLines(a + b) == NdjsonLines(a) + NdjsonLines(b)
    decreases |a|
  {
    if |a| == 0 {
      assert a + b == b;
    } else {
      assert (a + b)[1..] == a[1..] + b;
      NdjsonLinesAppend(a[1..], b);
    }
  }

  /** A single line contributes its stripped text, or nothing when it is
      blank (whitespace only). */
  lemma NdjsonSingleLine(line: string)
    ensures NdjsonLines([line]) == if forall k :: 0 <= k < |line| ==> IsSpace(line[k]) then [] else [Strip(line)]
  {
    StripEmptyIffAllSpace(line);
  }

  /** Decodes lines one by one; the first undecodable line ends the stream
      with its error, otherwise the stream ends with `tail`. */
  function DecodeChunks(lines: seq<string>, parse: string -> Result<AgentResponse, string>, tail: Option<string>): (s: Stream<AgentResponse>)
    ensures |s.chunks| <= |lines|
    ensures forall k :: 0 <= k < |s.chunks| ==> parse(lines[k]) == Success(s.chunks[k])
    ensures |s.chunks| < |lines| ==> parse(lines[|s.chunks|]).Failure? && s.error == Some(parse(lines[|s.chunks|]).error)
    ensures |s.chunks| == |lines| ==> s.error == tail
    decreases |lines|
  {
    if |lines| == 0 then Stream([], tail)
    else
      match parse(lines[0])
      case Failure(e) => Stream([], Some(e))
      case Success(chunk) =>
        var rest := DecodeChunks(lines[1..], parse, tail);
        Stream([chunk] + rest.chunks, rest.error)
  }

  /** A streamed agent run: a status other than 200 raises before any chunk;
      otherwise one chunk per non-blank line, in order. */
  function AgentRunStream(client: Client, t: Transport, creds: Creds, request: AgentRequest): (s: Stream<AgentResponse>)
    ensures t.agentRunStream(AgentRunPost(client, creds, request, AgentRunStreamPath)).status != 200
      ==> s.chunks == [] && s.error.Some?
  {
    var reply := t.agentRunStream(AgentRunPost(client, creds, request, AgentRunStreamPath));
    if reply.status != 200 then Stream([], Some("Error streaming agent"))
    else DecodeChunks(NdjsonLines(reply.items), t.parseChunk, reply.cut)
  }

  /** With status 200 and every line decodable, the stream yields exactly one
      chunk per non-blank line and ends as the transport ended it. */
  lemma AgentRunStreamChunks(client: Client, t: Transport, creds: Creds, request: AgentRequest)
    requires t.agentRunStream(AgentRunPost(client, creds, request, AgentRunStreamPath)).status == 200
    requires var lines := NdjsonLines(t.agentRunStream(AgentRunPost(client, creds, request, AgentRunStreamPath)).items);
      forall k :: 0 <= k < |lines| ==> t.parseChunk(lines[k]).Success?
    ensures var reply := t.agentRunStream(AgentRunPost(client, creds, request, AgentRunStreamPath));
      var lines := NdjsonLines(reply.items);
      var s := AgentRunStream(client, t, creds, request);
      |s.chunks| == |lines| && s.error == reply.cut
      && forall k :: 0 <= k < |lines| ==> Success(s.chunks[k]) == t.parseChunk(lines[k])
  {
  }

  /** A blocking speech synthesis: httpx's `raise_for_status` gates on 2xx. */
  function AudioSpeak(client: Client, t: Transport, creds: Creds, request: SpeakRequest): (r: Result<seq<Base64.byte>, string>)
    ensures !IsSuccessStatus(t.speak(SpeakPost(client, creds, request, SpeakPath)).status) ==> r.Failure?
    ensures IsSuccessStatus(t.speak(SpeakPost(client, creds, request, SpeakPath)).status)
      ==> r == t.speak(SpeakPost(client, creds, request, SpeakPath)).payload
  {
    var reply := t.speak(SpeakPost(client, creds, request, SpeakPath));
    if !IsSuccessStatus(reply.status) then Failure("HTTP status error") else reply.payload
  }

  /** The non-empty byte chunks, in order. */
  function NonEmptyChunks(chunks: seq<seq<Base64.byte>>): (r: seq<seq<Base64.byte>>)
    ensures |r| <= |chunks|
    ensures forall k :: 0 <= k < |r| ==> r[k] != [] && r[k] in chunks
    ensures forall c :: c in chunks && c != [] ==> c in r
    decreases |chunks|
  {
    if |chunks| == 0 then []
    else if chunks[0] == [] then NonEmptyChunks(chunks[1..])
    else [chunks[0]] + NonEmptyChunks(chunks[1..])
  }

  /** Dropping empty chunks loses no audio: the concatenated bytes are unchanged. */
  lemma {:induction false} NonEmptyChunksKeepBytes(chunks: seq<seq<Base64.byte>>)
    ensures Flatten(NonEmptyChunks(chunks)) == Flatten(chunks)
    decreases |chunks|
  {
    if |chunks| > 0 {
      NonEmptyChunksKeepBytes(chunks[1..]);
    }
  }

  /** Chunks are filtered one at a time, so the filter distributes over
      concatenation: what survives keeps its arrival order. */
  lemma {:induction false} NonEmptyChunksAppend(a: seq<seq<Base64.byte>>, b: seq<seq<Base64.byte>>)
    ensures NonEmptyChunks(a + b) == NonEmptyChunks(a) + NonEmptyChunks(b)
    decreases |a|
  {
    if |a| == 0 {
      assert a + b == b;
    } else {
      assert (a + b)[1..] == a[1..] + b;
      NonEmptyChunksAppend(a[1..], b);
    }
  }

  /** A single chunk is passed on unchanged exactly when it is not empty. */
  lemma NonEmptySingleChunk(c: seq<Base64.byte>)
    ensures NonEmptyChunks([c]) == if c == [] then [] else [c]
  {
  }

  function Flatten(chunks: seq<seq<Base64.byte>>): seq<Base64.byte> {
    if |chunks| == 0 then [] else chunks[0] + Flatten(chunks[1..])
  }

  /** A streamed speech synthesis: a status other than 200 raises before any
      chunk; otherwise the non-empty byte chunks in order. */
  function AudioSpeakStream(client: Client, t: Transport, creds: Creds, request: SpeakRequest): (s: Stream<seq<Base64.byte>>)
    ensures t.speakStream(SpeakPost(client, creds, request, SpeakStreamPath)).status != 200
      ==> s.chunks == [] && s.error.Some?
    ensures t.speakStream(SpeakPost(client, creds, request, SpeakStreamPath)).status == 200
      ==> (s.chunks == NonEmptyChunks(t.speakStream(SpeakPost(client, creds, request, SpeakStreamPath)).items)
           && Flatten(s.chunks) == Flatten(t.speakStream(SpeakPost(client, creds, request, SpeakStreamPath)).items)
           && (forall k :: 0 <= k < |s.chunks| ==> s.chunks[k] != [])
           && s.error == t.speakStream(SpeakPost(client, creds, request, SpeakStreamPath)).cut)
  {
    var reply := t.speakStream(SpeakPost(client, creds, request, SpeakStreamPath));
    if reply.status != 200 then Stream([], Some("Error streaming audio"))
    else
      NonEmptyChunksKeepBytes(reply.items);
      Stream(NonEmptyChunks(reply.items), reply.cut)
  }

  /** A transcription upload: httpx's `raise_for_status` gates on 2xx. */
  function AudioTranscribe(client: Client, t: Transport, creds: Creds, model: string, file: FileUpload,
                      language: Option<string>, genConfig: Option<GenConfig>): (r: Result<TranscribeResponse, string>)
    ensures var post := FormPost(Endpoint(client, TranscribePath), HeadersFor(creds), TranscribeForm(model, language, genConfig), file);
      (!IsSuccessStatus(t.transcribe(post).status) ==> r.Failure?)
      && (IsSuccessStatus(t.transcribe(post).status) ==> r == t.transcribe(post).payload)
  {
    var post := FormPost(Endpoint(client, TranscribePath), HeadersFor(creds), TranscribeForm(model, language, genConfig), file);
    var reply := t.transcribe(post);
    if !IsSuccessStatus(reply.status) then Failure("HTTP status error") else reply.payload
  }
}
