# LiveLLM proxy client — a Dafny model

This project models the decision logic of `LivellmProxy`, the high-level
Python client of the LiveLLM gateway, together with the small pure pieces it
relies on. All of it is verified with Dafny 4.11. The model has two
cooperating components.

- **The fallback executor.** It builds an ordered list of candidate
  credentials for a model name: the primary credentials first, then the
  credentials of every provider that lists a model with exactly that name. It
  tries an action on each candidate in order and returns the first success.
  When every candidate fails, it raises a single "no model with name" error.
  Streams are opened with the primary credentials only, because opening an
  async generator cannot fail.
- **The capability-aware preprocessor.** It classifies each binary message by
  a MIME substring test: "image", then "video", then "audio". It decides
  whether the message list must be rewritten, either because that is forced or
  because the target model lacks a required capability. If so, it replaces
  every binary message, in place, by a text message with the same role. The
  text comes from a transformer sub-agent, which is the target model itself
  when it has the capability, or otherwise the first capable model in the
  registry. The sub-agent run goes through the fallback executor too.

The supporting pieces are:

- the message, credential, capability and provider records;
- `BinaryMessage.from_bytes` with the padded base64 of section 4 of RFC 4648,
  plus a strict decoder, a round-trip proof and a proof that the encoding is
  the only string decoding to its bytes;
- the four preset provider registries;
- from the raw HTTP client: base-URL trailing-slash stripping, header and
  transcription-form construction, status gating, NDJSON blank-line filtering,
  and the dropping of empty audio chunks.

The network is an oracle. `RawClient.Transport` maps each outgoing request
(URL, headers and body) to a reply (status and decoded payload), or to a
streamed reply (status, items, and the error that cut the stream short). A
failing endpoint call is a `Failure` value where the Python raises. Each
oracle is a function, so the same request always gets the same reply: a
candidate that appears twice in a fallback list repeats its first outcome,
where a real retry after a transient error might succeed.

Modules, one per source component:

- `Wrappers` (Option and Result);
- `Strings` (the `in` test, `strip` and `rstrip`);
- `Base64`, `Message`, `Provider` and `Schema` (request and response records);
- `RawClient`, `Fallback`, `Preprocess` and `LivellmProxy` (the public
  operations);
- `Presets` (the factories of `utils.py`);
- `Scenarios` (concrete registries and message lists).

Behaviour worth knowing, as the code has it:

- **The primary credentials always come first.** They open the candidate list
  even when no provider lists the model. Duplicates are kept, so primary
  credentials that a provider also holds are tried twice.
- **The error carries nothing about the attempts.** Only one error is raised,
  after every candidate has failed.
- **MIME matching is a substring test.** For example "application/x-image" is
  an image.
- **The transformer is one model.** The first capable model in registry
  order, or the target itself, is used with fallback over that model name
  only.
- **Capabilities come only from the caller.** The target model's capabilities
  are whatever the caller passes (none when absent), never looked up in the
  registry.
- **Streams do not fall back.** The primary credentials are always used, and
  errors while iterating are never retried.

One detail of the code does not matter to the model. The speech stream's error
path (`livellm/proxy/raw_client.py:185`) calls `decode` on the response
object. That raises an attribute error rather than the intended value error,
but either way nothing is yielded and an error reaches the caller, which is
what the model states.

## Model

| member | source | states |
|---|---|---|
| Strings.Contains | livellm/proxy/livellm_client.py:232-237 | Python's `sub in s` is true exactly when `sub` occurs at some index of `s` |
| Strings.LeadingRun | livellm/proxy/raw_client.py:120 | the leading whitespace run is maximal: every character before it is dropped, and the next one is kept |
| Strings.TrailingRun | livellm/proxy/raw_client.py:32 | the trailing run is maximal: every character after the kept part is dropped, and the last kept one is not droppable |
| Strings.Strip | livellm/proxy/raw_client.py:120 | `str.strip()` gives nothing longer than its input, and the result neither starts nor ends with whitespace |
| Strings.StripIsTrimmedSlice | livellm/proxy/raw_client.py:120 | `strip` keeps one contiguous slice of the line, and everything removed before or after it is whitespace |
| Strings.StripEmptyIffAllSpace | livellm/proxy/raw_client.py:120-122 | a stripped line is empty exactly when every character is whitespace, which is when the stream skips it |
| Strings.StripIdempotent | livellm/proxy/raw_client.py:120 | stripping a stripped line changes nothing |
| Strings.DropTrailingIdempotent | livellm/proxy/raw_client.py:32 | removing a trailing run twice equals removing it once |
| Base64.CharOf | livellm/proxy/models/message.py:48 | a base64 digit is never the pad character |
| Base64.IndexOf | livellm/proxy/models/message.py:48 | decoding a character gives the digit that encodes back to it |
| Base64.IndexOfCharOf | livellm/proxy/models/message.py:48 | every digit's character decodes back to that digit |
| Base64.EncodeTriple | livellm/proxy/models/message.py:48 | three bytes become four alphabet characters, with no padding |
| Base64.Encode | livellm/proxy/models/message.py:48 | `b64encode` output has length 4·⌈n/3⌉ and uses only alphabet and pad characters |
| Base64.DecodeQuad | livellm/proxy/models/message.py:48 | a quadruple decodes to one, two or three bytes; a padded quadruple with non-zero unused bits is rejected |
| Base64.DecodeQuadCanonical | livellm/proxy/models/message.py:48 | a quadruple that decodes is exactly the encoding of the bytes it decodes to |
| Base64.EncodeOfDecode | livellm/proxy/models/message.py:48 | any string that decodes to some bytes is the `b64encode` output for them, so the encoding is canonical |
| Base64.TripleRoundTrip | livellm/proxy/models/message.py:48 | a full quadruple decodes back to its three bytes |
| Base64.SingleRoundTrip | livellm/proxy/models/message.py:48 | a final single byte, padded with `==`, decodes back |
| Base64.PairRoundTrip | livellm/proxy/models/message.py:48 | a final pair of bytes, padded with `=`, decodes back |
| Base64.RoundTrip | livellm/proxy/models/message.py:48 | decoding the encoding of any byte string gives that byte string back |
| Message.FromBytes | livellm/proxy/models/message.py:29-54 | `from_bytes` gives a binary message with MIME type, role and caption copied, and content the padded base64 of the bytes, of length 4·⌈n/3⌉, that decodes back to them and is the only string that does |
| Message.FromBytesDefaults | livellm/proxy/models/message.py:33-34 | with the defaults, the role is "user" and there is no caption |
| Provider.CapabilityOfValue | src/models/provider.py:15-21 | looking up an enum value gives the capability carrying that value |
| Provider.CapabilityValueRoundTrip | src/models/provider.py:15-21 | every capability is found by its value, and a string names a capability only if it is one of the five values |
| Provider.Offers | livellm/proxy/livellm_client.py:179-182 | the nested provider/model loop visits one (model, creds) pair per listed model, each pairing a provider's model with that provider's creds |
| Provider.OffersAt | livellm/proxy/livellm_client.py:179-182 | every model of every provider is visited: model j of provider i is the pair at position (models of the earlier providers) + j, with provider i's creds, so the order is provider order then model order |
| Provider.OffersAppend | livellm/proxy/livellm_client.py:179-180 | the visiting order follows provider order: appended providers are visited afterwards |
| Schema.NonEmptyOrNone | livellm/proxy/livellm_client.py:367 | a configuration is sent as absent exactly when it is empty, and unchanged otherwise |
| RawClient.StripTrailingSlashes | livellm/proxy/raw_client.py:32 | `rstrip("/")` gives a prefix of the URL that does not end in '/', having removed only '/' characters |
| RawClient.StripTrailingSlashesIdempotent | livellm/proxy/raw_client.py:32 | stripping the stripped URL again changes nothing |
| RawClient.NewClient | livellm/proxy/raw_client.py:27-37 | the client keeps the base URL without trailing slashes, with the given timeout |
| RawClient.BuildHeaders | livellm/proxy/raw_client.py:39-52 | X-Api-Key and X-Provider are always set. X-Base-Url is present exactly when the base URL is non-empty, and then holds it. There are no other keys |
| RawClient.HeadersRoundTrip | livellm/proxy/raw_client.py:46-52 | the headers identify the credentials exactly, except that an empty base URL reads back as none |
| RawClient.TranscribeForm | livellm/proxy/raw_client.py:220-224 | the form always has "model". It has "language" and "gen_config" exactly when they are non-empty, with their values. There are no other fields |
| RawClient.TranscribeFormRoundTrip | livellm/proxy/raw_client.py:220-224 | the form gives back its model, language and configuration, with empty ones read back as absent |
| RawClient.AgentRun | livellm/proxy/raw_client.py:78-87 | any status other than 200 is an error; with status 200 the result is exactly the decoded reply, or its decoding error |
| RawClient.StatusGates | livellm/proxy/raw_client.py:78-157 | an agent run succeeds exactly when the status is 200 and the reply decodes; speech (and likewise transcription) succeeds exactly when the status is 2xx and the reply decodes, so a 201 fails an agent run but not a speech request |
| RawClient.NdjsonLines | livellm/proxy/raw_client.py:119-122 | the kept lines are no more than the received lines, and none is blank |
| RawClient.NdjsonLinesAppend | livellm/proxy/raw_client.py:119-122 | lines are filtered independently, so the filter distributes over concatenation |
| RawClient.NdjsonSingleLine | livellm/proxy/raw_client.py:120-122 | a line contributes its stripped text, or nothing when it is whitespace only |
| RawClient.DecodeChunks | livellm/proxy/raw_client.py:123-124 | the chunks are the decoded lines in order. The first undecodable line ends the stream with its error; otherwise the stream ends as the transport ended it |
| RawClient.AgentRunStream | livellm/proxy/raw_client.py:114-117 | a status other than 200 raises before any chunk |
| RawClient.AgentRunStreamChunks | livellm/proxy/raw_client.py:119-124 | with status 200 and every non-blank received line decodable, the stream has one chunk per non-blank line, in order, each the decoding of its line, and ends as the transport ended it |
| RawClient.AudioSpeak | livellm/proxy/raw_client.py:150-157 | a status outside 2xx is an error; with a 2xx status the result is exactly the reply's bytes, or its decoding error |
| RawClient.NonEmptyChunks | livellm/proxy/raw_client.py:188-190 | every kept chunk is non-empty and received, and every non-empty received chunk is kept |
| RawClient.NonEmptyChunksKeepBytes | livellm/proxy/raw_client.py:188-190 | dropping empty chunks loses no audio: the concatenated bytes are unchanged |
| RawClient.NonEmptyChunksAppend | livellm/proxy/raw_client.py:188-190 | chunks are filtered one at a time: the filter distributes over concatenation, so kept chunks stay in arrival order |
| RawClient.NonEmptySingleChunk | livellm/proxy/raw_client.py:188-190 | a single chunk is yielded unchanged exactly when it is not empty |
| RawClient.AudioSpeakStream | livellm/proxy/raw_client.py:178-190 | a status other than 200 raises before any chunk. With 200, the chunks are the received non-empty chunks, unchanged and in arrival order; they together carry exactly the received bytes, and the stream ends with the transport's own error, if any |
| RawClient.AudioTranscribe | livellm/proxy/raw_client.py:217-237 | the upload goes to the transcription path with the credentials' headers and the built form. A status outside 2xx is an error; with a 2xx status the result is exactly the decoded reply, or its decoding error |
| Fallback.Candidates | livellm/proxy/livellm_client.py:43-49 | the candidate list is never empty and starts with the primary credentials |
| Fallback.CandidatesShape | livellm/proxy/livellm_client.py:43-49 | the list has 1 + (number of provider models with that exact name) entries, and after the primary come those providers' creds in visiting order |
| Fallback.MatchingCredsFollowsOffers | livellm/proxy/livellm_client.py:45-48 | the nested loop collects exactly the creds of the visited pairs whose model name matches, in visiting order |
| Fallback.MatchesInNone | livellm/proxy/livellm_client.py:46-48 | a provider with no model of that name contributes nothing |
| Fallback.MatchesInOnly | livellm/proxy/livellm_client.py:46-48 | a provider with exactly one model of that name contributes its creds once |
| Fallback.CredsOfOffersAppend | livellm/proxy/livellm_client.py:45-48 | collecting matching creds distributes over concatenation of pair lists |
| Fallback.MatchesInIsOfferFilter | livellm/proxy/livellm_client.py:46-48 | the inner loop over one provider's models collects what filtering that provider's pairs collects |
| Fallback.CredsOfOffersCount | livellm/proxy/livellm_client.py:45-48 | one entry is collected per matching pair |
| Fallback.UnknownModelOnlyPrimary | livellm/proxy/livellm_client.py:43-49 | a name that no provider lists leaves only the primary credentials |
| Fallback.NoneNamedNoCreds | livellm/proxy/livellm_client.py:45-48 | with no pair of that name, nothing is collected |
| Fallback.MatchingCredsAppend | livellm/proxy/livellm_client.py:45-48 | providers registered later contribute their candidates later |
| Fallback.TryInOrder | livellm/proxy/livellm_client.py:53-61 | the attempted candidates are a prefix of the list. Every one but the last failed, and a result comes from the last; with no result, all were attempted and all failed |
| Fallback.RunWithFallback | livellm/proxy/livellm_client.py:51-62 | the attempts are a prefix of the candidates, starting with the primary, and all but the last failed. A success is the last attempt's result. A failure is the single "no model named" error, raised after every candidate was tried and failed |
| Fallback.TryInOrderFirstSuccess | livellm/proxy/livellm_client.py:53-58 | the loop stops at the first success: it returns that result, having attempted exactly the candidates up to it |
| Fallback.FirstSuccessDecides | livellm/proxy/livellm_client.py:51-58 | the first succeeding candidate decides the result, and no later candidate is attempted |
| Fallback.StreamUsesPrimaryOnly | livellm/proxy/livellm_client.py:55-56 | in stream mode the first candidate, the primary credentials, is the only one used |
| Fallback.ExhaustedIffAllFail | livellm/proxy/livellm_client.py:59-62 | the run fails exactly when every candidate fails |
| Fallback.NewProxy | livellm/proxy/livellm_client.py:29-40 | the client keeps the primary credentials and providers; its raw client is the one built from the base URL, whose stored URL is the given one with only its trailing '/' characters removed |
| Fallback.AgentRunWithFallback | livellm/proxy/livellm_client.py:64-67 | the attempts are a prefix of the candidates, from the primary, and every attempt before the last failed, so a result is the first successful candidate's answer. It fails with "no model named" only when every candidate's run fails |
| Fallback.AgentRunWithFallbackFirstSuccess | livellm/proxy/livellm_client.py:53-58 | when candidate i is the first whose agent run succeeds, the result is its answer after attempting exactly candidates 0..i |
| Fallback.AgentRunStreamWithFallback | livellm/proxy/livellm_client.py:69-74 | the streamed agent run is the primary credentials' stream |
| Fallback.AudioSpeakWithFallback | livellm/proxy/livellm_client.py:76-79 | every attempt before the last failed, so the audio is the first successful candidate's; it fails only when every candidate fails |
| Fallback.AudioSpeakWithFallbackFirstSuccess | livellm/proxy/livellm_client.py:53-58 | when candidate i is the first whose synthesis succeeds, the result is its audio after attempting exactly candidates 0..i |
| Fallback.AudioSpeakStreamWithFallback | livellm/proxy/livellm_client.py:81-86 | the speech stream is the primary credentials' stream |
| Fallback.AudioTranscribeWithFallback | livellm/proxy/livellm_client.py:88-106 | every attempt before the last failed, so the transcription is the first successful candidate's; it fails only when every candidate fails |
| Fallback.AudioTranscribeWithFallbackFirstSuccess | livellm/proxy/livellm_client.py:53-58 | when candidate i is the first whose upload succeeds, the result is its transcription after attempting exactly candidates 0..i |
| Preprocess.Classify | livellm/proxy/livellm_client.py:232-239 | a classified MIME type needs an agent capability; otherwise the error names the MIME type |
| Preprocess.ClassifyByPrecedence | livellm/proxy/livellm_client.py:232-237 | "image" anywhere gives the image capability. Otherwise "video" gives video, and otherwise "audio" gives audio; with none of them the type is unsupported |
| Preprocess.Binaries | livellm/proxy/livellm_client.py:230-231 | a message is picked exactly when it is in the list and binary |
| Preprocess.BinariesAppend | livellm/proxy/livellm_client.py:230-231 | picking distributes over concatenation, so the binary messages keep the order of the list |
| Preprocess.RequiredCapabilities | livellm/proxy/livellm_client.py:225-240 | one capability per binary message, in message order, each its message's classification; an error is an unsupported MIME type |
| Preprocess.RequiredCapabilitiesSucceedsIff | livellm/proxy/livellm_client.py:230-240 | the capabilities are found exactly when no binary message has an unsupported MIME type |
| Preprocess.RequiredCapabilitiesRaisesFirst | livellm/proxy/livellm_client.py:230-239 | the error raised names the first unsupported binary message |
| Preprocess.FirstOfferWith | livellm/proxy/livellm_client.py:179-182 | the index found is the first pair whose model has the capability; none is found exactly when no model has it |
| Preprocess.FindModelWithCapability | livellm/proxy/livellm_client.py:175-183 | the first model in provider order, then model order, having the capability, with its provider's creds. It fails exactly when no registered model has it |
| Preprocess.SelectTransformer | livellm/proxy/livellm_client.py:190-206 | a target with the capability transforms for itself with the primary credentials. Otherwise the transformer is exactly the first capable registered (model, creds) pair; with none, the error names the capability |
| Preprocess.TransformerRequest | livellm/proxy/livellm_client.py:119-130 | the sub-request is the system prompt followed by the original binary message, with no tools and temperature 0 |
| Preprocess.BinaryToText | livellm/proxy/livellm_client.py:185-209 | an unsupported MIME type or a missing transformer raises its error. A text is the output of the first candidate of the chosen transformer whose sub-run succeeds, every earlier one having failed. A failed sub-run names the transformer model, and then every candidate failed |
| Preprocess.BinaryToTextFirstSuccess | livellm/proxy/livellm_client.py:185-209 | with the capability and the transformer fixed, the first candidate whose sub-run succeeds decides the text |
| Preprocess.RewriteOne | livellm/proxy/livellm_client.py:216-221 | a text message passes as is, and a binary one becomes a text message with its role; it fails exactly when the transformation fails |
| Preprocess.BinariesToText | livellm/proxy/livellm_client.py:211-222 | the rewrite succeeds exactly when no transformation fails. It keeps length and order, leaves text messages identical, and turns each binary into text with the same role and the transformer's output |
| Preprocess.BinariesToTextRaisesFirst | livellm/proxy/livellm_client.py:216-219 | transformations run in message order: the error is the first failing binary's |
| Preprocess.BinariesToTextKeepsText | livellm/proxy/livellm_client.py:220-221 | a list without binary messages passes through unchanged |
| Preprocess.BinaryMakesChange | livellm/proxy/livellm_client.py:216-219 | a list with a binary message never comes back unchanged from the rewrite |
| Preprocess.TargetModel | livellm/proxy/livellm_client.py:261 | the target has the requested name, and has a capability exactly when the caller passed it |
| Preprocess.PreprocessMessages | livellm/proxy/livellm_client.py:242-270 | unforced, an unsupported MIME type raises. When transformation is forced or a required capability is missing, the list is rewritten; otherwise it is returned as is. Length is preserved |
| Preprocess.AllTextRequiresNothing | livellm/proxy/livellm_client.py:229-240 | text messages require no capability |
| Preprocess.PreprocessUnchangedIff | livellm/proxy/livellm_client.py:261-270 | the list comes back unchanged exactly when it has no binary message, or when unforced with every required capability declared |
| Preprocess.PreprocessIdempotent | livellm/proxy/livellm_client.py:261-270 | preprocessing a preprocessed list again without forcing changes nothing |
| LivellmProxy.AgentRun | livellm/proxy/livellm_client.py:273-305 | a preprocessing error propagates. Otherwise the preprocessed list, of unchanged length, is sent and returned, and the response is the answer of the first candidate that succeeds, every earlier one having failed. A failure means every candidate failed |
| LivellmProxy.AgentRunFirstSuccess | livellm/proxy/livellm_client.py:273-305 | once preprocessing yields the sent list, the first candidate whose run succeeds gives the response |
| LivellmProxy.AgentRunStream | livellm/proxy/livellm_client.py:307-339 | preprocessing happens before the stream, and its error propagates. The stream is the primary credentials' stream of the preprocessed list |
| LivellmProxy.SpeakRequestFor | livellm/proxy/livellm_client.py:362-368 | model, text, voice and output format are copied; the configuration is sent as none exactly when it is empty, and as itself otherwise |
| LivellmProxy.AudioSpeak | livellm/proxy/livellm_client.py:341-369 | the audio is the answer of the first candidate that succeeds, every earlier one having failed; a failure means every candidate failed and names the model |
| LivellmProxy.AudioSpeakFirstSuccess | livellm/proxy/livellm_client.py:341-369 | the first candidate whose synthesis succeeds gives the audio |
| LivellmProxy.AudioSpeakStream | livellm/proxy/livellm_client.py:371-400 | the speech stream is always the primary credentials' stream |
| LivellmProxy.AudioTranscribe | livellm/proxy/livellm_client.py:402-427 | the transcription is the answer of the first candidate that succeeds, every earlier one having failed, with an empty configuration sent as none; a failure means every candidate failed |
| LivellmProxy.AudioTranscribeFirstSuccess | livellm/proxy/livellm_client.py:402-427 | the first candidate whose upload succeeds gives the transcription |
| Presets.OpenAIConfig | livellm/proxy/utils.py:7-30 | the key and base URL are stored unchanged under provider "openai", with eight models |
| Presets.OpenAICapabilities | livellm/proxy/utils.py:21-28 | only gpt-4o and gpt-4o-mini consume images, none consumes video or audio, tts-1 and tts-1-hd speak, and whisper-1 transcribes |
| Presets.GoogleConfig | livellm/proxy/utils.py:33-52 | the key and base URL are stored unchanged under provider "google", with three models |
| Presets.GoogleCapabilities | livellm/proxy/utils.py:44-51 | all three Gemini models consume images, video and audio, and none speaks or transcribes |
| Presets.ElevenLabsConfig | livellm/proxy/utils.py:55-75 | the key and base URL are stored unchanged under provider "elevenlabs", with five models |
| Presets.ElevenLabsCapabilities | livellm/proxy/utils.py:68-74 | four models speak, scribe_v1 transcribes, and none is an agent |
| Presets.AnthropicConfig | livellm/proxy/utils.py:78-97 | the key and base URL are stored unchanged under provider "anthropic", with four models |
| Presets.AnthropicCapabilities | livellm/proxy/utils.py:91-96 | no Claude model declares any capability |
| Presets.PresetModelNames | livellm/proxy/utils.py:20-96 | each factory lists exactly its model names, in source order, including the models without capabilities |
| Presets.PresetNamesDistinct | livellm/proxy/utils.py:20-96 | within each preset, model names are pairwise distinct |
| Scenarios.TransformerIsFirstCapable | livellm/proxy/livellm_client.py:179-182 | when the target lacks the capability, the transformer is the first capable (model, creds) pair in visiting order, found from any leading part of the visiting order that contains it |
| Scenarios.ImageForClaudeUsesGpt4o | livellm/proxy/livellm_client.py:190-195 | with OpenAI, Google and Anthropic registered, an image for claude-sonnet-4.5 is described by gpt-4o with the OpenAI credentials |
| Scenarios.VideoAndAudioForClaudeUseGeminiFlashLite | livellm/proxy/livellm_client.py:196-207 | with the same registry, video and audio go to gemini-2.5-flash-lite with the Google credentials |
| Scenarios.Gpt4oCandidatesRepeatPrimary | livellm/proxy/livellm_client.py:43-49 | primary credentials equal to the OpenAI ones are tried twice for gpt-4o, since duplicates are kept; the transport being a function, the second try repeats the first one's outcome |
| Scenarios.ThreeProvidersCandidates | livellm/proxy/livellm_client.py:43-49 | with three providers that list the model, the candidates are the primary, then the three in registration order |
| Scenarios.FallbackVisitsInOrder | livellm/proxy/livellm_client.py:51-58 | with the primary and the first two failing, the third provider answers after exactly four attempts in order |
| Scenarios.FallbackExhausted | livellm/proxy/livellm_client.py:59-62 | when all four fail, each is tried once in order and one "no model named" error is raised |
| Scenarios.PngIsImage | livellm/proxy/livellm_client.py:232-233 | "image/png" is an image |
| Scenarios.ImageThenTextRequiresImageAgent | livellm/proxy/livellm_client.py:225-240 | an image followed by a text requires exactly the image capability |
| Scenarios.UndeclaredImageIsTransformed | livellm/proxy/livellm_client.py:266-268 | for a model declaring nothing, preprocessing an image-and-text list is exactly rewriting its binaries to text |
| Scenarios.CapabilityGating | livellm/proxy/livellm_client.py:261-268 | for claude-sonnet-4.5 without capabilities, a successful preprocessing gives two messages. The image becomes text with its role, and the text is unchanged |
| Scenarios.CapabilityGatingFailure | livellm/proxy/livellm_client.py:185-195 | when that transformation fails, the error names gpt-4o, the transformer chosen from the registry |
| Scenarios.FirstOfTwoFails | livellm/proxy/livellm_client.py:216-219 | with a text message second, a failure comes from the first message, with its error |
| Scenarios.ForcedTransform | livellm/proxy/livellm_client.py:263-264 | forced, an image for a model that consumes images is still turned into one text message, by that model itself with the primary credentials; a failure names that model |

## Left out

- The HTTP transport, JSON encoding and decoding, and pydantic validation are an oracle. The client's requests and the statuses it checks are modelled; what the gateway answers is not.
- `async`/`await` is not modelled. Calls are sequential, and a stream is the finite list of what its consumer observes plus the error that ended it.
- Logging of failed attempts is left out: it has no effect on results.
- The health check `ping` is left out: the high-level client never calls it.
- The three transformer system prompts are abbreviated to three distinct constant strings.
- `json.dumps` of the transcription configuration is a foreign call. The form field carries the configuration itself.
- httpx's joining of the base URL with a path is modelled as concatenation.
- `raise_for_status` is modelled as "any 2xx status succeeds". Redirect handling is not modelled.
- The root `raw_client.py` is an older duplicate that the client does not import, and is not part of this model.
- The copies under `src/models/` other than `provider.py` duplicate the files under `livellm/proxy/models/` and are not modelled again.
- The schema-only records (agent, audio, tool and error models) are opaque records here.
- The example scripts are not part of this model.
- Preprocess.Classify: its contract states only the error and the agent-ness of the result. The substring precedence is stated by Preprocess.ClassifyByPrecedence.
- Strings.Strip: its contract states only the bound and the non-whitespace ends. The slice property is Strings.StripIsTrimmedSlice.
- RawClient.NdjsonLines: its contract states only the bound and non-blankness. The per-line content is stated by RawClient.NdjsonSingleLine and RawClient.NdjsonLinesAppend.
- RawClient.AgentRunStream: its contract covers only a non-200 status. The 200 case is RawClient.AgentRunStreamChunks, which assumes every non-blank received line decodes; the undecodable-line case is RawClient.DecodeChunks.
- Provider.Offers: its contract states only the count and which provider each pair comes from. The exact position of every model, and so order and coverage, is Provider.OffersAt.
- Presets.OpenAIConfig: its contract, like those of the other three factories, states only the credentials and the model count. The names, in order, are stated by Presets.PresetModelNames and the capabilities by the capability lemmas.
