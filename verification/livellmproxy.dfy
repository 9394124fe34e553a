/** The public operations of the high-level client: preprocessing where it
    applies, building the request, then delegating to the fallback wrappers. */
module LivellmProxy {
  import opened Wrappers
  import opened Provider
  import opened Message
  import opened Schema
  import RawClient
  import Fallback
  import Preprocess
  import Base64

  /** The request `AgentRun` sends once the messages are preprocessed. */
  function AgentRequestFor(model: string, messages: seq<Msg>, tools: seq<Tool>, genConfig: GenConfig): AgentRequest {
    AgentRequest(model, messages, tools, Some(genConfig))
  }

  /** The first candidate of the model whose run of `request` succeeds
      answered with `response`; every earlier candidate failed. */
  ghost predicate AnsweredBy(p: Fallback.Proxy, t: RawClient.Transport, request: AgentRequest, response: AgentResponse) {
    var candidates := Fallback.Candidates(p.providers, request.model, p.primary);
    exists i :: 0 <= i < |candidates|
      && (forall k :: 0 <= k < i ==> RawClient.AgentRun(p.client, t, candidates[k], request).Failure?)
      && RawClient.AgentRun(p.client, t, candidates[i], request) == Success(response)
  }

  /** Runs an agent: preprocesses the messages, sends exactly the preprocessed
      list with fallback from the primary credentials, and returns the
      response together with the list that was sent. */
  function AgentRun(p: Fallback.Proxy, t: RawClient.Transport, model: string, messages: seq<Msg>, tools: seq<Tool>,
                    force: bool := false, capabilities: Option<seq<Capability>> := None, genConfig: GenConfig := map[])
    : (r: Result<(AgentResponse, seq<Msg>), Fallback.Error>)
    ensures Preprocess.PreprocessMessages(p, t, messages, model, force, capabilities).Failure?
      ==> r == Failure(Preprocess.PreprocessMessages(p, t, messages, model, force, capabilities).error)
    ensures r.Success? ==> (Preprocess.PreprocessMessages(p, t, messages, model, force, capabilities) == Success(r.value.1)
      && |r.value.1| == |messages|
      && AnsweredBy(p, t, AgentRequestFor(model, r.value.1, tools, genConfig), r.value.0))
    ensures Preprocess.PreprocessMessages(p, t, messages, model, force, capabilities).Success? && r.Failure?
      ==> (r.error == Fallback.NoModelNamed(model)
        && forall c :: c in Fallback.Candidates(p.providers, model, p.primary) ==>
             RawClient.AgentRun(p.client, t, c,
               AgentRequestFor(model, Preprocess.PreprocessMessages(p, t, messages, model, force, capabilities).value, tools, genConfig)).Failure?)
  {
    var sent :- Preprocess.PreprocessMessages(p, t, messages, model, force, capabilities);
    var request := AgentRequestFor(model, sent, tools, genConfig);
    var run := Fallback.AgentRunWithFallback(p, t, request, p.primary);
    if run.result.Success? then
      var candidates := Fallback.Candidates(p.providers, model, p.primary);
      assert forall k :: 0 <= k < |run.tried| ==> candidates[k] == run.tried[k];
      assert AnsweredBy(p, t, request, run.result.value);
      Success((run.result.value, sent))
    else
      Failure(run.result.error)
  }

  /** Streams an agent run: preprocessing happens before the stream is opened,
      and the stream is always the primary credentials' one. */
  function AgentRunStream(p: Fallback.Proxy, t: RawClient.Transport, model: string, messages: seq<Msg>, tools: seq<Tool>,
                          force: bool := false, capabilities: Option<seq<Capability>> := None, genConfig: GenConfig := map[])
    : (r: Result<(RawClient.Stream<AgentResponse>, seq<Msg>), Fallback.Error>)
    ensures r.Success? <==> Preprocess.PreprocessMessages(p, t, messages, model, force, capabilities).Success?
    ensures r.Failure? ==> r.error == Preprocess.PreprocessMessages(p, t, messages, model, force, capabilities).error
    ensures r.Success? ==> (r.value.1 == Preprocess.PreprocessMessages(p, t, messages, model, force, capabilities).value
      && r.value.0 == RawClient.AgentRunStream(p.client, t, p.primary, AgentRequestFor(model, r.value.1, tools, genConfig)))
  {
    var sent :- Preprocess.PreprocessMessages(p, t, messages, model, force, capabilities);
    var request := AgentRequestFor(model, sent, tools, genConfig);
    Success((Fallback.AgentRunStreamWithFallback(p, t, request, p.primary), sent))
  }

  /** The speech request; an empty configuration is sent as none. */
  function SpeakRequestFor(model: string, text: string, voice: string, outputFormat: string, genConfig: GenConfig): (s: SpeakRequest)
    ensures s.model == model && s.text == text && s.voice == voice && s.outputFormat == outputFormat
    ensures s.genConfig.None? <==> |genConfig| == 0
    ensures s.genConfig.Some? ==> s.genConfig.value == genConfig
  {
    SpeakRequest(model, text, voice, outputFormat, NonEmptyOrNone(genConfig))
  }

  /** Synthesises speech with fallback over the candidates for `model`. */
  function AudioSpeak(p: Fallback.Proxy, t: RawClient.Transport, model: string, text: string, voice: string, outputFormat: string,
                      genConfig: GenConfig := map[]): (r: Result<seq<Base64.byte>, Fallback.Error>)
    ensures r.Success? ==>
      var candidates := Fallback.Candidates(p.providers, model, p.primary);
      exists i :: 0 <= i < |candidates|
        && (forall k :: 0 <= k < i ==>
              RawClient.AudioSpeak(p.client, t, candidates[k], SpeakRequestFor(model, text, voice, outputFormat, genConfig)).Failure?)
        && RawClient.AudioSpeak(p.client, t, candidates[i], SpeakRequestFor(model, text, voice, outputFormat, genConfig)) == Success(r.value)
    ensures r.Failure? ==> (r.error == Fallback.NoModelNamed(model)
      && forall c :: c in Fallback.Candidates(p.providers, model, p.primary) ==>
           RawClient.AudioSpeak(p.client, t, c, SpeakRequestFor(model, text, voice, outputFormat, genConfig)).Failure?)
  {
    var run := Fallback.AudioSpeakWithFallback(p, t, SpeakRequestFor(model, text, voice, outputFormat, genConfig), p.primary);
    if run.result.Success? then
      var candidates := Fallback.Candidates(p.providers, model, p.primary);
      assert forall k :: 0 <= k < |run.tried| ==> candidates[k] == run.tried[k];
      Success(run.result.value)
    else
      Failure(run.result.error)
  }

  /** Streams synthesised speech: always the primary credentials' stream. */
  function AudioSpeakStream(p: Fallback.Proxy, t: RawClient.Transport, model: string, text: string, voice: string, outputFormat: string,
                            genConfig: GenConfig := map[]): (s: RawClient.Stream<seq<Base64.byte>>)
    ensures s == RawClient.AudioSpeakStream(p.client, t, p.primary, SpeakRequestFor(model, text, voice, outputFormat, genConfig))
  {
    Fallback.AudioSpeakStreamWithFallback(p, t, SpeakRequestFor(model, text, voice, outputFormat, genConfig), p.primary)
  }

  /** Transcribes audio with fallback; an empty configuration is sent as none. */
  function AudioTranscribe(p: Fallback.Proxy, t: RawClient.Transport, model: string, file: FileUpload,
                           language: Option<string> := None, genConfig: GenConfig := map[])
    : (r: Result<TranscribeResponse, Fallback.Error>)
    ensures r.Success? ==>
      var candidates := Fallback.Candidates(p.providers, model, p.primary);
      exists i :: 0 <= i < |candidates|
        && (forall k :: 0 <= k < i ==>
              RawClient.AudioTranscribe(p.client, t, candidates[k], model, file, language, NonEmptyOrNone(genConfig)).Failure?)
        && RawClient.AudioTranscribe(p.client, t, candidates[i], model, file, language, NonEmptyOrNone(genConfig)) == Success(r.value)
    ensures r.Failure? ==> (r.error == Fallback.NoModelNamed(model)
      && forall c :: c in Fallback.Candidates(p.providers, model, p.primary) ==>
           RawClient.AudioTranscribe(p.client, t, c, model, file, language, NonEmptyOrNone(genConfig)).Failure?)
  {
    var run := Fallback.AudioTranscribeWithFallback(p, t, model, file, p.primary, language, NonEmptyOrNone(genConfig));
    if run.result.Success? then
      var candidates := Fallback.Candidates(p.providers, model, p.primary);
      assert forall k :: 0 <= k < |run.tried| ==> candidates[k] == run.tried[k];
      Success(run.result.value)
    else
      Failure(run.result.error)
  }

  /** The partner of `AgentRun`: once preprocessing has produced `sent`, the
      first candidate whose run of the request succeeds gives the response. */
  lemma AgentRunFirstSuccess(p: Fallback.Proxy, t: RawClient.Transport, model: string, messages: seq<Msg>, tools: seq<Tool>,
                             force: bool, capabilities: Option<seq<Capability>>, genConfig: GenConfig, sent: seq<Msg>, i: nat)
    requires Preprocess.PreprocessMessages(p, t, messages, model, force, capabilities) == Success(sent)
    requires i < |Fallback.Candidates(p.providers, model, p.primary)|
    requires RawClient.AgentRun(p.client, t, Fallback.Candidates(p.providers, model, p.primary)[i], AgentRequestFor(model, sent, tools, genConfig)).Success?
    requires forall k :: 0 <= k < i ==>
      RawClient.AgentRun(p.client, t, Fallback.Candidates(p.providers, model, p.primary)[k], AgentRequestFor(model, sent, tools, genConfig)).Failure?
    ensures AgentRun(p, t, model, messages, tools, force, capabilities, genConfig)
      == Success((RawClient.AgentRun(p.client, t, Fallback.Candidates(p.providers, model, p.primary)[i], AgentRequestFor(model, sent, tools, genConfig)).value, sent))
  {
    Fallback.AgentRunWithFallbackFirstSuccess(p, t, AgentRequestFor(model, sent, tools, genConfig), p.primary, i);
  }

  /** The partner of `AudioSpeak`: the first candidate whose synthesis
      succeeds supplies the audio. */
  lemma AudioSpeakFirstSuccess(p: Fallback.Proxy, t: RawClient.Transport, model: string, text: string, voice: string, outputFormat: string,
                               genConfig: GenConfig, i: nat)
    requires i < |Fallback.Candidates(p.providers, model, p.primary)|
    requires RawClient.AudioSpeak(p.client, t, Fallback.Candidates(p.providers, model, p.primary)[i], SpeakRequestFor(model, text, voice, outputFormat, genConfig)).Success?
    requires forall k :: 0 <= k < i ==>
      RawClient.AudioSpeak(p.client, t, Fallback.Candidates(p.providers, model, p.primary)[k], SpeakRequestFor(model, text, voice, outputFormat, genConfig)).Failure?
    ensures AudioSpeak(p, t, model, text, voice, outputFormat, genConfig)
      == Success(RawClient.AudioSpeak(p.client, t, Fallback.Candidates(p.providers, model, p.primary)[i], SpeakRequestFor(model, text, voice, outputFormat, genConfig)).value)
  {
    Fallback.AudioSpeakWithFallbackFirstSuccess(p, t, SpeakRequestFor(model, text, voice, outputFormat, genConfig), p.primary, i);
  }

  /** The partner of `AudioTranscribe`: the first candidate whose upload
      succeeds supplies the transcription. */
  lemma AudioTranscribeFirstSuccess(p: Fallback.Proxy, t: RawClient.Transport, model: string, file: FileUpload,
                                    language: Option<string>, genConfig: GenConfig, i: nat)
    requires i < |Fallback.Candidates(p.providers, model, p.primary)|
    requires RawClient.AudioTranscribe(p.client, t, Fallback.Candidates(p.providers, model, p.primary)[i], model, file, language, NonEmptyOrNone(genConfig)).Success?
    requires forall k :: 0 <= k < i ==>
      RawClient.AudioTranscribe(p.client, t, Fallback.Candidates(p.providers, model, p.primary)[k], model, file, language, NonEmptyOrNone(genConfig)).Failure?
    ensures AudioTranscribe(p, t, model, file, language, genConfig)
      == Success(RawClient.AudioTranscribe(p.client, t, Fallback.Candidates(p.providers, model, p.primary)[i], model, file, language, NonEmptyOrNone(genConfig)).value)
  {
    Fallback.AudioTranscribeWithFallbackFirstSuccess(p, t, model, file, p.primary, language, NonEmptyOrNone(genConfig), i);
  }
}
