/** The fallback executor: the ordered list of candidate credentials for a
    model name, and the in-order attempt loop over it. */
module Fallback {
  import opened Wrappers
  import opened Provider
  import opened Schema
  import opened RawClient
  import Base64

  /** The errors the client raises to its caller. */
  datatype Error =
    | NoModelNamed(model: string)          // every candidate failed
    | UnsupportedMimeType(mimeType: string)
    | NoModelWithCapability(capability: Capability)

  /** The credentials of every provider model named `model`, in provider
      order then model order; a provider appears once per matching model. */
  function MatchingCreds(providers: seq<ProviderConfig>, model: string): seq<Creds>
    decreases |providers|
  {
    if |providers| == 0 then []
    else MatchesIn(providers[0].models, model, providers[0].creds) + MatchingCreds(providers[1..], model)
  }

  function MatchesIn(models: seq<Model>, model: string, creds: Creds): seq<Creds>
    decreases |models|
  {
    if |models| == 0 then []
    else (if models[0].name == model then [creds] else []) + MatchesIn(models[1..], model, creds)
  }

  /** A model list with no model of that name contributes nothing. */
  lemma {:induction false} MatchesInNone(models: seq<Model>, model: string, creds: Creds)
    requires forall j :: 0 <= j < |models| ==> models[j].name != model
    ensures MatchesIn(models, model, creds) == []
    decreases |models|
  {
    if |models| > 0 {
      MatchesInNone(models[1..], model, creds);
    }
  }

  /** A model list where exactly one model has that name contributes its
      provider's credentials exactly once. */
  lemma {:induction false} MatchesInOnly(models: seq<Model>, model: string, creds: Creds, i: nat)
    requires i < |models| && models[i].name == model
    requires forall j :: 0 <= j < |models| && j != i ==> models[j].name != model
    ensures MatchesIn(models, model, creds) == [creds]
    decreases |models|
  {
    if i == 0 {
      MatchesInNone(models[1..], model, creds);
    } else {
      MatchesInOnly(models[1..], model, creds, i - 1);
    }
  }

  /** The creds of the offers named `model`, taken from the flattened offer list. */
  function CredsOfOffersNamed(offers: seq<Offer>, model: string): seq<Creds>
    decreases |offers|
  {
    if |offers| == 0 then []
    else (if offers[0].model.name == model then [offers[0].creds] else []) + CredsOfOffersNamed(offers[1..], model)
  }

  /** The number of offers whose model is named `model`. */
  function CountNamed(offers: seq<Offer>, model: string): nat
    decreases |offers|
  {
    if |offers| == 0 then 0
    else (if offers[0].model.name == model then 1 else 0) + CountNamed(offers[1..], model)
  }

  /** The candidate list: the primary credentials first, then one entry per
      provider model with exactly this name. It is never empty. */
  function Candidates(providers: seq<ProviderConfig>, model: string, primary: Creds): (r: seq<Creds>)
    ensures |r| >= 1 && r[0] == primary
  {
    [primary] + MatchingCreds(providers, model)
  }

  lemma {:induction false} CredsOfOffersAppend(a: seq<Offer>, b: seq<Offer>, model: string)
    ensures CredsOfOffersNamed(a + b, model) == CredsOfOffersNamed(a, model) + CredsOfOffersNamed(b, model)
    decreases |a|
  {
    if |a| == 0 {
      assert a + b == b;
    } else {
      var ab := a + b;
      assert ab[0] == a[0];
      assert ab[1..] == a[1..] + b;
      CredsOfOffersAppend(a[1..], b, model);
      var head := if a[0].model.name == model then [a[0].creds] else [];
      assert CredsOfOffersNamed(ab, model) == head + CredsOfOffersNamed(ab[1..], model);
      assert CredsOfOffersNamed(a, model) == head + CredsOfOffersNamed(a[1..], model);
    }
  }

  lemma {:induction false} MatchesInIsOfferFilter(p: ProviderConfig, model: string, from: nat)
    requires from <= |p.models|
    ensures MatchesIn(p.models[from..], model, p.creds)
      == CredsOfOffersNamed(seq(|p.models| - from, j requires 0 <= j < |p.models| - from => Offer(p.models[from + j], p.creds)), model)
    decreases |p.models| - from
  {
    var offers := seq(|p.models| - from, j requires 0 <= j < |p.models| - from => Offer(p.models[from + j], p.creds));
    if from < |p.models| {
      MatchesInIsOfferFilter(p, model, from + 1);
      assert p.models[from..][1..] == p.models[from + 1..];
      assert offers[1..] == seq(|p.models| - (from + 1), j requires 0 <= j < |p.models| - (from + 1) => Offer(p.models[from + 1 + j], p.creds));
    }
  }

  /** The nested provider/model loop visits exactly the flattened offer list:
      the candidates after the primary are the creds of the offers named
      `model`, in offer order. */
  lemma {:induction false} MatchingCredsFollowsOffers(providers: seq<ProviderConfig>, model: string)
    ensures MatchingCreds(providers, model) == CredsOfOffersNamed(Offers(providers), model)
    decreases |providers|
  {
    if |providers| > 0 {
      var p := providers[0];
      MatchesInIsOfferFilter(p, model, 0);
      assert p.models[0..] == p.models;
      MatchingCredsFollowsOffers(providers[1..], model);
      var block := seq(|p.models|, j requires 0 <= j < |p.models| => Offer(p.models[j], p.creds));
      assert block == seq(|p.models| - 0, j requires 0 <= j < |p.models| - 0 => Offer(p.models[0 + j], p.creds));
      assert Offers(providers) == block + Offers(providers[1..]);
      CredsOfOffersAppend(block, Offers(providers[1..]), model);
    }
  }

  lemma {:induction false} CredsOfOffersCount(offers: seq<Offer>, model: string)
    ensures |CredsOfOffersNamed(offers, model)| == CountNamed(offers, model)
    decreases |offers|
  {
    if |offers| > 0 {
      CredsOfOffersCount(offers[1..], model);
    }
  }

  /** The candidate list has one entry more than there are models named
      `model`, and every entry after the first is the creds of a provider
      that lists a model of that name. */
  lemma CandidatesShape(providers: seq<ProviderConfig>, model: string, primary: Creds)
    ensures |Candidates(providers, model, primary)| == 1 + CountNamed(Offers(providers), model)
    ensures Candidates(providers, model, primary)[1..] == CredsOfOffersNamed(Offers(providers), model)
  {
    MatchingCredsFollowsOffers(providers, model);
    CredsOfOffersCount(Offers(providers), model);
  }

  /** A model name no provider lists leaves the primary credentials alone. */
  lemma UnknownModelOnlyPrimary(providers: seq<ProviderConfig>, model: string, primary: Creds)
    requires forall k :: 0 <= k < |Offers(providers)| ==> Offers(providers)[k].model.name != model
    ensures Candidates(providers, model, primary) == [primary]
  {
    MatchingCredsFollowsOffers(providers, model);
    NoneNamedNoCreds(Offers(providers), model);
  }

  lemma {:induction false} NoneNamedNoCreds(offers: seq<Offer>, model: string)
    requires forall k :: 0 <= k < |offers| ==> offers[k].model.name != model
    ensures CredsOfOffersNamed(offers, model) == []
    decreases |offers|
  {
    if |offers| > 0 {
      NoneNamedNoCreds(offers[1..], model);
    }
  }

  /** Candidate order follows provider order: providers appended later
      contribute their candidates later. */
  lemma {:induction false} MatchingCredsAppend(ps: seq<ProviderConfig>, qs: seq<ProviderConfig>, model: string)
    ensures MatchingCreds(ps + qs, model) == MatchingCreds(ps, model) + MatchingCreds(qs, model)
    decreases |ps|
  {
    if |ps| == 0 {
      assert ps + qs == qs;
    } else {
      assert (ps + qs)[1..] == ps[1..] + qs;
      MatchingCredsAppend(ps[1..], qs, model);
    }
  }

  // ---------------------------------------------------------------------------
  // The attempt loop
  // ---------------------------------------------------------------------------

  /** The outcome of a fallback run: the result, and the credentials
      attempted, in the order they were attempted. */
  datatype Run<T> = Run(result: Result<T, Error>, tried: seq<Creds>)

  /** Tries `attempt` on each candidate in order and stops at the first
      success; `None` when every candidate failed. */
  function TryInOrder<T>(candidates: seq<Creds>, attempt: Creds -> Result<T, string>): (r: (Option<T>, seq<Creds>))
    ensures |r.1| <= |candidates| && r.1 == candidates[..|r.1|]
    ensures forall k :: 0 <= k < |r.1| - 1 ==> attempt(r.1[k]).Failure?
    ensures r.0.Some? ==> |r.1| >= 1 && attempt(r.1[|r.1| - 1]) == Success(r.0.value)
    ensures r.0.None? ==> r.1 == candidates && forall k :: 0 <= k < |candidates| ==> attempt(candidates[k]).Failure?
    decreases |candidates|
  {
    if |candidates| == 0 then (None, [])
    else
      match attempt(candidates[0])
      case Success(v) => (Some(v), [candidates[0]])
      case Failure(_) =>
        var (v, rest) := TryInOrder(candidates[1..], attempt);
        (v, [candidates[0]] + rest)
  }

  /** Runs `attempt` against the candidates for `model`, in order. The first
      success is returned; when all fail, one error naming the model is raised
      and no per-attempt detail is kept. */
  function RunWithFallback<T>(providers: seq<ProviderConfig>, model: string, primary: Creds,
                              attempt: Creds -> Result<T, string>): (r: Run<T>)
    ensures |r.tried| >= 1 && r.tried[0] == primary
    ensures |r.tried| <= |Candidates(providers, model, primary)|
    ensures r.tried == Candidates(providers, model, primary)[..|r.tried|]
    ensures forall k :: 0 <= k < |r.tried| - 1 ==> attempt(r.tried[k]).Failure?
    ensures r.result.Success? ==> attempt(r.tried[|r.tried| - 1]) == Success(r.result.value)
    ensures r.result.Failure? ==> (r.result.error == NoModelNamed(model)
      && r.tried == Candidates(providers, model, primary)
      && forall c :: c in Candidates(providers, model, primary) ==> attempt(c).Failure?)
  {
    var candidates := Candidates(providers, model, primary);
    var (v, tried) := TryInOrder(candidates, attempt);
    match v
    case Some(x) => Run(Success(x), tried)
    case None =>
      assert forall c :: c in candidates ==> attempt(c).Failure? by {
        forall c | c in candidates
          ensures attempt(c).Failure?
        {
          var k :| 0 <= k < |candidates| && candidates[k] == c;
        }
      }
      Run(Failure(NoModelNamed(model)), tried)
  }

  lemma {:induction false} TryInOrderFirstSuccess<T>(candidates: seq<Creds>, attempt: Creds -> Result<T, string>, i: nat)
    requires i < |candidates|
    requires attempt(candidates[i]).Success?
    requires forall k :: 0 <= k < i ==> attempt(candidates[k]).Failure?
    ensures TryInOrder(candidates, attempt) == (Some(attempt(candidates[i]).value), candidates[..i + 1])
    decreases i
  {
    if i > 0 {
      assert attempt(candidates[0]).Failure?;
      var rest := TryInOrder(candidates[1..], attempt);
      assert TryInOrder(candidates, attempt) == (rest.0, [candidates[0]] + rest.1);
      assert forall k :: 0 <= k < i - 1 ==> candidates[1..][k] == candidates[k + 1];
      TryInOrderFirstSuccess(candidates[1..], attempt, i - 1);
      assert [candidates[0]] + candidates[1..][..i] == candidates[..i + 1];
    } else {
      assert TryInOrder(candidates, attempt) == (Some(attempt(candidates[0]).value), [candidates[0]]);
      assert candidates[..1] == [candidates[0]];
    }
  }

  /** The result is decided by the first candidate that succeeds: every
      earlier candidate was attempted and failed, and none after it was attempted. */
  lemma FirstSuccessDecides<T>(providers: seq<ProviderConfig>, model: string, primary: Creds,
                               attempt: Creds -> Result<T, string>, i: nat)
    requires i < |Candidates(providers, model, primary)|
    requires attempt(Candidates(providers, model, primary)[i]).Success?
    requires forall k :: 0 <= k < i ==> attempt(Candidates(providers, model, primary)[k]).Failure?
    ensures RunWithFallback(providers, model, primary, attempt)
      == Run(Success(attempt(Candidates(providers, model, primary)[i]).value), Candidates(providers, model, primary)[..i + 1])
  {
    TryInOrderFirstSuccess(Candidates(providers, model, primary), attempt, i);
  }

  /** Streaming: opening a stream cannot fail (the generator is only created,
      not started), so the primary credentials are the only ones ever used,
      and errors met while iterating are never retried elsewhere. */
  lemma StreamUsesPrimaryOnly<S>(providers: seq<ProviderConfig>, model: string, primary: Creds, open: Creds -> S)
    ensures RunWithFallback(providers, model, primary, (c: Creds) => Success(open(c)))
      == Run(Success(open(primary)), [primary])
  {
  }

  /** A run fails exactly when every candidate fails. */
  lemma ExhaustedIffAllFail<T>(providers: seq<ProviderConfig>, model: string, primary: Creds, attempt: Creds -> Result<T, string>)
    ensures RunWithFallback(providers, model, primary, attempt).result.Failure?
      <==> forall k :: 0 <= k < |Candidates(providers, model, primary)| ==> attempt(Candidates(providers, model, primary)[k]).Failure?
  {
    var candidates := Candidates(providers, model, primary);
    var r := RunWithFallback(providers, model, primary, attempt);
    if r.result.Success? {
      var last := |r.tried| - 1;
      assert r.tried[last] == candidates[last];
      assert attempt(candidates[last]).Success?;
    }
  }

  // ---------------------------------------------------------------------------
  // The client state and the per-endpoint fallback wrappers
  // ---------------------------------------------------------------------------

  /** The high-level client: its raw client, the primary credentials, and the
      provider registry, fixed at construction. */
  datatype Proxy = Proxy(client: Client, primary: Creds, providers: seq<ProviderConfig>)

  function NewProxy(baseUrl: string, primary: Creds, providers: seq<ProviderConfig>): (p: Proxy)
    ensures p.primary == primary && p.providers == providers
    ensures p.client == NewClient(baseUrl)
    ensures p.client.baseUrl <= baseUrl && (|p.client.baseUrl| == 0 || p.client.baseUrl[|p.client.baseUrl| - 1] != '/')
    ensures forall k :: |p.client.baseUrl| <= k < |baseUrl| ==> baseUrl[k] == '/'
    ensures p.client.timeout == DefaultTimeout
  {
    Proxy(NewClient(baseUrl), primary, providers)
  }

  /** One blocking agent run per credential set. */
  function AgentRunAttempt(p: Proxy, t: Transport, request: AgentRequest): Creds -> Result<AgentResponse, string> {
    (c: Creds) => AgentRun(p.client, t, c, request)
  }

  /** A blocking agent run with fallback over the candidates for the
      request's model, starting from `primary`. */
  function AgentRunWithFallback(p: Proxy, t: Transport, request: AgentRequest, primary: Creds): (r: Run<AgentResponse>)
    ensures |r.tried| >= 1 && r.tried[0] == primary
    ensures |r.tried| <= |Candidates(p.providers, request.model, primary)| && r.tried == Candidates(p.providers, request.model, primary)[..|r.tried|]
    ensures forall k :: 0 <= k < |r.tried| - 1 ==> AgentRun(p.client, t, r.tried[k], request).Failure?
    ensures r.result.Success? ==> AgentRun(p.client, t, r.tried[|r.tried| - 1], request) == Success(r.result.value)
    ensures r.result.Failure? ==> (r.result.error == NoModelNamed(request.model)
      && forall c :: c in Candidates(p.providers, request.model, primary) ==> AgentRun(p.client, t, c, request).Failure?)
  {
    RunWithFallback(p.providers, request.model, primary, AgentRunAttempt(p, t, request))
  }

  /** The first candidate whose agent run succeeds answers, after exactly the
      candidates before it were attempted. */
  lemma AgentRunWithFallbackFirstSuccess(p: Proxy, t: Transport, request: AgentRequest, primary: Creds, i: nat)
    requires i < |Candidates(p.providers, request.model, primary)|
    requires AgentRun(p.client, t, Candidates(p.providers, request.model, primary)[i], request).Success?
    requires forall k :: 0 <= k < i ==> AgentRun(p.client, t, Candidates(p.providers, request.model, primary)[k], request).Failure?
    ensures AgentRunWithFallback(p, t, request, primary)
      == Run(Success(AgentRun(p.client, t, Candidates(p.providers, request.model, primary)[i], request).value),
             Candidates(p.providers, request.model, primary)[..i + 1])
  {
    FirstSuccessDecides(p.providers, request.model, primary, AgentRunAttempt(p, t, request), i);
  }

  /** A streamed agent run "with fallback": the stream of the primary
      credentials, whatever happens while it is consumed. */
  function AgentRunStreamWithFallback(p: Proxy, t: Transport, request: AgentRequest, primary: Creds): (s: Stream<AgentResponse>)
    ensures s == AgentRunStream(p.client, t, primary, request)
  {
    var open := (c: Creds) => AgentRunStream(p.client, t, c, request);
    StreamUsesPrimaryOnly(p.providers, request.model, primary, open);
    RunWithFallback(p.providers, request.model, primary, (c: Creds) => Success(open(c))).result.value
  }

  /** One blocking speech synthesis per credential set. */
  function AudioSpeakAttempt(p: Proxy, t: Transport, request: SpeakRequest): Creds -> Result<seq<Base64.byte>, string> {
    (c: Creds) => AudioSpeak(p.client, t, c, request)
  }

  /** Speech synthesis with fallback over the candidates for the request's model. */
  function AudioSpeakWithFallback(p: Proxy, t: Transport, request: SpeakRequest, primary: Creds): (r: Run<seq<Base64.byte>>)
    ensures |r.tried| >= 1 && r.tried[0] == primary
    ensures |r.tried| <= |Candidates(p.providers, request.model, primary)| && r.tried == Candidates(p.providers, request.model, primary)[..|r.tried|]
    ensures forall k :: 0 <= k < |r.tried| - 1 ==> AudioSpeak(p.client, t, r.tried[k], request).Failure?
    ensures r.result.Success? ==> AudioSpeak(p.client, t, r.tried[|r.tried| - 1], request) == Success(r.result.value)
    ensures r.result.Failure? ==> (r.result.error == NoModelNamed(request.model)
      && forall c :: c in Candidates(p.providers, request.model, primary) ==> AudioSpeak(p.client, t, c, request).Failure?)
  {
    RunWithFallback(p.providers, request.model, primary, AudioSpeakAttempt(p, t, request))
  }

  /** The first candidate whose synthesis succeeds supplies the audio. */
  lemma AudioSpeakWithFallbackFirstSuccess(p: Proxy, t: Transport, request: SpeakRequest, primary: Creds, i: nat)
    requires i < |Candidates(p.providers, request.model, primary)|
    requires AudioSpeak(p.client, t, Candidates(p.providers, request.model, primary)[i], request).Success?
    requires forall k :: 0 <= k < i ==> AudioSpeak(p.client, t, Candidates(p.providers, request.model, primary)[k], request).Failure?
    ensures AudioSpeakWithFallback(p, t, request, primary)
      == Run(Success(AudioSpeak(p.client, t, Candidates(p.providers, request.model, primary)[i], request).value),
             Candidates(p.providers, request.model, primary)[..i + 1])
  {
    FirstSuccessDecides(p.providers, request.model, primary, AudioSpeakAttempt(p, t, request), i);
  }

  function AudioSpeakStreamWithFallback(p: Proxy, t: Transport, request: SpeakRequest, primary: Creds): (s: Stream<seq<Base64.byte>>)
    ensures s == AudioSpeakStream(p.client, t, primary, request)
  {
    var open := (c: Creds) => AudioSpeakStream(p.client, t, c, request);
    StreamUsesPrimaryOnly(p.providers, request.model, primary, open);
    RunWithFallback(p.providers, request.model, primary, (c: Creds) => Success(open(c))).result.value
  }

  /** One transcription upload per credential set. */
  function AudioTranscribeAttempt(p: Proxy, t: Transport, model: string, file: FileUpload,
                                  language: Option<string>, genConfig: Option<GenConfig>): Creds -> Result<TranscribeResponse, string> {
    (c: Creds) => AudioTranscribe(p.client, t, c, model, file, language, genConfig)
  }

  /** Transcription with fallback over the candidates for `model`. */
  function AudioTranscribeWithFallback(p: Proxy, t: Transport, model: string, file: FileUpload, primary: Creds,
                                  language: Option<string>, genConfig: Option<GenConfig>): (r: Run<TranscribeResponse>)
    ensures |r.tried| >= 1 && r.tried[0] == primary
    ensures |r.tried| <= |Candidates(p.providers, model, primary)| && r.tried == Candidates(p.providers, model, primary)[..|r.tried|]
    ensures forall k :: 0 <= k < |r.tried| - 1 ==> AudioTranscribe(p.client, t, r.tried[k], model, file, language, genConfig).Failure?
    ensures r.result.Success? ==> AudioTranscribe(p.client, t, r.tried[|r.tried| - 1], model, file, language, genConfig) == Success(r.result.value)
    ensures r.result.Failure? ==> (r.result.error == NoModelNamed(model)
      && forall c :: c in Candidates(p.providers, model, primary) ==> AudioTranscribe(p.client, t, c, model, file, language, genConfig).Failure?)
  {
    RunWithFallback(p.providers, model, primary, AudioTranscribeAttempt(p, t, model, file, language, genConfig))
  }

  /** The first candidate whose upload succeeds supplies the transcription. */
  lemma AudioTranscribeWithFallbackFirstSuccess(p: Proxy, t: Transport, model: string, file: FileUpload, primary: Creds,
                                                language: Option<string>, genConfig: Option<GenConfig>, i: nat)
    requires i < |Candidates(p.providers, model, primary)|
    requires AudioTranscribe(p.client, t, Candidates(p.providers, model, primary)[i], model, file, language, genConfig).Success?
    requires forall k :: 0 <= k < i ==> AudioTranscribe(p.client, t, Candidates(p.providers, model, primary)[k], model, file, language, genConfig).Failure?
    ensures AudioTranscribeWithFallback(p, t, model, file, primary, language, genConfig)
      == Run(Success(AudioTranscribe(p.client, t, Candidates(p.providers, model, primary)[i], model, file, language, genConfig).value),
             Candidates(p.providers, model, primary)[..i + 1])
  {
    FirstSuccessDecides(p.providers, model, primary, AudioTranscribeAttempt(p, t, model, file, language, genConfig), i);
  }
}
