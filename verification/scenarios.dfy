/** Concrete situations the client is meant to handle, stated over the preset
    registry and small hand-built registries. */
module Scenarios {
  import opened Wrappers
  import opened Strings
  import opened Provider
  import opened Message
  import opened Presets
  import opened Fallback
  import opened Preprocess
  import RawClient

  /** A registry of OpenAI, Google and Anthropic, in that order. */
  function Registry(openaiKey: string, googleKey: string, anthropicKey: string): (ps: seq<ProviderConfig>)
    ensures |ps| == 3 && ps[0].creds.provider == "openai" && ps[1].creds.provider == "google"
  {
    [OpenAIConfig(openaiKey), GoogleConfig(googleKey), AnthropicConfig(anthropicKey)]
  }

  /** The offers of one provider, in model order. */
  function Block(pc: ProviderConfig): (b: seq<Offer>)
    ensures |b| == |pc.models|
  {
    seq(|pc.models|, j requires 0 <= j < |pc.models| => Offer(pc.models[j], pc.creds))
  }

  /** The offers of three providers are their blocks, one after the other. */
  lemma {:induction false} OffersOfThree(a: ProviderConfig, b: ProviderConfig, c: ProviderConfig)
    ensures Offers([a, b, c]) == Block(a) + Block(b) + Block(c)
  {
    var ps := [a, b, c];
    assert ps[1..] == [b, c] && ps[1..][1..] == [c] && ps[1..][1..][1..] == [];
    assert Offers([c]) == Block(c) + Offers([]);
    assert Offers([b, c]) == Block(b) + Offers([c]);
    assert Offers(ps) == Block(a) + Offers([b, c]);
  }

  /** When the target lacks `cap`, the transformer is the first capable model
      of the leading blocks: an earlier offer never has the capability. */
  lemma {:induction false} TransformerIsFirstCapable(p: Proxy, target: Model, cap: Capability, head: seq<Offer>, i: nat)
    requires !target.Has(cap)
    requires head <= Offers(p.providers)
    requires i < |head| && head[i].model.Has(cap)
    requires forall j :: 0 <= j < i ==> !head[j].model.Has(cap)
    ensures SelectTransformer(p, target, cap) == Success(head[i])
  {
    var offers := Offers(p.providers);
    assert offers[i] == head[i];
    var r := SelectTransformer(p, target, cap);
    var k :| 0 <= k < |offers| && offers[k] == r.value && r.value.model.Has(cap)
      && forall j :: 0 <= j < k ==> !offers[j].model.Has(cap);
    assert k == i;
  }

  /** An image for a Claude model that declares nothing is described by
      gpt-4o, with the OpenAI credentials: it is the first image agent listed. */
  lemma ImageForClaudeUsesGpt4o(p: Proxy, k1: string, k2: string, k3: string)
    requires p.providers == Registry(k1, k2, k3)
    ensures SelectTransformer(p, TargetModel("claude-sonnet-4.5", None), ImageAgent)
      == Success(Offer(Model("gpt-4o", [ImageAgent]), Creds(k1, "openai", None)))
  {
    var o := OpenAIConfig(k1);
    OffersOfThree(o, GoogleConfig(k2), AnthropicConfig(k3));
    assert Block(o) <= Offers(p.providers);
    TransformerIsFirstCapable(p, TargetModel("claude-sonnet-4.5", None), ImageAgent, Block(o), 3);
  }

  /** Video and audio for the same model go to gemini-2.5-flash-lite, with
      the Google credentials: no OpenAI model consumes either. */
  lemma VideoAndAudioForClaudeUseGeminiFlashLite(p: Proxy, k1: string, k2: string, k3: string, cap: Capability)
    requires p.providers == Registry(k1, k2, k3)
    requires cap == VideoAgent || cap == AudioAgent
    ensures SelectTransformer(p, TargetModel("claude-sonnet-4.5", None), cap)
      == Success(Offer(Model("gemini-2.5-flash-lite", GeminiCapabilities), Creds(k2, "google", None)))
  {
    var o, g := OpenAIConfig(k1), GoogleConfig(k2);
    var head := Block(o) + Block(g);
    RegistryHead(k1, k2, k3);
    HeadLacksVideoAndAudio(k1, k2, cap);
    HeadNinthIsGeminiFlashLite(k1, k2);
    TransformerIsFirstCapable(p, TargetModel("claude-sonnet-4.5", None), cap, head, 8);
  }

  /** The OpenAI and Google blocks open the registry's offers. */
  lemma RegistryHead(k1: string, k2: string, k3: string)
    ensures Block(OpenAIConfig(k1)) + Block(GoogleConfig(k2)) <= Offers(Registry(k1, k2, k3))
  {
    var head := Block(OpenAIConfig(k1)) + Block(GoogleConfig(k2));
    OffersOfThree(OpenAIConfig(k1), GoogleConfig(k2), AnthropicConfig(k3));
    assert Offers(Registry(k1, k2, k3)) == head + Block(AnthropicConfig(k3));
  }

  /** No OpenAI model consumes video or audio. */
  lemma HeadLacksVideoAndAudio(k1: string, k2: string, cap: Capability)
    requires cap == VideoAgent || cap == AudioAgent
    ensures forall j :: 0 <= j < 8 ==> !(Block(OpenAIConfig(k1)) + Block(GoogleConfig(k2)))[j].model.Has(cap)
  {
    var o := OpenAIConfig(k1);
    var head := Block(o) + Block(GoogleConfig(k2));
    assert forall j :: 0 <= j < 8 ==> head[j] == Block(o)[j];
  }

  /** The offer after the OpenAI block is gemini-2.5-flash-lite with the Google credentials. */
  lemma HeadNinthIsGeminiFlashLite(k1: string, k2: string)
    ensures (Block(OpenAIConfig(k1)) + Block(GoogleConfig(k2)))[8] == Offer(Model("gemini-2.5-flash-lite", GeminiCapabilities), Creds(k2, "google", None))
  {
    assert (Block(OpenAIConfig(k1)) + Block(GoogleConfig(k2)))[8] == Block(GoogleConfig(k2))[0];
  }

  /** The candidate list keeps duplicates: with the OpenAI credentials as
      primary, gpt-4o is tried twice with the same credentials. */
  lemma {:induction false} Gpt4oCandidatesRepeatPrimary(k1: string, k2: string, k3: string)
    ensures Candidates(Registry(k1, k2, k3), "gpt-4o", Creds(k1, "openai", None))
      == [Creds(k1, "openai", None), Creds(k1, "openai", None)]
  {
    var o, g, a := OpenAIConfig(k1), GoogleConfig(k2), AnthropicConfig(k3);
    Gpt4oListedOnce(k1, k2, k3);
    MatchesInOnly(o.models, "gpt-4o", o.creds, 3);
    MatchesInNone(g.models, "gpt-4o", g.creds);
    MatchesInNone(a.models, "gpt-4o", a.creds);
    MatchingCredsOfThree(o, g, a, "gpt-4o");
  }

  /** gpt-4o is the fourth OpenAI model, and no other preset model of these
      three providers has that name. */
  lemma Gpt4oListedOnce(k1: string, k2: string, k3: string)
    ensures OpenAIConfig(k1).models[3].name == "gpt-4o"
    ensures forall j :: 0 <= j < 8 && j != 3 ==> OpenAIConfig(k1).models[j].name != "gpt-4o"
    ensures forall j :: 0 <= j < 3 ==> GoogleConfig(k2).models[j].name != "gpt-4o"
    ensures forall j :: 0 <= j < 4 ==> AnthropicConfig(k3).models[j].name != "gpt-4o"
  {
    // Every other name differs from "gpt-4o" in length, which settles the
    // comparison without inspecting characters.
    assert forall j :: 0 <= j < 8 && j != 3 ==> |OpenAIConfig(k1).models[j].name| != 6;
    assert forall j :: 0 <= j < 3 ==> |GoogleConfig(k2).models[j].name| != 6;
    assert forall j :: 0 <= j < 4 ==> |AnthropicConfig(k3).models[j].name| != 6;
  }

  /** The matching credentials of three providers, provider by provider. */
  lemma {:induction false} MatchingCredsOfThree(a: ProviderConfig, b: ProviderConfig, c: ProviderConfig, model: string)
    ensures MatchingCreds([a, b, c], model)
      == MatchesIn(a.models, model, a.creds) + MatchesIn(b.models, model, b.creds) + MatchesIn(c.models, model, c.creds)
  {
    var ps := [a, b, c];
    assert ps[1..] == [b, c] && ps[1..][1..] == [c] && ps[1..][1..][1..] == [];
    assert MatchingCreds([c], model) == MatchesIn(c.models, model, c.creds) + MatchingCreds([], model);
    assert MatchingCreds([b, c], model) == MatchesIn(b.models, model, b.creds) + MatchingCreds([c], model);
    assert MatchingCreds(ps, model) == MatchesIn(a.models, model, a.creds) + MatchingCreds([b, c], model);
  }

  /** Three providers that each list model `model`. */
  function ThreeProviders(c1: Creds, c2: Creds, c3: Creds, model: string): seq<ProviderConfig> {
    [ProviderConfig(c1, [Model(model, [])]), ProviderConfig(c2, [Model(model, [])]), ProviderConfig(c3, [Model(model, [])])]
  }

  lemma {:induction false} ThreeProvidersCandidates(c1: Creds, c2: Creds, c3: Creds, model: string, primary: Creds)
    ensures Candidates(ThreeProviders(c1, c2, c3, model), model, primary) == [primary, c1, c2, c3]
  {
    var ps := ThreeProviders(c1, c2, c3, model);
    MatchingCredsOfThree(ps[0], ps[1], ps[2], model);
    MatchesInOnly([Model(model, [])], model, c1, 0);
    MatchesInOnly([Model(model, [])], model, c2, 0);
    MatchesInOnly([Model(model, [])], model, c3, 0);
  }

  /** Fallback order: the primary, then P1, P2 and P3 in registration order;
      when all but P3 fail, P3's answer is returned and nothing is retried. */
  lemma FallbackVisitsInOrder<T>(c1: Creds, c2: Creds, c3: Creds, model: string, primary: Creds, attempt: Creds -> Result<T, string>)
    requires attempt(primary).Failure? && attempt(c1).Failure? && attempt(c2).Failure?
    requires attempt(c3).Success?
    ensures RunWithFallback(ThreeProviders(c1, c2, c3, model), model, primary, attempt)
      == Run(Success(attempt(c3).value), [primary, c1, c2, c3])
  {
    ThreeProvidersCandidates(c1, c2, c3, model, primary);
    FirstSuccessDecides(ThreeProviders(c1, c2, c3, model), model, primary, attempt, 3);
  }

  /** Exhaustion: when every attempt fails, all four are tried once, in order,
      and the single error names the model. */
  lemma FallbackExhausted<T>(c1: Creds, c2: Creds, c3: Creds, model: string, primary: Creds, attempt: Creds -> Result<T, string>)
    requires attempt(primary).Failure? && attempt(c1).Failure? && attempt(c2).Failure? && attempt(c3).Failure?
    ensures RunWithFallback(ThreeProviders(c1, c2, c3, model), model, primary, attempt)
      == Run(Failure(NoModelNamed(model)), [primary, c1, c2, c3])
  {
    var ps := ThreeProviders(c1, c2, c3, model);
    ThreeProvidersCandidates(c1, c2, c3, model, primary);
    ExhaustedIffAllFail(ps, model, primary, attempt);
  }

  /** A PNG is classified as an image. */
  lemma PngIsImage()
    ensures Classify("image/png") == Success(ImageAgent)
  {
    assert OccursAt("image/png", "image", 0);
  }

  /** An image followed by a text message requires exactly the image capability. */
  lemma ImageThenTextRequiresImageAgent(image: Msg, text: Msg)
    requires image.Binary? && image.mimeType == "image/png" && text.Text?
    ensures RequiredCapabilities([image, text]) == Success([ImageAgent])
  {
    var messages := [image, text];
    PngIsImage();
    RequiredCapabilitiesSucceedsIff(messages);
    assert !Unsupported(messages[0]) && !Unsupported(messages[1]);
    assert Binaries(messages) == [image];
    var r := RequiredCapabilities(messages);
    assert |r.value| == 1 && r.value[0] == ImageAgent;
    assert r.value == [ImageAgent];
  }

  /** Capability gating: a model that declares nothing gets the image turned
      into text, and the text message passes through unchanged. */
  lemma CapabilityGating(p: Proxy, t: RawClient.Transport, image: Msg, text: Msg)
    requires image.Binary? && image.mimeType == "image/png" && text.Text?
    ensures var r := PreprocessMessages(p, t, [image, text], "claude-sonnet-4.5");
      r.Success? ==> (|r.value| == 2 && r.value[0].Text? && r.value[0].role == image.role && r.value[1] == text)
  {
    UndeclaredImageIsTransformed(p, t, image, text, "claude-sonnet-4.5");
    var r := BinariesToText(p, t, [image, text], TargetModel("claude-sonnet-4.5", None));
    if r.Success? {
      assert [image, text][0] == image && [image, text][1] == text;
    }
  }

  /** ... and when that transformation fails, the error names gpt-4o, the
      registry's first image agent. */
  lemma CapabilityGatingFailure(p: Proxy, t: RawClient.Transport, k1: string, k2: string, k3: string, image: Msg, text: Msg)
    requires p.providers == Registry(k1, k2, k3)
    requires image.Binary? && image.mimeType == "image/png" && text.Text?
    ensures var r := PreprocessMessages(p, t, [image, text], "claude-sonnet-4.5");
      r.Failure? ==> r.error == NoModelNamed("gpt-4o")
  {
    var target := TargetModel("claude-sonnet-4.5", None);
    UndeclaredImageIsTransformed(p, t, image, text, "claude-sonnet-4.5");
    if BinariesToText(p, t, [image, text], target).Failure? {
      FirstOfTwoFails(p, t, image, text, target);
      ImageForClaudeUsesGpt4o(p, k1, k2, k3);
      PngIsImage();
    }
  }

  /** A model that declares nothing needs the image transformed. */
  lemma UndeclaredImageIsTransformed(p: Proxy, t: RawClient.Transport, image: Msg, text: Msg, model: string)
    requires image.Binary? && image.mimeType == "image/png" && text.Text?
    ensures PreprocessMessages(p, t, [image, text], model) == BinariesToText(p, t, [image, text], TargetModel(model, None))
  {
    ImageThenTextRequiresImageAgent(image, text);
    assert ImageAgent in [ImageAgent] && !TargetModel(model, None).Has(ImageAgent);
    assert !Supports(TargetModel(model, None), [ImageAgent]);
  }

  /** With a text message second, only the first message can make the
      transformation fail, and its error is the one raised. */
  lemma FirstOfTwoFails(p: Proxy, t: RawClient.Transport, image: Msg, text: Msg, target: Model)
    requires image.Binary? && text.Text?
    requires BinariesToText(p, t, [image, text], target).Failure?
    ensures BinaryToText(p, t, image, target).Failure?
    ensures BinariesToText(p, t, [image, text], target).error == BinaryToText(p, t, image, target).error
  {
    var messages := [image, text];
    var k :| 0 <= k < |messages| && TransformFails(p, t, messages[k], target);
    assert k == 0;
    BinariesToTextRaisesFirst(p, t, messages, target, 0);
  }

  /** Forced transformation: a model that already consumes images still gets
      the image turned into text, and by itself with the primary credentials. */
  lemma ForcedTransform(p: Proxy, t: RawClient.Transport, model: string, image: Msg)
    requires image.Binary? && image.mimeType == "image/png"
    ensures SelectTransformer(p, TargetModel(model, Some([ImageAgent])), ImageAgent)
      == Success(Offer(Model(model, [ImageAgent]), p.primary))
    ensures var r := PreprocessMessages(p, t, [image], model, true, Some([ImageAgent]));
      && (r.Success? ==> |r.value| == 1 && r.value[0].Text?)
      && (r.Failure? ==> r.error == NoModelNamed(model))
  {
    var target := TargetModel(model, Some([ImageAgent]));
    PngIsImage();
    if BinariesToText(p, t, [image], target).Failure? {
      BinariesToTextRaisesFirst(p, t, [image], target, 0);
    }
  }
}
