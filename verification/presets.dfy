/** Ready-made provider configurations for the four supported vendors. */
module Presets {
  import opened Wrappers
  import opened Provider

  /** The Gemini capability list: every agent capability, and nothing else. */
  const GeminiCapabilities: seq<Capability> := [ImageAgent, VideoAgent, AudioAgent]

  /** The names of the models that declare `c`, in list order. */
  function NamesWith(models: seq<Model>, c: Capability): (r: seq<string>)
    ensures |r| <= |models|
  {
    if |models| == 0 then []
    else
      var rest := NamesWith(models[1..], c);
      if models[0].Has(c) then [models[0].name] + rest else rest
  }

  /** Names are collected list by list. */
  lemma {:induction false} NamesWithAppend(a: seq<Model>, b: seq<Model>, c: Capability)
    ensures NamesWith(a + b, c) == NamesWith(a, c) + NamesWith(b, c)
    decreases |a|
  {
    if |a| == 0 {
      assert a + b == b;
    } else {
      assert (a + b)[1..] == a[1..] + b;
      NamesWithAppend(a[1..], b, c);
    }
  }

  /** OpenAI's text-only chat models. */
  const OpenAIChatModels: seq<Model> := [Model("gpt-5-mini", []), Model("gpt-5-nano", []), Model("gpt-5", [])]

  /** OpenAI's models that also read images. */
  const OpenAIVisionModels: seq<Model> := [Model("gpt-4o", [ImageAgent]), Model("gpt-4o-mini", [ImageAgent])]

  /** OpenAI's two speech models and its transcription model. */
  const OpenAIAudioModels: seq<Model> := [Model("tts-1", [Speak]), Model("tts-1-hd", [Speak]), Model("whisper-1", [Transcribe])]

  /** OpenAI: three text-only chat models, two image agents, two speech
      models and one transcription model, in that order. */
  function OpenAIConfig(apiKey: string, baseUrl: Option<string> := None): (r: ProviderConfig)
    ensures r.creds == Creds(apiKey, "openai", baseUrl)
    ensures |r.models| == 8
  {
    ProviderConfig(Creds(apiKey, "openai", baseUrl), OpenAIChatModels + OpenAIVisionModels + OpenAIAudioModels)
  }

  /** The OpenAI models declaring `c`: the two image agents, the two speech
      models, the transcription model, and none for video or audio input. */
  lemma OpenAICapabilities(apiKey: string, baseUrl: Option<string>, c: Capability)
    ensures NamesWith(OpenAIConfig(apiKey, baseUrl).models, c)
      == match c
         case ImageAgent => ["gpt-4o", "gpt-4o-mini"]
         case VideoAgent => []
         case AudioAgent => []
         case Speak => ["tts-1", "tts-1-hd"]
         case Transcribe => ["whisper-1"]
  {
    NamesWithAppend(OpenAIChatModels + OpenAIVisionModels, OpenAIAudioModels, c);
    NamesWithAppend(OpenAIChatModels, OpenAIVisionModels, c);
    OpenAIGroupNames(c);
  }

  lemma OpenAIGroupNames(c: Capability)
    ensures NamesWith(OpenAIChatModels, c) == []
    ensures NamesWith(OpenAIVisionModels, c) == if c == ImageAgent then ["gpt-4o", "gpt-4o-mini"] else []
    ensures NamesWith(OpenAIAudioModels, c)
      == if c == Speak then ["tts-1", "tts-1-hd"] else if c == Transcribe then ["whisper-1"] else []
  {
    OpenAIAudioNames(c);
  }

  lemma OpenAIAudioNames(c: Capability)
    ensures NamesWith(OpenAIAudioModels, c)
      == if c == Speak then ["tts-1", "tts-1-hd"] else if c == Transcribe then ["whisper-1"] else []
  {
  }

  /** Google: three Gemini models, each able to consume images, video and audio. */
  function GoogleConfig(apiKey: string, baseUrl: Option<string> := None): (r: ProviderConfig)
    ensures r.creds == Creds(apiKey, "google", baseUrl)
    ensures |r.models| == 3
  {
    ProviderConfig(
      Creds(apiKey, "google", baseUrl),
      [ Model("gemini-2.5-flash-lite", GeminiCapabilities),
        Model("gemini-2.5-flash", GeminiCapabilities),
        Model("gemini-2.5-pro", GeminiCapabilities) ])
  }

  /** Every Gemini model consumes images, video and audio, and none speaks or transcribes. */
  lemma GoogleCapabilities(apiKey: string, baseUrl: Option<string>, c: Capability)
    ensures NamesWith(GoogleConfig(apiKey, baseUrl).models, c)
      == if c.IsAgent() then ["gemini-2.5-flash-lite", "gemini-2.5-flash", "gemini-2.5-pro"] else []
  {
    var ms := GoogleConfig(apiKey, baseUrl).models;
    assert ms[1..][1..][1..] == [];
    assert NamesWith(ms[1..][1..], c) == (if c.IsAgent() then ["gemini-2.5-pro"] else []);
    assert NamesWith(ms[1..], c) == (if c.IsAgent() then ["gemini-2.5-flash", "gemini-2.5-pro"] else []);
  }

  /** ElevenLabs: four speech models and one transcription model. */
  function ElevenLabsConfig(apiKey: string, baseUrl: Option<string> := None): (r: ProviderConfig)
    ensures r.creds == Creds(apiKey, "elevenlabs", baseUrl)
    ensures |r.models| == 5
  {
    ProviderConfig(
      Creds(apiKey, "elevenlabs", baseUrl),
      [ Model("elevenlabs_multilingual_v2", [Speak]),
        Model("eleven_flash_v2_5", [Speak]),
        Model("eleven_flash_v2", [Speak]),
        Model("eleven_v3", [Speak]),
        Model("scribe_v1", [Transcribe]) ])
  }

  /** ElevenLabs models only speak or transcribe; none is an agent. */
  lemma ElevenLabsCapabilities(apiKey: string, baseUrl: Option<string>, c: Capability)
    ensures c.IsAgent() ==> NamesWith(ElevenLabsConfig(apiKey, baseUrl).models, c) == []
    ensures NamesWith(ElevenLabsConfig(apiKey, baseUrl).models, Speak)
      == ["elevenlabs_multilingual_v2", "eleven_flash_v2_5", "eleven_flash_v2", "eleven_v3"]
    ensures NamesWith(ElevenLabsConfig(apiKey, baseUrl).models, Transcribe) == ["scribe_v1"]
  {
  }

  /** Anthropic: four Claude models. */
  function AnthropicConfig(apiKey: string, baseUrl: Option<string> := None): (r: ProviderConfig)
    ensures r.creds == Creds(apiKey, "anthropic", baseUrl)
    ensures |r.models| == 4
  {
    ProviderConfig(
      Creds(apiKey, "anthropic", baseUrl),
      [ Model("claude-sonnet-3.5", []),
        Model("claude-sonnet-4.0", []),
        Model("claude-sonnet-4.5", []),
        Model("claude-haiku-4.5", []) ])
  }

  /** No Claude model declares any capability, so binary input for them is
      always transformed elsewhere. */
  lemma AnthropicCapabilities(apiKey: string, baseUrl: Option<string>, c: Capability)
    ensures NamesWith(AnthropicConfig(apiKey, baseUrl).models, c) == []
  {
  }

  /** The model names of a list, in list order. */
  function Names(models: seq<Model>): seq<string> {
    seq(|models|, k requires 0 <= k < |models| => models[k].name)
  }

  /** Every factory lists its models under these names, in this order. */
  lemma PresetModelNames(apiKey: string, baseUrl: Option<string>)
    ensures Names(OpenAIConfig(apiKey, baseUrl).models)
      == ["gpt-5-mini", "gpt-5-nano", "gpt-5", "gpt-4o", "gpt-4o-mini", "tts-1", "tts-1-hd", "whisper-1"]
    ensures Names(GoogleConfig(apiKey, baseUrl).models) == ["gemini-2.5-flash-lite", "gemini-2.5-flash", "gemini-2.5-pro"]
    ensures Names(ElevenLabsConfig(apiKey, baseUrl).models)
      == ["elevenlabs_multilingual_v2", "eleven_flash_v2_5", "eleven_flash_v2", "eleven_v3", "scribe_v1"]
    ensures Names(AnthropicConfig(apiKey, baseUrl).models)
      == ["claude-sonnet-3.5", "claude-sonnet-4.0", "claude-sonnet-4.5", "claude-haiku-4.5"]
  {
  }

  /** No two models of a list share a name. */
  predicate DistinctNames(models: seq<Model>) {
    forall i, j :: 0 <= i < j < |models| ==> models[i].name != models[j].name
  }

  /** Within each preset, model names are pairwise distinct, so a model name
      selects at most one entry of a preset. */
  lemma PresetNamesDistinct(apiKey: string, baseUrl: Option<string>)
    ensures DistinctNames(OpenAIConfig(apiKey, baseUrl).models)
    ensures DistinctNames(GoogleConfig(apiKey, baseUrl).models)
    ensures DistinctNames(ElevenLabsConfig(apiKey, baseUrl).models)
    ensures DistinctNames(AnthropicConfig(apiKey, baseUrl).models)
  {
  }
}
