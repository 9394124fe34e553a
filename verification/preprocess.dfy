/** Capability-aware preprocessing: binary messages a target model cannot
    consume are replaced, in place, by text produced by a transformer model. */
module Preprocess {
  import opened Wrappers
  import opened Strings
  import opened Provider
  import opened Message
  import opened Schema
  import opened RawClient
  import opened Fallback

  /** The system instructions of the three transformer sub-agents, abbreviated. */
  const AudioPrompt: string := "Act as ASR: transcribe the audio; return only <audio_transcription>...</audio_transcription>."
  const ImagePrompt: string := "Act as OCR: describe the image in detail; return only <image_description>...</image_description>."
  const VideoPrompt: string := "Act as VSR: describe the video in detail; return only <video_description>...</video_description>."

  const Temperature: string := "temperature"

  function PromptFor(c: Capability): string
    requires c.IsAgent()
  {
    match c
    case ImageAgent => ImagePrompt
    case VideoAgent => VideoPrompt
    case AudioAgent => AudioPrompt
  }

  /** Maps a MIME type to the capability needed to consume it, by substring
      test with precedence image, then video, then audio. */
  function Classify(mimeType: string): (r: Result<Capability, Error>)
    ensures r.Failure? ==> r.error == UnsupportedMimeType(mimeType)
    ensures r.Success? ==> r.value.IsAgent()
  {
    if Contains(mimeType, "image") then Success(ImageAgent)
    else if Contains(mimeType, "video") then Success(VideoAgent)
    else if Contains(mimeType, "audio") then Success(AudioAgent)
    else Failure(UnsupportedMimeType(mimeType))
  }

  /** The classification in terms of substring occurrence: "image" wins over
      "video", which wins over "audio"; a MIME type with none is unsupported. */
  lemma ClassifyByPrecedence(mimeType: string)
    ensures Classify(mimeType) == Success(ImageAgent) <==> Occurs(mimeType, "image")
    ensures Classify(mimeType) == Success(VideoAgent) <==> !Occurs(mimeType, "image") && Occurs(mimeType, "video")
    ensures Classify(mimeType) == Success(AudioAgent)
      <==> !Occurs(mimeType, "image") && !Occurs(mimeType, "video") && Occurs(mimeType, "audio")
    ensures Classify(mimeType).Failure?
      <==> !Occurs(mimeType, "image") && !Occurs(mimeType, "video") && !Occurs(mimeType, "audio")
  {
  }

  /** A binary message whose MIME type maps to no capability. */
  predicate Unsupported(m: Msg) {
    m.Binary? && Classify(m.mimeType).Failure?
  }

  /** The binary messages of a list, in order. */
  function Binaries(messages: seq<Msg>): (r: seq<Msg>)
    ensures |r| <= |messages|
    ensures forall k :: 0 <= k < |r| ==> r[k].Binary?
    ensures forall m :: m in r <==> m in messages && m.Binary?
    decreases |messages|
  {
    if |messages| == 0 then []
    else
      var r := (if messages[0].Binary? then [messages[0]] else []) + Binaries(messages[1..]);
      assert forall m :: m in messages <==> m == messages[0] || m in messages[1..];
      r
  }

  /** The binary messages are picked list by list, so their order is the
      order of the messages. */
  lemma {:induction false} BinariesAppend(a: seq<Msg>, b: seq<Msg>)
    ensures Binaries(a + b) == Binaries(a) + Binaries(b)
    decreases |a|
  {
    if |a| == 0 {
      assert a + b == b;
    } else {
      assert (a + b)[1..] == a[1..] + b;
      BinariesAppend(a[1..], b);
    }
  }

  predicate AllText(messages: seq<Msg>) {
    forall k :: 0 <= k < |messages| ==> messages[k].Text?
  }

  /** One required capability per binary message, in message order. Text
      messages contribute nothing; an unsupported MIME type is raised. */
  function RequiredCapabilities(messages: seq<Msg>): (r: Result<seq<Capability>, Error>)
    ensures r.Success? ==> (|r.value| == |Binaries(messages)|
      && forall k :: 0 <= k < |r.value| ==> Classify(Binaries(messages)[k].mimeType) == Success(r.value[k]))
    ensures r.Failure? ==> r.error.UnsupportedMimeType?
    decreases |messages|
  {
    if |messages| == 0 then Success([])
    else
      var m := messages[0];
      var rest := RequiredCapabilities(messages[1..]);
      if m.Text? then
        assert Binaries(messages) == Binaries(messages[1..]);
        rest
      else if Classify(m.mimeType).Failure? then
        Failure(Classify(m.mimeType).error)
      else if rest.Failure? then
        rest
      else
        var r := [Classify(m.mimeType).value] + rest.value;
        var bins := Binaries(messages);
        assert bins == [m] + Binaries(messages[1..]);
        assert bins[1..] == Binaries(messages[1..]);
        ShiftIndices(bins, r, rest.value);
        Success(r)
  }

  /** Classification succeeds exactly when no binary message has an
      unsupported MIME type. */
  lemma {:induction false} RequiredCapabilitiesSucceedsIff(messages: seq<Msg>)
    ensures RequiredCapabilities(messages).Success? <==> forall k :: 0 <= k < |messages| ==> !Unsupported(messages[k])
    decreases |messages|
  {
    if |messages| > 0 {
      assert forall k :: 1 <= k < |messages| ==> messages[k] == messages[1..][k - 1];
      RequiredCapabilitiesSucceedsIff(messages[1..]);
    }
  }

  /** The error raised is the one of the first binary message with an
      unsupported MIME type. */
  lemma {:induction false} RequiredCapabilitiesRaisesFirst(messages: seq<Msg>, k: nat)
    requires k < |messages| && Unsupported(messages[k])
    requires forall j :: 0 <= j < k ==> !Unsupported(messages[j])
    ensures RequiredCapabilities(messages) == Failure(UnsupportedMimeType(messages[k].mimeType))
    decreases k
  {
    if k > 0 {
      assert !Unsupported(messages[0]);
      assert forall j :: 0 <= j < k - 1 ==> messages[1..][j] == messages[j + 1];
      RequiredCapabilitiesRaisesFirst(messages[1..], k - 1);
    }
  }

  // ---------------------------------------------------------------------------
  // Choosing the transformer
  // ---------------------------------------------------------------------------

  /** The index of the first offer whose model has `cap`. */
  function FirstOfferWith(offers: seq<Offer>, cap: Capability): (r: Option<nat>)
    ensures r.Some? ==> (r.value < |offers| && offers[r.value].model.Has(cap)
      && forall j :: 0 <= j < r.value ==> !offers[j].model.Has(cap))
    ensures r.None? <==> forall j :: 0 <= j < |offers| ==> !offers[j].model.Has(cap)
    decreases |offers|
  {
    if |offers| == 0 then None
    else if offers[0].model.Has(cap) then Some(0)
    else
      match FirstOfferWith(offers[1..], cap)
      case None => None
      case Some(i) => Some(i + 1)
  }

  /** The first model, in provider order then model order, that has `cap`,
      with its provider's credentials. */
  function FindModelWithCapability(providers: seq<ProviderConfig>, cap: Capability): (r: Result<Offer, Error>)
    ensures r.Success? ==> exists i :: (0 <= i < |Offers(providers)| && Offers(providers)[i] == r.value
      && r.value.model.Has(cap)
      && forall j :: 0 <= j < i ==> !Offers(providers)[j].model.Has(cap))
    ensures r.Failure? <==> forall j :: 0 <= j < |Offers(providers)| ==> !Offers(providers)[j].model.Has(cap)
    ensures r.Failure? ==> r.error == NoModelWithCapability(cap)
  {
    var offers := Offers(providers);
    match FirstOfferWith(offers, cap)
    case Some(i) => Success(offers[i])
    case None => Failure(NoModelWithCapability(cap))
  }

  /** The transformer: the target model with the primary credentials when it
      has the capability itself, otherwise the first capable registered model. */
  function SelectTransformer(p: Proxy, target: Model, cap: Capability): (r: Result<Offer, Error>)
    ensures target.Has(cap) ==> r == Success(Offer(target, p.primary))
    ensures !target.Has(cap) ==> r == FindModelWithCapability(p.providers, cap)
    ensures r.Success? ==> r.value.model.Has(cap)
    ensures r.Failure? <==> !target.Has(cap) && forall j :: 0 <= j < |Offers(p.providers)| ==> !Offers(p.providers)[j].model.Has(cap)
    ensures r.Failure? ==> r.error == NoModelWithCapability(cap)
  {
    if target.Has(cap) then Success(Offer(target, p.primary))
    else FindModelWithCapability(p.providers, cap)
  }

  /** The sub-request: the modality's system prompt followed by the binary
      message itself, no tools, temperature pinned to zero. */
  function TransformerRequest(m: Msg, model: string, cap: Capability): (r: AgentRequest)
    requires cap.IsAgent()
    ensures r.model == model && |r.messages| == 2 && r.messages[1] == m
    ensures r.messages[0] == Text(SystemRole, PromptFor(cap))
    ensures r.tools == [] && r.genConfig == Some(map[Temperature := Number(0.0)])
  {
    AgentRequest(model, [Text(SystemRole, PromptFor(cap)), m], [], Some(map[Temperature := Number(0.0)]))
  }

  /** `text` is the output of the first candidate of offer `o`'s model whose
      run of the transformer request succeeds; every earlier one failed. */
  ghost predicate TransformedVia(p: Proxy, t: Transport, m: Msg, o: Offer, cap: Capability, text: string)
    requires cap.IsAgent()
  {
    var candidates := Candidates(p.providers, o.model.name, o.creds);
    var request := TransformerRequest(m, o.model.name, cap);
    exists i :: 0 <= i < |candidates|
      && (forall k :: 0 <= k < i ==> AgentRun(p.client, t, candidates[k], request).Failure?)
      && AgentRun(p.client, t, candidates[i], request).Success?
      && AgentRun(p.client, t, candidates[i], request).value.output == text
  }

  /** Every candidate of offer `o`'s model failed the transformer request. */
  ghost predicate TransformerExhausted(p: Proxy, t: Transport, m: Msg, o: Offer, cap: Capability)
    requires cap.IsAgent()
  {
    forall c :: c in Candidates(p.providers, o.model.name, o.creds)
      ==> AgentRun(p.client, t, c, TransformerRequest(m, o.model.name, cap)).Failure?
  }

  /** Turns one binary message into text through a transformer sub-agent run
      with fallback. */
  function BinaryToText(p: Proxy, t: Transport, m: Msg, target: Model): (r: Result<string, Error>)
    requires m.Binary?
    ensures Classify(m.mimeType).Failure? ==> r == Failure(UnsupportedMimeType(m.mimeType))
    ensures Classify(m.mimeType).Success? && SelectTransformer(p, target, Classify(m.mimeType).value).Failure?
      ==> r == Failure(NoModelWithCapability(Classify(m.mimeType).value))
    ensures r.Success? ==> (Classify(m.mimeType).Success?
      && SelectTransformer(p, target, Classify(m.mimeType).value).Success?
      && TransformedVia(p, t, m, SelectTransformer(p, target, Classify(m.mimeType).value).value, Classify(m.mimeType).value, r.value))
    ensures r.Failure? && Classify(m.mimeType).Success? && SelectTransformer(p, target, Classify(m.mimeType).value).Success?
      ==> (r.error == NoModelNamed(SelectTransformer(p, target, Classify(m.mimeType).value).value.model.name)
        && TransformerExhausted(p, t, m, SelectTransformer(p, target, Classify(m.mimeType).value).value, Classify(m.mimeType).value))
  {
    var cap :- Classify(m.mimeType);
    var o :- SelectTransformer(p, target, cap);
    var request := TransformerRequest(m, o.model.name, cap);
    var run := AgentRunWithFallback(p, t, request, o.creds);
    if run.result.Success? then
      var candidates := Candidates(p.providers, o.model.name, o.creds);
      var i := |run.tried| - 1;
      assert forall k :: 0 <= k <= i ==> candidates[k] == run.tried[k];
      assert AgentRun(p.client, t, candidates[i], request).value.output == run.result.value.output;
      Success(run.result.value.output)
    else
      Failure(run.result.error)
  }

  /** The partner of `BinaryToText`: once the capability and the transformer
      are fixed, the first candidate whose sub-run succeeds supplies the text. */
  lemma BinaryToTextFirstSuccess(p: Proxy, t: Transport, m: Msg, target: Model, cap: Capability, o: Offer, i: nat)
    requires m.Binary? && Classify(m.mimeType) == Success(cap)
    requires SelectTransformer(p, target, cap) == Success(o)
    requires i < |Candidates(p.providers, o.model.name, o.creds)|
    requires AgentRun(p.client, t, Candidates(p.providers, o.model.name, o.creds)[i], TransformerRequest(m, o.model.name, cap)).Success?
    requires forall k :: 0 <= k < i ==>
      AgentRun(p.client, t, Candidates(p.providers, o.model.name, o.creds)[k], TransformerRequest(m, o.model.name, cap)).Failure?
    ensures BinaryToText(p, t, m, target)
      == Success(AgentRun(p.client, t, Candidates(p.providers, o.model.name, o.creds)[i], TransformerRequest(m, o.model.name, cap)).value.output)
  {
    AgentRunWithFallbackFirstSuccess(p, t, TransformerRequest(m, o.model.name, cap), o.creds, i);
  }

  /** A binary message whose transformation fails. */
  predicate TransformFails(p: Proxy, t: Transport, m: Msg, target: Model) {
    m.Binary? && BinaryToText(p, t, m, target).Failure?
  }

  /** `out` is what `m` becomes: a text message stays as it is, a binary one
      becomes a text message with the same role and the transformer's output. */
  predicate Rewritten(p: Proxy, t: Transport, target: Model, m: Msg, out: Msg) {
    && (m.Text? ==> out == m)
    && (m.Binary? ==> (out.Text? && out.role == m.role && BinaryToText(p, t, m, target) == Success(out.content)))
  }

  /** The rewrite of a single message. */
  function RewriteOne(p: Proxy, t: Transport, m: Msg, target: Model): (r: Result<Msg, Error>)
    ensures r.Failure? <==> TransformFails(p, t, m, target)
    ensures r.Success? ==> r.value.Text? && Rewritten(p, t, target, m, r.value)
  {
    if m.Text? then Success(m)
    else
      match BinaryToText(p, t, m, target)
      case Failure(e) => Failure(e)
      case Success(text) => Success(Text(m.role, text))
  }

  /** Replaces every binary message by a text message with the same role and
      the transformer's output; text messages pass through. A failing
      transformation is raised. */
  function BinariesToText(p: Proxy, t: Transport, messages: seq<Msg>, target: Model): (r: Result<seq<Msg>, Error>)
    ensures r.Success? <==> forall k :: 0 <= k < |messages| ==> !TransformFails(p, t, messages[k], target)
    ensures r.Success? ==> |r.value| == |messages| && AllText(r.value)
    ensures r.Success? ==> forall k :: 0 <= k < |messages| ==> Rewritten(p, t, target, messages[k], r.value[k])
    decreases |messages|
  {
    if |messages| == 0 then Success([])
    else
      var head := RewriteOne(p, t, messages[0], target);
      if head.Failure? then
        Failure(head.error)
      else
        var tail := BinariesToText(p, t, messages[1..], target);
        if tail.Failure? then Failure(tail.error)
        else
          var out := [head.value] + tail.value;
          ShiftIndices(messages, out, tail.value);
          Success(out)
  }

  /** Index bookkeeping for a list rebuilt as a head followed by the rewrite
      of the tail. */
  lemma ShiftIndices<S, T>(s: seq<S>, out: seq<T>, rest: seq<T>)
    requires |s| > 0 && |out| > 0 && out[1..] == rest
    ensures forall k :: 1 <= k < |s| ==> s[k] == s[1..][k - 1]
    ensures forall k :: 1 <= k < |out| ==> out[k] == rest[k - 1]
  {
  }

  /** Transformations happen in message order: the error raised is the one
      of the first binary message whose transformation fails. */
  lemma {:induction false} BinariesToTextRaisesFirst(p: Proxy, t: Transport, messages: seq<Msg>, target: Model, k: nat)
    requires k < |messages| && TransformFails(p, t, messages[k], target)
    requires forall j :: 0 <= j < k ==> !TransformFails(p, t, messages[j], target)
    ensures BinariesToText(p, t, messages, target) == Failure(BinaryToText(p, t, messages[k], target).error)
    decreases k
  {
    if k > 0 {
      assert !TransformFails(p, t, messages[0], target);
      assert forall j :: 0 <= j < k - 1 ==> messages[1..][j] == messages[j + 1];
      BinariesToTextRaisesFirst(p, t, messages[1..], target, k - 1);
    }
  }

  /** A list without binary messages passes through transformation as is. */
  lemma {:induction false} BinariesToTextKeepsText(p: Proxy, t: Transport, messages: seq<Msg>, target: Model)
    requires AllText(messages)
    ensures BinariesToText(p, t, messages, target) == Success(messages)
    decreases |messages|
  {
    if |messages| > 0 {
      assert forall k :: 0 <= k < |messages| - 1 ==> messages[1..][k] == messages[k + 1];
      BinariesToTextKeepsText(p, t, messages[1..], target);
      assert messages == [messages[0]] + messages[1..];
    }
  }

  // ---------------------------------------------------------------------------
  // The preprocessing decision
  // ---------------------------------------------------------------------------

  /** The target model as the client sees it: the capabilities come only from
      the caller, and absent means none. */
  function TargetModel(model: string, capabilities: Option<seq<Capability>>): (m: Model)
    ensures m.name == model
    ensures forall c :: m.Has(c) <==> capabilities.Some? && c in capabilities.value
  {
    Model(model, capabilities.ValueOr([]))
  }

  predicate Supports(target: Model, required: seq<Capability>) {
    forall c :: c in required ==> target.Has(c)
  }

  /** Whether preprocessing rewrites the list: forced, or some required
      capability is missing from the target. */
  predicate MustTransform(messages: seq<Msg>, target: Model, force: bool) {
    force || (RequiredCapabilities(messages).Success? && !Supports(target, RequiredCapabilities(messages).value))
  }

  /** Returns the list unchanged unless transformation is forced or needed;
      an unsupported MIME type is raised before any transformation when not forced. */
  function PreprocessMessages(p: Proxy, t: Transport, messages: seq<Msg>, model: string,
                              force: bool := false, capabilities: Option<seq<Capability>> := None): (r: Result<seq<Msg>, Error>)
    ensures !force && RequiredCapabilities(messages).Failure? ==> r == Failure(RequiredCapabilities(messages).error)
    ensures !MustTransform(messages, TargetModel(model, capabilities), force) && RequiredCapabilities(messages).Success?
      ==> r == Success(messages)
    ensures MustTransform(messages, TargetModel(model, capabilities), force)
      ==> r == BinariesToText(p, t, messages, TargetModel(model, capabilities))
    ensures r.Success? ==> |r.value| == |messages|
  {
    var target := TargetModel(model, capabilities);
    if force then BinariesToText(p, t, messages, target)
    else
      var required :- RequiredCapabilities(messages);
      if !Supports(target, required) then BinariesToText(p, t, messages, target)
      else Success(messages)
  }

  lemma {:induction false} AllTextRequiresNothing(messages: seq<Msg>)
    requires AllText(messages)
    ensures RequiredCapabilities(messages) == Success([])
    decreases |messages|
  {
    if |messages| > 0 {
      AllTextRequiresNothing(messages[1..]);
    }
  }

  lemma {:induction false} BinaryMakesChange(p: Proxy, t: Transport, messages: seq<Msg>, target: Model)
    requires !AllText(messages)
    ensures BinariesToText(p, t, messages, target) != Success(messages)
  {
    var r := BinariesToText(p, t, messages, target);
    if r.Success? {
      var k :| 0 <= k < |messages| && !messages[k].Text?;
      assert r.value[k].Text?;
    }
  }

  /** The list comes back unchanged exactly when it has no binary message,
      or transformation is not forced and every required capability is there. */
  lemma PreprocessUnchangedIff(p: Proxy, t: Transport, messages: seq<Msg>, model: string, force: bool, capabilities: Option<seq<Capability>>)
    ensures PreprocessMessages(p, t, messages, model, force, capabilities) == Success(messages)
      <==> (AllText(messages)
            || (!force && RequiredCapabilities(messages).Success?
                && Supports(TargetModel(model, capabilities), RequiredCapabilities(messages).value)))
  {
    var target := TargetModel(model, capabilities);
    if AllText(messages) {
      AllTextRequiresNothing(messages);
      BinariesToTextKeepsText(p, t, messages, target);
    } else {
      BinaryMakesChange(p, t, messages, target);
    }
  }

  /** Preprocessing is idempotent: a preprocessed list, given again without
      forcing, comes back unchanged. */
  lemma PreprocessIdempotent(p: Proxy, t: Transport, messages: seq<Msg>, model: string, force: bool, capabilities: Option<seq<Capability>>)
    requires PreprocessMessages(p, t, messages, model, force, capabilities).Success?
    ensures var once := PreprocessMessages(p, t, messages, model, force, capabilities).value;
      PreprocessMessages(p, t, once, model, false, capabilities) == Success(once)
  {
    var target := TargetModel(model, capabilities);
    var once := PreprocessMessages(p, t, messages, model, force, capabilities).value;
    if MustTransform(messages, target, force) {
      assert AllText(once);
      PreprocessUnchangedIff(p, t, once, model, false, capabilities);
    } else {
      assert once == messages;
      assert RequiredCapabilities(messages).Success?;
    }
  }
}
