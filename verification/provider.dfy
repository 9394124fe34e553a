/** Provider credentials, model capabilities and provider configurations. */
module Provider {
  import opened Wrappers

  /** The credentials of one provider account; `baseUrl` is optional. */
  datatype Creds = Creds(apiKey: string, provider: string, baseUrl: Option<string> := None)

  /** The closed set of capabilities a model may declare. */
  datatype Capability = AudioAgent | ImageAgent | VideoAgent | Speak | Transcribe {

    /** The enum value carried on the wire. */
    function Value(): string {
      match this
      case AudioAgent => "audio_agent"
      case ImageAgent => "image_agent"
      case VideoAgent => "video_agent"
      case Speak => "speak"
      case Transcribe => "transcribe"
    }

    /** The three capabilities that let an agent consume a binary input. */
    predicate IsAgent() {
      AudioAgent? || ImageAgent? || VideoAgent?
    }
  }

  /** Looks a capability up by its enum value, as the enum constructor does. */
  function CapabilityOfValue(s: string): (r: Option<Capability>)
    ensures r.Some? ==> r.value.Value() == s
  {
    if s == "audio_agent" then Some(AudioAgent)
    else if s == "image_agent" then Some(ImageAgent)
    else if s == "video_agent" then Some(VideoAgent)
    else if s == "speak" then Some(Speak)
    else if s == "transcribe" then Some(Transcribe)
    else None
  }

  /** Enum values identify capabilities: every capability is found by its
      value, and a string names a capability only if it is one of the five values. */
  lemma CapabilityValueRoundTrip(c: Capability, s: string)
    ensures CapabilityOfValue(c.Value()) == Some(c)
    ensures CapabilityOfValue(s).None? <==> forall d: Capability :: d.Value() != s
  {
    if CapabilityOfValue(s).None? {
      forall d: Capability ensures d.Value() != s {
        match d
        case AudioAgent =>
        case ImageAgent =>
        case VideoAgent =>
        case Speak =>
        case Transcribe =>
      }
    }
  }

  /** A model name with its declared capabilities. The list may be empty or
      hold duplicates; only membership is ever consulted. */
  datatype Model = Model(name: string, capabilities: seq<Capability>) {
    predicate Has(c: Capability) {
      c in capabilities
    }
  }

  /** One credential set paired with an ordered model list; names need not be unique. */
  datatype ProviderConfig = ProviderConfig(creds: Creds, models: seq<Model>)

  /** A model together with the credentials of the provider that lists it. */
  datatype Offer = Offer(model: Model, creds: Creds)

  /** Every (model, provider creds) pair, in provider order then model order:
      the order in which the client's nested loops visit them. */
  function Offers(providers: seq<ProviderConfig>): (r: seq<Offer>)
    ensures |r| == TotalModels(providers)
    ensures forall k :: 0 <= k < |r| ==> exists i :: 0 <= i < |providers| && r[k].creds == providers[i].creds && r[k].model in providers[i].models
  {
    if |providers| == 0 then []
    else
      var p := providers[0];
      var rest := Offers(providers[1..]);
      var r := seq(|p.models|, j requires 0 <= j < |p.models| => Offer(p.models[j], p.creds)) + rest;
      assert forall k :: |p.models| <= k < |r| ==> r[k] == rest[k - |p.models|];
      r
  }

  function TotalModels(providers: seq<ProviderConfig>): nat {
    if |providers| == 0 then 0 else |providers[0].models| + TotalModels(providers[1..])
  }

  /** Model `j` of provider `i` is visited right after every model of the
      providers before it and the first `j` models of its own list, paired
      with provider `i`'s credentials. */
  lemma {:induction false} OffersAt(providers: seq<ProviderConfig>, i: nat, j: nat)
    requires i < |providers| && j < |providers[i].models|
    ensures TotalModels(providers[..i]) + j < |Offers(providers)|
    ensures Offers(providers)[TotalModels(providers[..i]) + j] == Offer(providers[i].models[j], providers[i].creds)
  {
    var ps, qs := providers[..i], providers[i..];
    assert providers == ps + qs;
    OffersHead(qs, j);
    OffersShift(ps, qs, j);
  }

  /** The first provider's models open the visiting order. */
  lemma {:induction false} OffersHead(qs: seq<ProviderConfig>, j: nat)
    requires |qs| > 0 && j < |qs[0].models|
    ensures j < |Offers(qs)| && Offers(qs)[j] == Offer(qs[0].models[j], qs[0].creds)
  {
    var q := qs[0];
    var block := seq(|q.models|, j requires 0 <= j < |q.models| => Offer(q.models[j], q.creds));
    assert Offers(qs) == block + Offers(qs[1..]);
    AppendIndex(block, Offers(qs[1..]), true, j);
  }

  /** The pairs of a later provider list follow every pair of the lists before it. */
  lemma {:induction false} OffersShift(ps: seq<ProviderConfig>, qs: seq<ProviderConfig>, j: nat)
    requires j < |Offers(qs)|
    ensures |Offers(ps)| + j < |Offers(ps + qs)| && Offers(ps + qs)[|Offers(ps)| + j] == Offers(qs)[j]
  {
    OffersAppend(ps, qs);
    AppendIndex(Offers(ps), Offers(qs), false, j);
  }

  /** Indexing into a concatenation. */
  lemma AppendIndex<T>(a: seq<T>, b: seq<T>, left: bool, j: nat)
    requires if left then j < |a| else j < |b|
    ensures (if left then j else |a| + j) < |a + b|
    ensures (a + b)[if left then j else |a| + j] == if left then a[j] else b[j]
  {
  }

  /** `Offers` distributes over concatenation of provider lists. */
  lemma {:induction false} OffersAppend(ps: seq<ProviderConfig>, qs: seq<ProviderConfig>)
    ensures Offers(ps + qs) == Offers(ps) + Offers(qs)
    decreases |ps|
  {
    if |ps| == 0 {
      assert ps + qs == qs;
    } else {
      assert (ps + qs)[1..] == ps[1..] + qs;
      OffersAppend(ps[1..], qs);
    }
  }
}
