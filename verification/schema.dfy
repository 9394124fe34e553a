/** Request and response records exchanged with the gateway. The client only
    builds and forwards them, so their fields are opaque here. */
module Schema {
  import opened Wrappers
  import opened Message
  import Base64

  /** A value in a free-form generation configuration. */
  datatype ConfigValue = Number(n: real) | Str(s: string) | Flag(b: bool) | Null

  type GenConfig = map<string, ConfigValue>

  datatype SearchContextSize = Low | Medium | High

  datatype Tool =
    | WebSearch(searchContextSize: SearchContextSize := Medium)
    | McpStreamableServer(url: string, prefix: string)

  datatype AgentRequest = AgentRequest(
    model: string,
    messages: seq<Msg>,
    tools: seq<Tool>,
    genConfig: Option<GenConfig> := None)

  datatype Usage = Usage(inputTokens: int, outputTokens: int)

  datatype AgentResponse = AgentResponse(output: string, usage: Usage)

  datatype SpeakRequest = SpeakRequest(
    model: string,
    text: string,
    voice: string,
    outputFormat: string,
    genConfig: Option<GenConfig> := None)

  /** An uploaded audio file: (file name, content, content type). */
  datatype FileUpload = FileUpload(fileName: string, content: seq<Base64.byte>, contentType: string)

  datatype TranscribeResponse = TranscribeResponse(text: string, language: Option<string> := None)

  /** Python's truthiness of an optional mapping: `None` and `{}` are false. */
  function NonEmptyOrNone(config: GenConfig): (r: Option<GenConfig>)
    ensures r.None? <==> |config| == 0
    ensures r.Some? ==> r.value == config
  {
    if |config| == 0 then None else Some(config)
  }
}
