/** The request both flows send to the image model, and the fan-out of three
    identical calls whose results fill the output record by position. */
module Generation {
  import opened Options

  const ModelId: string := "googleai/gemini-2.0-flash-preview-image-generation"

  /** Each flow issues this many generate calls. */
  const CallCount: nat := 3

  datatype Modality = Image | Text

  datatype GenerationConfig = GenerationConfig(responseModalities: seq<Modality>, apiKey: Option<string>)

  /** One `ai.generate` argument; `P` is the prompt's shape (a string or a list of segments). */
  datatype GenerateRequest<P> = GenerateRequest(model: string, prompt: P, config: GenerationConfig)

  datatype Media = Media(url: string)

  /** What the flows read from a generate result: its media. */
  datatype GenerateResponse = GenerateResponse(media: Media)

  /** The output record of both flows. */
  datatype Thumbnails = Thumbnails(thumbnail1: string, thumbnail2: string, thumbnail3: string)

  /** `input.apiKey || envKey`: the caller's key unless it is absent or empty,
      in which case the environment's key, whatever it is. */
  function ResolveApiKey(apiKey: Option<string>, envKey: Option<string>): (key: Option<string>)
    ensures Truthy(apiKey) ==> key == apiKey
    ensures !Truthy(apiKey) ==> key == envKey
    ensures Truthy(key) <==> Truthy(apiKey) || Truthy(envKey)
  {
    if Truthy(apiKey) then apiKey else envKey
  }

  /** The config object of both flows. */
  function FlowConfig(apiKey: Option<string>, envKey: Option<string>): (config: GenerationConfig)
    ensures config.responseModalities == [Image, Text]
    ensures Truthy(apiKey) ==> config.apiKey == apiKey
    ensures !Truthy(apiKey) ==> config.apiKey == envKey
  {
    GenerationConfig([Image, Text], ResolveApiKey(apiKey, envKey))
  }

  /** The argument every generate call of a flow receives. */
  function FlowRequest<P>(prompt: P, apiKey: Option<string>, envKey: Option<string>): GenerateRequest<P>
  {
    GenerateRequest(ModelId, prompt, FlowConfig(apiKey, envKey))
  }

  /** The calls a flow issues, in issue order: three, all with the same argument. */
  function IssueCalls<P>(request: GenerateRequest<P>): (calls: seq<GenerateRequest<P>>)
    ensures |calls| == CallCount
    ensures forall i | 0 <= i < |calls| :: calls[i] == request
  {
    [request, request, request]
  }

  /** The record's values in key order, as `Object.values` lists them to the caller. */
  function Values(out: Thumbnails): seq<string>
  {
    [out.thumbnail1, out.thumbnail2, out.thumbnail3]
  }

  /** The output record built from the three results in issue order. */
  function Assemble(results: seq<GenerateResponse>): (out: Thumbnails)
    requires |results| == CallCount
    ensures out.thumbnail1 == results[0].media.url
    ensures out.thumbnail2 == results[1].media.url
    ensures out.thumbnail3 == results[2].media.url
  {
    Thumbnails(results[0].media.url, results[1].media.url, results[2].media.url)
  }

  /** Issue the three calls and assemble their results. The image model is the
      parameter `generate`, indexed by the call's issue position, so that three
      identical requests may come back with three different images. */
  function Dispatch<P>(request: GenerateRequest<P>, generate: (nat, GenerateRequest<P>) -> GenerateResponse): (out: Thumbnails)
    ensures out.thumbnail1 == generate(0, request).media.url
    ensures out.thumbnail2 == generate(1, request).media.url
    ensures out.thumbnail3 == generate(2, request).media.url
  {
    var calls := IssueCalls(request);
    Assemble([generate(0, calls[0]), generate(1, calls[1]), generate(2, calls[2])])
  }

  /** The output depends only on what the three issued calls return. */
  lemma DispatchDependsOnlyOnIssuedCalls<P>(request: GenerateRequest<P>,
                                           g1: (nat, GenerateRequest<P>) -> GenerateResponse,
                                           g2: (nat, GenerateRequest<P>) -> GenerateResponse)
    requires forall i | 0 <= i < CallCount :: g1(i, request) == g2(i, request)
    ensures Dispatch(request, g1) == Dispatch(request, g2)
  {
  }

  /** The list the caller receives from `Object.values` holds the three urls in
      issue order. */
  lemma ValuesInIssueOrder<P>(request: GenerateRequest<P>, generate: (nat, GenerateRequest<P>) -> GenerateResponse)
    ensures var urls := Values(Dispatch(request, generate));
            && |urls| == CallCount
            && forall i | 0 <= i < CallCount :: urls[i] == generate(i, request).media.url
  {
  }
}
