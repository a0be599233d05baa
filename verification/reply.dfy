/** The shapes the browser client works with: transcript messages, the
    processed-video and analysis-result records, and the chat endpoint's
    reply, whose `messages` array may hold JSON-encoded `[result, state]`
    pairs.

    JavaScript truthiness is modelled explicitly: a string field read only
    for its truthiness is a `string` in which "" stands for every falsy value
    (absent, `null`, `undefined`, ""). A message's optional `video` is an
    `Option<string>`; the output video's `url` and a result's output video
    path are passed on only after a truthiness test and stay strings. */
module Reply {
  import opened Wrappers
  import Risk
  import Frames

  datatype Role = User | System | Assistant

  /** One transcript entry. */
  datatype Message = Message(role: Role, content: string, video: Option<string>)

  /** `msg.video` is truthy. */
  predicate HasVideo(m: Message) {
    Truthy(m.video)
  }

  /** The top-level `output_video` of a reply. */
  datatype OutputVideo = OutputVideo(path: string, url: string, message: string, size: int)

  /** One reasoning step the service reports. */
  datatype IntermediateOutput = IntermediateOutput(thought: string, code: string, output: string, operationType: Option<string>)

  /** An element of an `intermediate_outputs` array; reading `.thought` of a
      `null` or `undefined` element throws. */
  datatype StepEntry = Step(io: IntermediateOutput) | NullStep

  /** An `intermediate_outputs` field: absent or falsy, an array, or a truthy
      value that is not an array. */
  datatype StepsField = NoSteps | StepList(entries: seq<StepEntry>) | NotAList

  /** The analysis report the back end assembles once per video. */
  datatype AnalysisResults = AnalysisResults(
    outputVideoPath: string,
    frameData: seq<Frames.FrameRecord>,
    exercises: seq<Risk.Exercise>,
    maxInjuryRisk: Risk.JointRisk,
    totalFrames: int,
    videoExists: bool,
    videoSize: int)

  /** An `analysis_results` value: absent or falsy, the empty object `{}`
      (truthy, but with no keys), or an object with keys. */
  datatype ResultsObject = NoResults | EmptyResults | Results(value: AnalysisResults)

  /** The `state` half of a nested `[result, state]` pair. A primitive reads
      like an object whose fields are all absent. */
  datatype NestedState = NestedState(steps: StepsField, outputVideoPath: string, results: ResultsObject)

  /** An element of a parsed array, as the client reads it: `null` or
      `undefined` (reading a field of it throws), or anything else. */
  datatype Item = NullLike | ObjectLike(state: NestedState)

  /** What `JSON.parse` yields, as far as the client looks at it. */
  datatype Parsed = NotArray | ArrayValue(items: seq<Item>)

  /** `JSON.parse` either throws or yields a value. */
  datatype ParseResult = ParseThrows | ParsedValue(value: Parsed)

  /** An element of the reply's `messages` array; `content` "" stands for a
      falsy content. */
  datatype RawEntry = NullEntry | RawMessage(role: string, content: string, video: Option<string>)

  /** The body of a successful chat reply. `messages` is None when absent or
      not an array. */
  datatype ReplyBody = ReplyBody(
    intermediateOutputs: StepsField,
    outputVideo: Option<OutputVideo>,
    analysisResults: ResultsObject,
    messages: Option<seq<RawEntry>>)

  /** What the chat request yields: a body with an OK status, a non-OK
      status with its `error` and `details` fields ("" when falsy), or an
      error thrown by `fetch` or by reading the body as JSON. */
  datatype ChatResponse = Delivered(body: ReplyBody) | NotOk(error: string, details: string) | Thrown(message: string)
}
