/** The reply normaliser inside the chat handler: it turns a reply body into
    the assistant messages appended after the user's message, and records the
    state writes the handler makes on the way (processed-video URL, analysis
    results, completion flag).

    The handler pushes onto a local array and calls React setters; here the
    array is the `out` sequence of an accumulator and the setters are its
    `writes`, where a later write replaces an earlier one. Every emitted
    message is tagged with the rule that produced it, so that properties can
    speak about captions and verbatim copies. */
module Normalize {
  import opened Wrappers
  import opened Reply

  const ThoughtPrefix: string := "🧠 **Analysis Process**: "
  const VideoReadyPrefix: string := "🎥 **Processed Video Ready**: "
  const AnalysisCaptionText: string :=
    "🎥 **Analysis Complete**: Annotated video with pose estimation and injury risk assessment"

  /** Where the service serves processed videos. */
  const VideoBase: string := "http://localhost:5001/video/"

  /** The message of the TypeError thrown when a top-level intermediate
      output is `null` (the wording of V8-based browsers). */
  const NullStepError: string := "Cannot read properties of null (reading 'thought')"

  function VideoUrl(path: string): (url: string)
    ensures |url| == |VideoBase| + |path| && url != ""
    ensures url[..|VideoBase|] == VideoBase && url[|VideoBase|..] == path
  {
    VideoBase + path
  }

  /** The rule that produced a message. */
  datatype Origin =
    | ProcessNote       // an intermediate output's thought
    | StepOutput        // an intermediate output's output
    | VideoReady        // the top-level output video
    | AnalysisCaption   // the caption of an analysis video, top-level or nested
    | Verbatim          // a nested message that is not a JSON array
    | Fallback          // a nested message whose payload threw while read

  datatype Emitted = Emitted(origin: Origin, msg: Message)

  function Messages(out: seq<Emitted>): (ms: seq<Message>)
    ensures |ms| == |out|
    ensures forall i :: 0 <= i < |out| ==> ms[i] == out[i].msg
  {
    seq(|out|, i requires 0 <= i < |out| => out[i].msg)
  }

  /** `newMessages.some((msg) => msg.video)`; the user message that heads
      that array carries no video. */
  predicate AnyVideo(out: seq<Emitted>) {
    exists i :: 0 <= i < |out| && HasVideo(out[i].msg)
  }

  // ---------------------------------------------------------------------
  // Intermediate outputs
  // ---------------------------------------------------------------------

  predicate IsStepOrigin(o: Origin) {
    o == ProcessNote || o == StepOutput
  }

  /** The messages one intermediate output yields: its thought, marked as
      process commentary, then its output, each only when non-empty. */
  function StepEmits(io: IntermediateOutput): (out: seq<Emitted>)
    ensures |out| == (if io.thought != "" then 1 else 0) + (if io.output != "" then 1 else 0)
    ensures io.thought != "" ==>
              out[0] == Emitted(ProcessNote, Message(Assistant, ThoughtPrefix + io.thought, None))
    ensures io.output != "" ==>
              out[|out| - 1] == Emitted(StepOutput, Message(Assistant, io.output, None))
  {
    (if io.thought != "" then [Emitted(ProcessNote, Message(Assistant, ThoughtPrefix + io.thought, None))] else [])
    + (if io.output != "" then [Emitted(StepOutput, Message(Assistant, io.output, None))] else [])
  }

  /** The result of `forEach` over an intermediate-output array: the
      messages pushed, and whether an element threw. */
  datatype StepsRun = StepsRun(out: seq<Emitted>, threw: bool)

  function RunSteps(entries: seq<StepEntry>): (run: StepsRun)
    ensures run.threw <==> NullStep in entries
    ensures forall i :: 0 <= i < |run.out| ==>
              run.out[i].msg.role == Assistant && run.out[i].msg.video == None && IsStepOrigin(run.out[i].origin)
    decreases |entries|
  {
    if |entries| == 0 then StepsRun([], false)
    else match entries[0]
      case NullStep => StepsRun([], true)
      case Step(io) =>
        var rest := RunSteps(entries[1..]);
        StepsRun(StepEmits(io) + rest.out, rest.threw)
  }

  /** Entries are processed in list order: the run over `a + b` is the run
      over `a`, followed by the run over `b` unless `a` threw. */
  lemma {:induction false} RunStepsAppend(a: seq<StepEntry>, b: seq<StepEntry>)
    ensures RunSteps(a + b) ==
              if RunSteps(a).threw then RunSteps(a)
              else StepsRun(RunSteps(a).out + RunSteps(b).out, RunSteps(b).threw)
    decreases |a|
  {
    if |a| == 0 {
      assert a + b == b;
    } else {
      assert (a + b)[0] == a[0];
      assert (a + b)[1..] == a[1..] + b;
      match a[0]
      case NullStep =>
      case Step(io) =>
        RunStepsAppend(a[1..], b);
    }
  }

  /** A single entry: an intermediate output pushes exactly its own
      messages, and `null` throws before pushing anything. Together with
      `RunStepsAppend` this fixes the run over every array. */
  lemma RunStepsOne(e: StepEntry)
    ensures RunSteps([e]) == match e
                             case NullStep => StepsRun([], true)
                             case Step(io) => StepsRun(StepEmits(io), false)
  {
    if e.Step? {
      assert RunSteps([e][1..]) == StepsRun([], false);
    }
  }

  // ---------------------------------------------------------------------
  // Accumulator and writes
  // ---------------------------------------------------------------------

  /** The setters called during one turn, last write kept: the processed
      video URL, the analysis results, and whether the completion flag was
      set. None means the setter was not called. */
  datatype Writes = Writes(videoUrl: Option<string>, results: Option<ResultsObject>, complete: bool)

  const NoWrites: Writes := Writes(None, None, false)

  /** The value a field holds after two writers: the later one's, when it
      wrote. */
  function Latest<T>(later: Option<T>, earlier: Option<T>): (v: Option<T>)
    ensures later.Some? ==> v == later
    ensures later.None? ==> v == earlier
  {
    if later.Some? then later else earlier
  }

  datatype Acc = Acc(out: seq<Emitted>, writes: Writes)

  /** A caption is pushed only while no earlier message carries a video, and
      always carries one itself. */
  predicate CaptionsFirst(out: seq<Emitted>) {
    forall i :: 0 <= i < |out| && out[i].origin == AnalysisCaption ==>
      HasVideo(out[i].msg) && forall j :: 0 <= j < i ==> !HasVideo(out[j].msg)
  }

  /** What holds of the accumulator throughout a turn. */
  predicate Good(acc: Acc) {
    && (forall i :: 0 <= i < |acc.out| ==> acc.out[i].msg.role == Assistant)
    && CaptionsFirst(acc.out)
    && (acc.writes.complete <==> acc.writes.results.Some?)
    && (acc.writes.results.Some? ==> acc.writes.results.value != NoResults)
    && (acc.writes.videoUrl.Some? ==> acc.writes.videoUrl.value != "")
  }

  /** `acc2` extends `acc1`: earlier pushes are never removed or changed. */
  predicate Extends(acc1: Acc, acc2: Acc) {
    |acc1.out| <= |acc2.out| && acc2.out[..|acc1.out|] == acc1.out
  }

  /** Appending messages that are not captions keeps `CaptionsFirst`. */
  lemma CaptionsFirstAppend(out: seq<Emitted>, extra: seq<Emitted>)
    requires forall k :: 0 <= k < |extra| ==> extra[k].origin != AnalysisCaption
    ensures CaptionsFirst(out) ==> CaptionsFirst(out + extra)
  {
    var s := out + extra;
    forall i | CaptionsFirst(out) && 0 <= i < |s| && s[i].origin == AnalysisCaption
      ensures HasVideo(s[i].msg) && forall j :: 0 <= j < i ==> !HasVideo(s[j].msg)
    {
      assert forall j :: 0 <= j < i ==> s[j] == out[j];
    }
  }

  /** The analysis caption for a processed-video URL. */
  function Caption(url: string): Emitted {
    Emitted(AnalysisCaption, Message(Assistant, AnalysisCaptionText, Some(url)))
  }

  /** Sets the processed-video URL and pushes the analysis caption with it,
      unless a message pushed so far already carries a video. */
  function CaptionVideo(acc: Acc, url: string): (r: Acc)
    requires url != ""
    ensures Good(acc) ==> Good(r)
    ensures Extends(acc, r)
    ensures r.writes == acc.writes.(videoUrl := Some(url))
    ensures AnyVideo(acc.out) ==> r.out == acc.out
    ensures !AnyVideo(acc.out) ==> r.out == acc.out + [Caption(url)]
  {
    var a := acc.(writes := acc.writes.(videoUrl := Some(url)));
    if AnyVideo(acc.out) then a
    else
      var r := a.(out := acc.out + [Caption(url)]);
      assert r.out[..|acc.out|] == acc.out;
      r
  }

  /** `setAnalysisResults(res)` followed by `setAnalysisComplete(true)`. */
  function Complete(acc: Acc, res: ResultsObject): (r: Acc)
    requires res != NoResults
    ensures Good(acc) ==> Good(r)
    ensures r.out == acc.out && r.writes.complete && r.writes.results == Some(res)
    ensures r.writes.videoUrl == acc.writes.videoUrl
  {
    acc.(writes := acc.writes.(results := Some(res), complete := true))
  }

  /** Pushes the raw content of a nested message unchanged, with its video. */
  function Keep(acc: Acc, origin: Origin, content: string, video: Option<string>): (r: Acc)
    requires origin == Verbatim || origin == Fallback
    ensures Good(acc) ==> Good(r)
    ensures Extends(acc, r)
    ensures r.out == acc.out + [Emitted(origin, Message(Assistant, content, video))] && r.writes == acc.writes
    ensures NewKeep(acc, r)
  {
    var r := acc.(out := acc.out + [Emitted(origin, Message(Assistant, content, video))]);
    assert r.out[..|acc.out|] == acc.out;
    assert r.out[|acc.out|].origin == origin;
    CaptionsFirstAppend(acc.out, [Emitted(origin, Message(Assistant, content, video))]);
    r
  }

  /** Appends the messages of an intermediate-output run. */
  function PushRun(acc: Acc, run: StepsRun): (r: Acc)
    requires forall i :: 0 <= i < |run.out| ==>
               run.out[i].msg.role == Assistant && run.out[i].msg.video == None && IsStepOrigin(run.out[i].origin)
    ensures Good(acc) ==> Good(r)
    ensures Extends(acc, r)
    ensures r.out == acc.out + run.out && r.writes == acc.writes
  {
    var r := acc.(out := acc.out + run.out);
    assert r.out[..|acc.out|] == acc.out;
    assert forall i :: |acc.out| <= i < |r.out| ==> r.out[i] == run.out[i - |acc.out|];
    forall k | 0 <= k < |run.out|
      ensures run.out[k].origin != AnalysisCaption
    {
      assert IsStepOrigin(run.out[k].origin);
    }
    CaptionsFirstAppend(acc.out, run.out);
    r
  }


  // ---------------------------------------------------------------------
  // Nested messages
  // ---------------------------------------------------------------------

  /** `msg && msg.role === "assistant" && msg.content`. */
  predicate IsAssistantEntry(m: RawEntry) {
    m.RawMessage? && m.role == "assistant" && m.content != ""
  }

  /** Reading a nested state does not throw: its intermediate outputs are
      absent or an array without `null` elements. */
  predicate Readable(st: NestedState) {
    match st.steps
    case NoSteps => true
    case NotAList => false
    case StepList(es) => NullStep !in es
  }

  /** The run over a nested state's intermediate outputs: nothing when they
      are falsy, and an immediate throw when they are not an array (it has
      no `forEach`). */
  function StepsOf(st: NestedState): (run: StepsRun)
    ensures run.threw <==> !Readable(st)
    ensures st.steps.StepList? ==> run == RunSteps(st.steps.entries)
    ensures st.steps.NoSteps? ==> run == StepsRun([], false)
    ensures st.steps.NotAList? ==> run == StepsRun([], true)
    ensures forall i :: 0 <= i < |run.out| ==>
              run.out[i].msg.role == Assistant && run.out[i].msg.video == None && IsStepOrigin(run.out[i].origin)
  {
    match st.steps
    case NoSteps => StepsRun([], false)
    case NotAList => StepsRun([], true)
    case StepList(es) => RunSteps(es)
  }

  /** The state element of a parsed array: `parsed[1]`, which is undefined
      for a one-element array. */
  function StateItem(items: seq<Item>): Item {
    if |items| >= 2 then items[1] else NullLike
  }

  /** An assistant entry whose content starts with `[` and parses to a
      non-empty array whose second element is an object: the handler goes on
      to read that object as a state. */
  predicate ReadsState(m: RawEntry, parse: string -> ParseResult) {
    && IsAssistantEntry(m)
    && m.content[0] == '['
    && parse(m.content).ParsedValue?
    && parse(m.content).value.ArrayValue?
    && |parse(m.content).value.items| > 0
    && StateItem(parse(m.content).value.items).ObjectLike?
  }

  function StateOf(m: RawEntry, parse: string -> ParseResult): NestedState
    requires ReadsState(m, parse)
  {
    StateItem(parse(m.content).value.items).state
  }

  /** An assistant entry whose content starts with `[` but whose payload
      throws before a state is read: parsing throws, or the state element is
      `null` or missing. */
  predicate PayloadThrows(m: RawEntry, parse: string -> ParseResult) {
    && IsAssistantEntry(m)
    && m.content[0] == '['
    && (|| parse(m.content).ParseThrows?
        || (&& parse(m.content).value.ArrayValue?
            && |parse(m.content).value.items| > 0
            && StateItem(parse(m.content).value.items).NullLike?))
  }

  /** An assistant entry whose content starts with `[` and parses to
      something other than a non-empty array: nothing is pushed. */
  predicate PayloadIgnored(m: RawEntry, parse: string -> ParseResult) {
    && IsAssistantEntry(m)
    && m.content[0] == '['
    && parse(m.content).ParsedValue?
    && (parse(m.content).value.NotArray? || |parse(m.content).value.items| == 0)
  }

  /** The raw content of an assistant entry is kept: it is not a JSON array,
      or its payload throws, or its state cannot be read. */
  predicate KeepsRaw(m: RawEntry, parse: string -> ParseResult) {
    && IsAssistantEntry(m)
    && (|| m.content[0] != '['
        || PayloadThrows(m, parse)
        || (ReadsState(m, parse) && !Readable(StateOf(m, parse))))
  }

  /** An assistant entry whose state is read through to a truthy
      `analysis_results`. */
  predicate EntryCompletes(m: RawEntry, parse: string -> ParseResult) {
    ReadsState(m, parse) && Readable(StateOf(m, parse)) && StateOf(m, parse).results != NoResults
  }

  /** The results an entry writes, if it writes any. */
  function EntryResults(m: RawEntry, parse: string -> ParseResult): Option<ResultsObject> {
    if EntryCompletes(m, parse) then Some(StateOf(m, parse).results) else None
  }

  /** The processed-video URL an entry writes, if it writes one: that of a
      readable state with a truthy `output_video_path`. */
  function EntryUrl(m: RawEntry, parse: string -> ParseResult): Option<string> {
    if ReadsState(m, parse) && Readable(StateOf(m, parse)) && StateOf(m, parse).outputVideoPath != ""
    then Some(VideoUrl(StateOf(m, parse).outputVideoPath))
    else None
  }

  predicate NewKeep(acc: Acc, r: Acc) {
    exists i :: |acc.out| <= i < |r.out| && (r.out[i].origin == Verbatim || r.out[i].origin == Fallback)
  }

  /** The part of a nested state after its intermediate outputs: its video
      path sets the URL and pushes the caption unless a video was pushed
      already; its analysis results set the results and the completion
      flag. */
  function StateTail(acc: Acc, st: NestedState): (r: Acc)
    ensures Good(acc) ==> Good(r)
    ensures Extends(acc, r)
    ensures forall i :: |acc.out| <= i < |r.out| ==> r.out[i].origin == AnalysisCaption
    ensures st.outputVideoPath != "" && !AnyVideo(acc.out) ==> r.out == acc.out + [Caption(VideoUrl(st.outputVideoPath))]
    ensures st.outputVideoPath == "" || AnyVideo(acc.out) ==> r.out == acc.out
    ensures st.outputVideoPath != "" ==> r.writes.videoUrl == Some(VideoUrl(st.outputVideoPath))
    ensures st.outputVideoPath == "" ==> r.writes.videoUrl == acc.writes.videoUrl
    ensures st.results != NoResults ==> r.writes.results == Some(st.results)
    ensures st.results == NoResults ==> r.writes.results == acc.writes.results
    ensures r.writes.complete <==> acc.writes.complete || st.results != NoResults
  {
    var a := if st.outputVideoPath != "" then CaptionVideo(acc, VideoUrl(st.outputVideoPath)) else acc;
    if st.results != NoResults then Complete(a, st.results) else a
  }

  /** Reads a nested state: its intermediate outputs are pushed first; if
      they throw, the raw content follows them and nothing is written,
      otherwise the rest of the state is read. */
  function ApplyState(acc: Acc, st: NestedState, content: string, video: Option<string>): (r: Acc)
    ensures Good(acc) ==> Good(r)
    ensures Extends(acc, r)
    ensures |acc.out| + |StepsOf(st).out| <= |r.out|
    ensures r.out[..|acc.out| + |StepsOf(st).out|] == acc.out + StepsOf(st).out
    ensures Readable(st) ==> r == StateTail(Acc(acc.out + StepsOf(st).out, acc.writes), st)
    ensures !Readable(st) ==>
              && r.out == acc.out + StepsOf(st).out + [Emitted(Fallback, Message(Assistant, content, video))]
              && r.writes == acc.writes
    ensures r.writes.complete <==> acc.writes.complete || (Readable(st) && st.results != NoResults)
    ensures NewKeep(acc, r) <==> !Readable(st)
  {
    var run := StepsOf(st);
    var a := PushRun(acc, run);
    if run.threw then
      var r := Keep(a, Fallback, content, video);
      assert r.out[|r.out| - 1].origin == Fallback;
      r
    else
      var r := StateTail(a, st);
      assert r.out[..|a.out|] == a.out;
      assert !NewKeep(acc, r) by {
        forall i | |acc.out| <= i < |r.out|
          ensures r.out[i].origin != Verbatim && r.out[i].origin != Fallback
        {
          if i < |a.out| {
            assert r.out[..|a.out|][i] == r.out[i];
            assert a.out[i] == run.out[i - |acc.out|];
          }
        }
      }
      r
  }

  /** An assistant entry whose content starts with `[`: its payload is
      parsed and, when it yields a state, the state is read. */
  function PayloadEntry(acc: Acc, m: RawEntry, parse: string -> ParseResult): (r: Acc)
    requires IsAssistantEntry(m) && m.content[0] == '['
    ensures Good(acc) ==> Good(r)
    ensures Extends(acc, r)
    ensures PayloadIgnored(m, parse) ==> r == acc
    ensures PayloadThrows(m, parse) ==>
              r.out == acc.out + [Emitted(Fallback, Message(Assistant, m.content, m.video))] && r.writes == acc.writes
    ensures ReadsState(m, parse) ==> r == ApplyState(acc, StateOf(m, parse), m.content, m.video)
    ensures r.writes.complete <==> acc.writes.complete || EntryCompletes(m, parse)
    ensures r.writes.results == Latest(EntryResults(m, parse), acc.writes.results)
    ensures r.writes.videoUrl == Latest(EntryUrl(m, parse), acc.writes.videoUrl)
    ensures NewKeep(acc, r) <==> KeepsRaw(m, parse)
    ensures KeepsRaw(m, parse) ==> r.out[|r.out| - 1].msg == Message(Assistant, m.content, m.video)
  {
    match parse(m.content)
    case ParseThrows =>
      Keep(acc, Fallback, m.content, m.video)
    case ParsedValue(NotArray) =>
      acc
    case ParsedValue(ArrayValue(items)) =>
      if |items| == 0 then acc
      else match StateItem(items)
        case NullLike =>
          Keep(acc, Fallback, m.content, m.video)
        case ObjectLike(st) =>
          ApplyState(acc, st, m.content, m.video)
  }

  /** One element of the reply's `messages` array. */
  function NestedEntry(acc: Acc, m: RawEntry, parse: string -> ParseResult): (r: Acc)
    ensures Good(acc) ==> Good(r)
    ensures Extends(acc, r)
    ensures !IsAssistantEntry(m) || PayloadIgnored(m, parse) ==> r == acc
    ensures IsAssistantEntry(m) && m.content[0] != '[' ==>
              r.out == acc.out + [Emitted(Verbatim, Message(Assistant, m.content, m.video))] && r.writes == acc.writes
    ensures PayloadThrows(m, parse) ==>
              r.out == acc.out + [Emitted(Fallback, Message(Assistant, m.content, m.video))] && r.writes == acc.writes
    ensures ReadsState(m, parse) ==> r == ApplyState(acc, StateOf(m, parse), m.content, m.video)
    ensures r.writes.complete <==> acc.writes.complete || EntryCompletes(m, parse)
    ensures r.writes.results == Latest(EntryResults(m, parse), acc.writes.results)
    ensures r.writes.videoUrl == Latest(EntryUrl(m, parse), acc.writes.videoUrl)
    ensures NewKeep(acc, r) <==> KeepsRaw(m, parse)
    ensures KeepsRaw(m, parse) ==> r.out[|r.out| - 1].msg == Message(Assistant, m.content, m.video)
  {
    if !IsAssistantEntry(m) then acc
    else if m.content[0] != '[' then
      Keep(acc, Verbatim, m.content, m.video)
    else
      PayloadEntry(acc, m, parse)
  }

  /** Some element of `ms` completes the analysis. */
  predicate AnyEntryCompletes(ms: seq<RawEntry>, parse: string -> ParseResult) {
    exists i :: 0 <= i < |ms| && EntryCompletes(ms[i], parse)
  }

  /** `forEach` over the reply's `messages` array. */
  function NestedAll(acc: Acc, ms: seq<RawEntry>, parse: string -> ParseResult): (r: Acc)
    ensures Good(acc) ==> Good(r)
    ensures Extends(acc, r)
    ensures r.writes.complete <==> acc.writes.complete || AnyEntryCompletes(ms, parse)
    decreases |ms|
  {
    if |ms| == 0 then acc
    else
      var a := NestedEntry(acc, ms[0], parse);
      var r := NestedAll(a, ms[1..], parse);
      assert forall i :: 1 <= i < |ms| ==> ms[1..][i - 1] == ms[i];
      assert r.out[..|acc.out|] == a.out[..|acc.out|];
      r
  }

  /** A one-element array is that element's entry. */
  lemma NestedAllOne(acc: Acc, m: RawEntry, parse: string -> ParseResult)
    ensures NestedAll(acc, [m], parse) == NestedEntry(acc, m, parse)
  {
    assert [m][1..] == [];
  }

  /** Entries are read in array order: the fold over `a + b` is the fold over
      `b` started from the fold over `a`. */
  lemma {:induction false} NestedAllAppend(acc: Acc, a: seq<RawEntry>, b: seq<RawEntry>, parse: string -> ParseResult)
    ensures NestedAll(acc, a + b, parse) == NestedAll(NestedAll(acc, a, parse), b, parse)
    decreases |a|
  {
    if |a| == 0 {
      assert a + b == b;
    } else {
      assert (a + b)[0] == a[0];
      assert (a + b)[1..] == a[1..] + b;
      NestedAllAppend(NestedEntry(acc, a[0], parse), a[1..], b, parse);
    }
  }

  /** The results written by the last entry of `ms` that writes any. */
  function NestedResults(ms: seq<RawEntry>, parse: string -> ParseResult): (v: Option<ResultsObject>)
    ensures v.Some? <==> AnyEntryCompletes(ms, parse)
    decreases |ms|
  {
    if |ms| == 0 then None
    else
      assert forall i :: 1 <= i < |ms| ==> ms[1..][i - 1] == ms[i];
      Latest(NestedResults(ms[1..], parse), EntryResults(ms[0], parse))
  }

  /** The processed-video URL written by the last entry of `ms` that writes
      one. */
  function NestedUrl(ms: seq<RawEntry>, parse: string -> ParseResult): (v: Option<string>)
    ensures v.Some? <==> exists i :: 0 <= i < |ms| && EntryUrl(ms[i], parse).Some?
    decreases |ms|
  {
    if |ms| == 0 then None
    else
      assert forall i :: 1 <= i < |ms| ==> ms[1..][i - 1] == ms[i];
      Latest(NestedUrl(ms[1..], parse), EntryUrl(ms[0], parse))
  }

  /** Last write wins over the nested messages: after the fold, the results
      and the URL are those of the last entry that wrote them, or what they
      were before when no entry did. */
  lemma {:induction false} NestedAllWrites(acc: Acc, ms: seq<RawEntry>, parse: string -> ParseResult)
    ensures NestedAll(acc, ms, parse).writes.results == Latest(NestedResults(ms, parse), acc.writes.results)
    ensures NestedAll(acc, ms, parse).writes.videoUrl == Latest(NestedUrl(ms, parse), acc.writes.videoUrl)
    decreases |ms|
  {
    if |ms| > 0 {
      NestedAllWrites(NestedEntry(acc, ms[0], parse), ms[1..], parse);
    }
  }

  // ---------------------------------------------------------------------
  // The whole reply
  // ---------------------------------------------------------------------

  /** The normaliser's outcome: the accumulated messages and writes, or the
      error a top-level `null` intermediate output throws. */
  datatype Normalized = Normalized(acc: Acc) | NormalizeThrew(message: string)

  /** The message announcing a top-level output video. */
  function VideoReadyMessage(ov: OutputVideo): Emitted {
    Emitted(VideoReady, Message(Assistant, VideoReadyPrefix + ov.message, Some(ov.url)))
  }

  /** The URL of the top-level `output_video`, when it has a truthy one. */
  function TopVideoUrl(body: ReplyBody): Option<string> {
    if body.outputVideo.Some? && body.outputVideo.value.url != "" then Some(body.outputVideo.value.url) else None
  }

  /** The top-level `output_video`, when it has a URL: sets the processed
      video URL and pushes its announcement, whatever was pushed before. */
  function OutputVideoStep(acc: Acc, ov: Option<OutputVideo>): (r: Acc)
    ensures Good(acc) ==> Good(r)
    ensures Extends(acc, r)
    ensures ov.Some? && ov.value.url != "" ==>
              && r.out == acc.out + [VideoReadyMessage(ov.value)]
              && r.writes == acc.writes.(videoUrl := Some(ov.value.url))
    ensures !(ov.Some? && ov.value.url != "") ==> r == acc
  {
    if ov.Some? && ov.value.url != "" then
      var r := Acc(acc.out + [VideoReadyMessage(ov.value)], acc.writes.(videoUrl := Some(ov.value.url)));
      assert r.out[..|acc.out|] == acc.out;
      r
    else acc
  }

  /** The URL the top-level `analysis_results` writes: only for an object
      with keys that names a video, and only when the URL held before the
      turn is falsy. */
  function TopResultsUrl(preVideoUrl: Option<string>, body: ReplyBody): Option<string> {
    if body.analysisResults.Results? && body.analysisResults.value.outputVideoPath != "" && !Truthy(preVideoUrl)
    then Some(VideoUrl(body.analysisResults.value.outputVideoPath))
    else None
  }

  /** The top-level `analysis_results`, when it is an object with keys: sets
      the results and the completion flag, and, if it names a video and the
      URL held before the turn is falsy, sets the URL and pushes the caption
      unless a video was pushed already. */
  function ResultsStep(acc: Acc, res: ResultsObject, preVideoUrl: Option<string>): (r: Acc)
    ensures Good(acc) ==> Good(r)
    ensures Extends(acc, r)
    ensures forall i :: |acc.out| <= i < |r.out| ==> r.out[i].origin == AnalysisCaption
    ensures !res.Results? ==> r == acc
    ensures res.Results? ==> r.writes.results == Some(res) && r.writes.complete
    ensures res.Results? && (res.value.outputVideoPath == "" || Truthy(preVideoUrl)) ==>
              r.out == acc.out && r.writes.videoUrl == acc.writes.videoUrl
    ensures res.Results? && res.value.outputVideoPath != "" && !Truthy(preVideoUrl) ==>
              && r.writes.videoUrl == Some(VideoUrl(res.value.outputVideoPath))
              && (AnyVideo(acc.out) ==> r.out == acc.out)
              && (!AnyVideo(acc.out) ==> r.out == acc.out + [Caption(VideoUrl(res.value.outputVideoPath))])
  {
    match res
    case Results(v) =>
      var a := Complete(acc, res);
      if v.outputVideoPath != "" && !Truthy(preVideoUrl) then CaptionVideo(a, VideoUrl(v.outputVideoPath)) else a
    case _ => acc
  }

  /** The reply completes the analysis: a top-level `analysis_results` with
      keys, or a nested state read through to a truthy `analysis_results`. */
  predicate ReplyCompletes(body: ReplyBody, parse: string -> ParseResult) {
    || body.analysisResults.Results?
    || (body.messages.Some? && AnyEntryCompletes(body.messages.value, parse))
  }

  /** A top-level intermediate output is `null`. */
  predicate TopStepThrows(body: ReplyBody) {
    body.intermediateOutputs.StepList? && NullStep in body.intermediateOutputs.entries
  }

  /** The top-level intermediate outputs, when they are an array. */
  function TopRun(body: ReplyBody): (run: StepsRun)
    ensures run.threw <==> TopStepThrows(body)
    ensures body.intermediateOutputs.StepList? ==> run == RunSteps(body.intermediateOutputs.entries)
    ensures !body.intermediateOutputs.StepList? ==> run == StepsRun([], false)
    ensures forall i :: 0 <= i < |run.out| ==>
              run.out[i].msg.role == Assistant && run.out[i].msg.video == None && IsStepOrigin(run.out[i].origin)
  {
    if body.intermediateOutputs.StepList? then RunSteps(body.intermediateOutputs.entries) else StepsRun([], false)
  }

  /** The results the top-level `analysis_results` writes. */
  function TopResults(body: ReplyBody): Option<ResultsObject> {
    if body.analysisResults.Results? then Some(body.analysisResults) else None
  }

  /** The top-level part of a reply that does not throw: the intermediate
      outputs' messages, then the output video's announcement, or else the
      analysis caption when the results write a URL. */
  function TopLevel(preVideoUrl: Option<string>, body: ReplyBody): (r: Acc)
    requires !TopStepThrows(body)
    ensures Good(r)
    ensures TopVideoUrl(body).Some? ==> r.out == TopRun(body).out + [VideoReadyMessage(body.outputVideo.value)]
    ensures TopVideoUrl(body).None? && TopResultsUrl(preVideoUrl, body).Some? ==>
              r.out == TopRun(body).out + [Caption(TopResultsUrl(preVideoUrl, body).value)]
    ensures TopVideoUrl(body).None? && TopResultsUrl(preVideoUrl, body).None? ==> r.out == TopRun(body).out
    ensures r.writes.results == TopResults(body)
    ensures r.writes.complete <==> body.analysisResults.Results?
    ensures r.writes.videoUrl == Latest(TopResultsUrl(preVideoUrl, body), TopVideoUrl(body))
  {
    var run := TopRun(body);
    var a0 := Acc([], NoWrites);
    assert Good(a0);
    var a1 := PushRun(a0, run);
    assert Good(a1) && a1 == Acc(run.out, NoWrites);
    assert !AnyVideo(a1.out);
    var a2 := OutputVideoStep(a1, body.outputVideo);
    assert Good(a2) && !a2.writes.complete && a2.writes.results.None?;
    assert TopVideoUrl(body).Some? ==> AnyVideo(a2.out) by {
      if TopVideoUrl(body).Some? {
        assert HasVideo(a2.out[|run.out|].msg);
      }
    }
    ResultsStep(a2, body.analysisResults, preVideoUrl)
  }

  /** The normaliser: intermediate outputs, output video, analysis results,
      nested messages, in that order. `preVideoUrl` is the processed-video URL
      held before the turn, which is what the handler reads. The results and
      the URL end as the last writer left them. */
  function NormalizeReply(preVideoUrl: Option<string>, body: ReplyBody, parse: string -> ParseResult): (n: Normalized)
    ensures n.NormalizeThrew? <==> TopStepThrows(body)
    ensures n.NormalizeThrew? ==> n.message != ""
    ensures n.Normalized? ==> Good(n.acc)
    ensures n.Normalized? ==> Extends(TopLevel(preVideoUrl, body), n.acc)
    ensures n.Normalized? ==> n.acc == NestedAll(TopLevel(preVideoUrl, body), body.messages.GetOr([]), parse)
    ensures n.Normalized? ==> (n.acc.writes.complete <==> ReplyCompletes(body, parse))
    ensures n.Normalized? ==>
              n.acc.writes.results == Latest(NestedResults(body.messages.GetOr([]), parse), TopResults(body))
    ensures n.Normalized? ==>
              n.acc.writes.videoUrl ==
                Latest(NestedUrl(body.messages.GetOr([]), parse), Latest(TopResultsUrl(preVideoUrl, body), TopVideoUrl(body)))
  {
    if TopRun(body).threw then NormalizeThrew(NullStepError)
    else
      var top := TopLevel(preVideoUrl, body);
      var ms := body.messages.GetOr([]);
      NestedAllWrites(top, ms, parse);
      Normalized(NestedAll(top, ms, parse))
  }

  /** Of all the captions the analysis paths push, at most one appears in a
      turn, and it is the first message of the turn to carry a video. */
  lemma AtMostOneCaption(preVideoUrl: Option<string>, body: ReplyBody, parse: string -> ParseResult)
    requires NormalizeReply(preVideoUrl, body, parse).Normalized?
    ensures var out := NormalizeReply(preVideoUrl, body, parse).acc.out;
            forall i, k ::
              (0 <= i < |out| && 0 <= k < |out| && out[i].origin == AnalysisCaption && out[k].origin == AnalysisCaption)
              ==> i == k
    ensures var out := NormalizeReply(preVideoUrl, body, parse).acc.out;
            forall i :: 0 <= i < |out| && out[i].origin == AnalysisCaption ==>
              forall j :: 0 <= j < i ==> !HasVideo(out[j].msg)
  {
    var out := NormalizeReply(preVideoUrl, body, parse).acc.out;
    assert CaptionsFirst(out);
    forall i, k | 0 <= i < |out| && 0 <= k < |out| && out[i].origin == AnalysisCaption && out[k].origin == AnalysisCaption
      ensures i == k
    {
    }
  }

  /** Once a message with a video has gone out, no caption can follow it;
      so when none came before it and it is not a caption itself, there is
      no caption at all. */
  lemma NoCaptionAfterVideo(out: seq<Emitted>, p: nat)
    requires CaptionsFirst(out)
    requires p < |out| && HasVideo(out[p].msg) && out[p].origin != AnalysisCaption
    requires forall i :: 0 <= i < p ==> out[i].origin != AnalysisCaption
    ensures forall i :: 0 <= i < |out| ==> out[i].origin != AnalysisCaption
  {
  }

  /** First caption wins: a top-level output video with a URL leaves no room
      for an analysis caption, top-level or nested. */
  lemma OutputVideoSuppressesCaptions(preVideoUrl: Option<string>, body: ReplyBody, parse: string -> ParseResult)
    requires NormalizeReply(preVideoUrl, body, parse).Normalized?
    requires body.outputVideo.Some? && body.outputVideo.value.url != ""
    ensures var out := NormalizeReply(preVideoUrl, body, parse).acc.out;
            forall i :: 0 <= i < |out| ==> out[i].origin != AnalysisCaption
  {
    var run := TopRun(body);
    var top := TopLevel(preVideoUrl, body);
    var acc := NormalizeReply(preVideoUrl, body, parse).acc;
    var p := |run.out|;
    assert top.out == run.out + [VideoReadyMessage(body.outputVideo.value)];
    assert Extends(top, acc) && Good(acc);
    assert acc.out[..|top.out|] == top.out;
    forall i | 0 <= i <= p
      ensures acc.out[i] == top.out[i]
    {
      assert acc.out[..|top.out|][i] == acc.out[i];
    }
    NoCaptionAfterVideo(acc.out, p);
  }
}
