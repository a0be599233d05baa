/** Message preparation in the language-model node of the agent graph
    (`call_llm_model`): the system prompt is put first unless the history
    already has a system message, and the last user message is tagged with
    the video path; the node then answers with exactly one assistant
    message.

    The language model is a parameter. The node appends the tag to the
    message dictionary in place; here the update is a new sequence. */
module LlmMessages {
  import opened Wrappers

  /** The `role` value of a message dictionary: the three the node looks
      at or writes, and any other string. */
  datatype ChatRole = SystemRole | UserRole | AssistantRole | OtherRole(name: string)

  /** One message dictionary of the graph state. */
  datatype ChatMessage = ChatMessage(role: ChatRole, content: string)

  const SystemPrompt: string :=
    "\nYou are an expert biomechanics AI assistant specializing in cricket batting analysis.\n"
    + "You have access to tools for:\n"
    + "1. video_pose_estimation_tool: Processes videos for pose estimation and biomechanical analysis\n"
    + "2. advanced_image_processor: Executes custom OpenCV/PIL code for image processing\n"
    + "\nFor video analysis:\n"
    + "- Use video_pose_estimation_tool for batting posture analysis\n"
    + "- Analyze injury risk (back, knees, shoulders) and calculate swing speed\n"
    + "- Provide personalized exercise recommendations\n"
    + "\nAlways:\n"
    + "1. Use the video_path from the user's message or state\n"
    + "2. Explain your approach in the response\n"
    + "3. Handle errors gracefully\n"
    + "4. Provide detailed biomechanical analysis and exercise suggestions\n"

  /** The word whose presence in the user message suppresses the tag. */
  const VideoPathMarker: string := "video_path"

  /** The text appended to the last user message. */
  function VideoTag(path: string): string {
    "\nVideo path: " + path
  }

  /** `w` occurs in `s` starting at index `i`. */
  predicate OccursAt(s: string, w: string, i: int) {
    0 <= i && i + |w| <= |s| && s[i..i + |w|] == w
  }

  /** Python's `w in s` for strings: `w` occurs in `s` as a contiguous run. */
  predicate Contains(s: string, w: string) {
    exists i :: 0 <= i <= |s| && OccursAt(s, w, i)
  }

  predicate HasSystem(msgs: seq<ChatMessage>) {
    exists i :: 0 <= i < |msgs| && msgs[i].role == SystemRole
  }

  /** Index of the last message whose role is "user" among the first `n`,
      found by scanning them from the back. */
  function LastUserBelow(msgs: seq<ChatMessage>, n: nat): (r: Option<nat>)
    requires n <= |msgs|
    ensures r.Some? ==> r.value < n && msgs[r.value].role == UserRole
    ensures r.Some? ==> forall k :: r.value < k < n ==> msgs[k].role != UserRole
    ensures r.None? ==> forall k :: 0 <= k < n ==> msgs[k].role != UserRole
  {
    if n == 0 then None
    else if msgs[n - 1].role == UserRole then Some(n - 1)
    else LastUserBelow(msgs, n - 1)
  }

  /** Index of the last message whose role is "user": the loop over the
      whole list keeps the latest match. */
  function LastUser(msgs: seq<ChatMessage>): (r: Option<nat>)
    ensures r.Some? ==> r.value < |msgs| && msgs[r.value].role == UserRole
    ensures r.Some? ==> forall k :: r.value < k < |msgs| ==> msgs[k].role != UserRole
    ensures r.None? ==> forall k :: 0 <= k < |msgs| ==> msgs[k].role != UserRole
  {
    LastUserBelow(msgs, |msgs|)
  }

  /** The history with the system prompt put first when it has no system
      message. */
  function WithSystemPrompt(msgs: seq<ChatMessage>): (r: seq<ChatMessage>)
    ensures HasSystem(r)
    ensures HasSystem(msgs) ==> r == msgs
    ensures !HasSystem(msgs) ==> |r| == |msgs| + 1 && r[0] == ChatMessage(SystemRole, SystemPrompt) && r[1..] == msgs
  {
    if HasSystem(msgs) then msgs
    else
      var r := [ChatMessage(SystemRole, SystemPrompt)] + msgs;
      assert r[0].role == SystemRole;
      r
  }

  /** Message `i` gains the tag: the path is truthy, `i` is the last user
      message, and its content does not mention `video_path`. */
  predicate TagApplies(msgs: seq<ChatMessage>, i: nat, videoPath: Option<string>)
    requires i < |msgs|
  {
    Truthy(videoPath) && LastUser(msgs) == Some(i) && !Contains(msgs[i].content, VideoPathMarker)
  }

  /** `r` is `msgs` with `d` messages put in front, the same roles, and every
      content kept except that a message the tag applies to gains exactly
      the tag. */
  predicate TaggedCopy(msgs: seq<ChatMessage>, r: seq<ChatMessage>, d: nat, videoPath: Option<string>)
    requires |r| == |msgs| + d
  {
    forall i :: 0 <= i < |msgs| ==>
      && r[i + d].role == msgs[i].role
      && (TagApplies(msgs, i, videoPath) ==> r[i + d].content == msgs[i].content + VideoTag(videoPath.value))
      && (!TagApplies(msgs, i, videoPath) ==> r[i + d].content == msgs[i].content)
  }

  /** The video-path tag applied to the last user message, unless there is
      none, the path is missing or empty, or the message already mentions
      `video_path`. */
  function TagLastUser(msgs: seq<ChatMessage>, videoPath: Option<string>): (r: seq<ChatMessage>)
    ensures |r| == |msgs|
    ensures TaggedCopy(msgs, r, 0, videoPath)
  {
    if !Truthy(videoPath) then msgs
    else match LastUser(msgs)
      case None => msgs
      case Some(k) =>
        if Contains(msgs[k].content, VideoPathMarker) then msgs
        else msgs[k := msgs[k].(content := msgs[k].content + VideoTag(videoPath.value))]
  }

  /** Putting the system prompt in front does not change whether the tag
      applies to a message of the history. */
  lemma TagAppliesAfterPrompt(msgs: seq<ChatMessage>, videoPath: Option<string>, i: nat)
    requires !HasSystem(msgs) && i < |msgs|
    ensures WithSystemPrompt(msgs)[i + 1] == msgs[i]
    ensures TagApplies(WithSystemPrompt(msgs), i + 1, videoPath) <==> TagApplies(msgs, i, videoPath)
  {
    LastUserShift(msgs);
  }

  /** Tagging after the system prompt is put in front tags the message that
      was the last user message before it. */
  lemma TagAfterPrompt(msgs: seq<ChatMessage>, r: seq<ChatMessage>, videoPath: Option<string>)
    requires !HasSystem(msgs)
    requires |r| == |msgs| + 1 && TaggedCopy(WithSystemPrompt(msgs), r, 0, videoPath)
    ensures TaggedCopy(msgs, r, 1, videoPath)
  {
    var w := WithSystemPrompt(msgs);
    forall i | 0 <= i < |msgs|
      ensures r[i + 1].role == msgs[i].role
      ensures TagApplies(msgs, i, videoPath) ==> r[i + 1].content == msgs[i].content + VideoTag(videoPath.value)
      ensures !TagApplies(msgs, i, videoPath) ==> r[i + 1].content == msgs[i].content
    {
      TagAppliesAfterPrompt(msgs, videoPath, i);
    }
  }

  /** Where the history starts in the prepared list: after the prompt when
      one is put in front. */
  function Offset(msgs: seq<ChatMessage>): nat {
    if HasSystem(msgs) then 0 else 1
  }

  /** The messages handed to the language model: the system prompt in front
      when the history has no system message, and the last user message of
      the history tagged with the video path when the tag applies. */
  function PrepareMessages(msgs: seq<ChatMessage>, videoPath: Option<string>): (r: seq<ChatMessage>)
    ensures |r| == |msgs| + Offset(msgs)
    ensures TaggedCopy(msgs, r, Offset(msgs), videoPath)
    ensures !HasSystem(msgs) ==> r[0] == ChatMessage(SystemRole, SystemPrompt)
  {
    if HasSystem(msgs) then TagLastUser(msgs, videoPath)
    else
      var r := TagLastUser(WithSystemPrompt(msgs), videoPath);
      TagAfterPrompt(msgs, r, videoPath);
      r
  }

  /** A user message with no user message after it is the one `LastUser`
      finds. */
  lemma LastUserIs(msgs: seq<ChatMessage>, k: nat)
    requires k < |msgs| && msgs[k].role == UserRole
    requires forall j :: k < j < |msgs| ==> msgs[j].role != UserRole
    ensures LastUser(msgs) == Some(k)
  {
  }

  /** Putting a message that is not a user message in front shifts the
      last user index by one. */
  lemma LastUserAfterPrepend(m: ChatMessage, msgs: seq<ChatMessage>)
    requires m.role != UserRole
    ensures match LastUser(msgs)
            case None => LastUser([m] + msgs).None?
            case Some(k) => LastUser([m] + msgs) == Some(k + 1)
  {
    var w := [m] + msgs;
    match LastUser(msgs)
    case None =>
      forall j | 0 <= j < |w|
        ensures w[j].role != UserRole
      {
        if j > 0 {
          assert w[j] == msgs[j - 1];
        }
      }
    case Some(k) =>
      forall j | k + 1 < j < |w|
        ensures w[j].role != UserRole
      {
        assert w[j] == msgs[j - 1];
      }
      assert w[k + 1] == msgs[k];
      LastUserIs(w, k + 1);
  }

  /** Putting the system message in front shifts the last user index by one. */
  lemma LastUserShift(msgs: seq<ChatMessage>)
    requires !HasSystem(msgs)
    ensures var w := WithSystemPrompt(msgs);
            match LastUser(msgs)
            case None => LastUser(w).None?
            case Some(k) => LastUser(w) == Some(k + 1)
  {
    LastUserAfterPrepend(ChatMessage(SystemRole, SystemPrompt), msgs);
  }

  /** With a falsy path, or no user message, no content changes. */
  lemma PrepareWithoutTagKeepsContents(msgs: seq<ChatMessage>, videoPath: Option<string>)
    requires !Truthy(videoPath) || (forall k :: 0 <= k < |msgs| ==> msgs[k].role != UserRole)
    ensures PrepareMessages(msgs, videoPath) == WithSystemPrompt(msgs)
  {
    if Truthy(videoPath) {
      var w := WithSystemPrompt(msgs);
      assert forall k :: 0 <= k < |w| ==> w[k].role != UserRole by {
        if !HasSystem(msgs) {
          assert forall i :: 0 <= i < |msgs| ==> w[i + 1] == msgs[i];
        }
      }
    }
  }

  /** A match of `w` that starts before a separator character and ends after
      it would contain that character; so if `w` does not, a match in
      `a + [x] + b` lies wholly in `a` or wholly in `b`. */
  lemma {:induction false} ContainsAroundSeparator(a: string, x: char, b: string, w: string)
    requires forall k :: 0 <= k < |w| ==> w[k] != x
    requires Contains(a + [x] + b, w)
    ensures Contains(a, w) || Contains(b, w)
  {
    var s := a + [x] + b;
    var i :| 0 <= i <= |s| && OccursAt(s, w, i);
    assert s[i..i + |w|] == w;
    if i + |w| <= |a| {
      assert forall k :: i <= k < i + |w| ==> a[k] == s[k];
      assert a[i..i + |w|] == s[i..i + |w|];
      assert OccursAt(a, w, i);
    } else if i <= |a| {
      // the match would cover the separator, which `w` does not contain
      MatchCovers(s, w, i, |a|);
      assert false;
    } else {
      var j := i - |a| - 1;
      assert forall k :: j <= k < j + |w| ==> b[k] == s[k + |a| + 1];
      assert b[j..j + |w|] == s[i..i + |w|];
      assert OccursAt(b, w, j);
    }
  }

  /** Every position inside a match holds the matching character of `w`. */
  lemma MatchCovers(s: string, w: string, i: int, p: int)
    ensures OccursAt(s, w, i) && i <= p < i + |w| ==> w[p - i] == s[p]
  {
    if OccursAt(s, w, i) && i <= p < i + |w| {
      assert s[i..i + |w|][p - i] == s[p];
    }
  }

  /** The tag itself never contains `video_path`: a match in a tagged
      content lies in the content or in the path. */
  lemma {:induction false} TagAddsNoMarker(content: string, path: string)
    requires Contains(content + VideoTag(path), VideoPathMarker)
    ensures Contains(content, VideoPathMarker) || Contains(path, VideoPathMarker)
  {
    var w := VideoPathMarker;
    var head := "Video path:";
    assert content + VideoTag(path) == content + ['\n'] + (head + [' '] + path);
    ContainsAroundSeparator(content, '\n', head + [' '] + path, w);
    if Contains(head + [' '] + path, w) {
      ContainsAroundSeparator(head, ' ', path, w);
      forall i | 0 <= i <= |head|
        ensures !OccursAt(head, w, i)
      {
        if i + |w| <= |head| {
          assert head[i..i + |w|][0] == head[i] != w[0];
        }
      }
    }
  }

  /** A tagged copy keeps the last user message, shifted by the messages
      put in front when those are not user messages. */
  lemma TaggedCopyKeepsLastUser(msgs: seq<ChatMessage>, r: seq<ChatMessage>, d: nat, videoPath: Option<string>, k: nat)
    requires |r| == |msgs| + d && TaggedCopy(msgs, r, d, videoPath)
    requires forall j :: 0 <= j < d ==> r[j].role != UserRole
    requires LastUser(msgs) == Some(k)
    ensures LastUser(r) == Some(k + d)
  {
    forall j | k + d < j < |r|
      ensures r[j].role != UserRole
    {
      assert r[(j - d) + d].role == msgs[j - d].role;
    }
    LastUserIs(r, k + d);
  }

  /** Prepared messages always hold a system message. */
  lemma PreparedHasSystem(msgs: seq<ChatMessage>, videoPath: Option<string>)
    ensures HasSystem(PrepareMessages(msgs, videoPath))
  {
    var r := PrepareMessages(msgs, videoPath);
    if HasSystem(msgs) {
      var i :| 0 <= i < |msgs| && msgs[i].role == SystemRole;
      assert r[i].role == SystemRole;
    } else {
      assert r[0].role == SystemRole;
    }
  }

  /** In a tagged copy behind `d` non-user messages, the tag applies to
      the last user message when the path is non-empty and the message does
      not mention `video_path`. */
  lemma TaggedCopyTagsLastUser(msgs: seq<ChatMessage>, r: seq<ChatMessage>, d: nat, path: string, k: nat)
    requires |r| == |msgs| + d && TaggedCopy(msgs, r, d, Some(path))
    requires forall j :: 0 <= j < d ==> r[j].role != UserRole
    requires path != "" && LastUser(msgs) == Some(k) && !Contains(msgs[k].content, VideoPathMarker)
    ensures r[k + d].content == msgs[k].content + VideoTag(path)
    ensures LastUser(r) == Some(k + d)
  {
    assert TagApplies(msgs, k, Some(path));
    TaggedCopyKeepsLastUser(msgs, r, d, Some(path), k);
  }

  /** Two tagged copies in a row, the second without an offset, tag the
      last user message twice. */
  lemma TaggedTwice(msgs: seq<ChatMessage>, once: seq<ChatMessage>, twice: seq<ChatMessage>, d: nat, path: string, k: nat)
    requires |once| == |msgs| + d && TaggedCopy(msgs, once, d, Some(path))
    requires d == 0 || (d == 1 && once[0].role == SystemRole)
    requires |twice| == |once| && TaggedCopy(once, twice, 0, Some(path))
    requires path != "" && !Contains(path, VideoPathMarker)
    requires LastUser(msgs) == Some(k) && !Contains(msgs[k].content, VideoPathMarker)
    ensures once[k + d].content == msgs[k].content + VideoTag(path)
    ensures twice[k + d].content == msgs[k].content + VideoTag(path) + VideoTag(path)
    ensures twice != once
  {
    TaggedCopyTagsLastUser(msgs, once, d, path, k);
    if Contains(once[k + d].content, VideoPathMarker) {
      TagAddsNoMarker(msgs[k].content, path);
    }
    TaggedCopyTagsLastUser(once, twice, 0, path, k + d);
    assert |twice[k + d].content| > |once[k + d].content|;
  }

  /** Preparing twice tags twice: the appended text says "Video path", not
      `video_path`, so a second pass appends the tag again. The history may
      or may not have had a system message; `Offset(msgs)` is the prompt's
      offset. */
  lemma PrepareIsNotIdempotent(msgs: seq<ChatMessage>, path: string, k: nat)
    requires path != "" && !Contains(path, VideoPathMarker)
    requires LastUser(msgs) == Some(k)
    requires !Contains(msgs[k].content, VideoPathMarker)
    ensures var d := Offset(msgs);
            var once := PrepareMessages(msgs, Some(path));
            var twice := PrepareMessages(once, Some(path));
            && |once| == |msgs| + d && |twice| == |once|
            && once[k + d].content == msgs[k].content + VideoTag(path)
            && twice[k + d].content == msgs[k].content + VideoTag(path) + VideoTag(path)
            && twice != once
  {
    var once := PrepareMessages(msgs, Some(path));
    PreparedHasSystem(msgs, Some(path));
    TaggedTwice(msgs, once, PrepareMessages(once, Some(path)), Offset(msgs), path, k);
  }

  /** What the language model call yields: a reply, or an exception. */
  datatype LlmOutcome = Answered(content: string) | Raised(error: string)

  /** The fields of the graph state this node reads. */
  datatype GraphState = GraphState(messages: seq<ChatMessage>, videoPath: Option<string>)

  /** The state update the node returns. */
  datatype NodeUpdate = NodeUpdate(messages: seq<ChatMessage>, videoPath: string)

  function ErrorReply(error: string): string {
    "I encountered an error while processing your request: " + error
    + ". Please try again with a different approach."
  }

  /** The node: the model sees the prepared messages; success and failure
      both answer with exactly one assistant message, and the video path
      defaults to the empty string. */
  function CallLlmModel(state: GraphState, llm: seq<ChatMessage> -> LlmOutcome): (u: NodeUpdate)
    ensures |u.messages| == 1 && u.messages[0].role == AssistantRole
    ensures u.videoPath == state.videoPath.GetOr("")
    ensures state.videoPath.None? ==> u.videoPath == ""
    ensures llm(PrepareMessages(state.messages, state.videoPath)).Answered? ==>
              u.messages[0].content == llm(PrepareMessages(state.messages, state.videoPath)).content
    ensures llm(PrepareMessages(state.messages, state.videoPath)).Raised? ==>
              u.messages[0].content == ErrorReply(llm(PrepareMessages(state.messages, state.videoPath)).error)
  {
    var prepared := PrepareMessages(state.messages, state.videoPath);
    match llm(prepared)
    case Answered(content) =>
      NodeUpdate([ChatMessage(AssistantRole, content)], state.videoPath.GetOr(""))
    case Raised(error) =>
      NodeUpdate([ChatMessage(AssistantRole, ErrorReply(error))], state.videoPath.GetOr(""))
  }
}
