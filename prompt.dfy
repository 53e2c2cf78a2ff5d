/** The messages handed to the model runner and the two chat-prompt templates it
    builds from them, in the Llama 3 marker format (ModelRunner.cs). */
module Prompt {
  import opened Text

  /** ModelMessageType. */
  datatype ModelMessageType = User | Assistant

  /** ModelMessage: the text of one turn and who wrote it. */
  datatype ModelMessage = ModelMessage(text: string, messageType: ModelMessageType)

  /** Enum.ToString(): the name the member is declared with. */
  function TypeName(t: ModelMessageType): string {
    match t
    case User => "User"
    case Assistant => "Assistant"
  }

  /** The role written into a header: `Type.ToString().ToLower()`. */
  function RoleTag(t: ModelMessageType): string {
    ToLower(TypeName(t))
  }

  lemma UserTag()
    ensures RoleTag(User) == "user"
  {
    var user := ToLower("User");
    assert user[0] == 'u' && user[1] == 's' && user[2] == 'e' && user[3] == 'r';
  }

  lemma AssistantTag()
    ensures RoleTag(Assistant) == "assistant"
  {
    var assistant := ToLower("Assistant");
    assert assistant[0] == 'a' && assistant[1] == 's' && assistant[2] == 's';
    assert assistant[3] == 'i' && assistant[4] == 's' && assistant[5] == 't';
    assert assistant[6] == 'a' && assistant[7] == 'n' && assistant[8] == 't';
  }

  /** The role tags are the lower-case names, and each names one role only. */
  lemma RoleTags(t: ModelMessageType)
    ensures RoleTag(User) == "user" && RoleTag(Assistant) == "assistant"
    ensures RoleTag(t) == "user" <==> t == User
    ensures RoleTag(t) == "assistant" <==> t == Assistant
  {
    UserTag();
    AssistantTag();
  }

  const BeginOfText := "<|begin_of_text|>"
  const StartHeader := "<|start_header_id|>"
  const EndHeader := "<|end_header_id|>"
  const EndOfTurn := "<|eot_id|>"
  /** What `\n` stands for inside a C# verbatim (`$@"..."`) string: a backslash and an 'n'. */
  const VerbatimNewline := "\\n"
  /** What `\n` stands for inside an ordinary `$"..."` string: one line feed. */
  const Newline := "\n"

  /** The opening of both templates: the system header and the system prompt. */
  function SystemSegment(systemPrompt: string): string {
    BeginOfText + StartHeader + "system" + EndHeader + VerbatimNewline + systemPrompt + EndOfTurn
  }

  /** The segment the history template writes for one message. */
  function Segment(m: ModelMessage): string {
    StartHeader + RoleTag(m.messageType) + EndHeader + Newline + m.text + EndOfTurn
  }

  /** The open assistant header that closes the history template. */
  const AssistantHeader := StartHeader + "assistant" + EndHeader

  /** The segments of a history, one per message, in order. */
  function Segments(history: seq<ModelMessage>): string {
    if history == [] then []
    else Segments(history[..|history| - 1]) + Segment(history[|history| - 1])
  }

  /** The prompt of the history overload of InferStreaming. */
  function HistoryPrompt(systemPrompt: string, history: seq<ModelMessage>): string {
    SystemSegment(systemPrompt) + Segments(history) + AssistantHeader
  }

  /** The prompt of the single-turn overload of InferStreaming: one verbatim string,
      so every `\n` in it is a backslash and an 'n', the last one included. */
  function SingleTurnPrompt(systemPrompt: string, userPrompt: string): string {
    BeginOfText + StartHeader + "system" + EndHeader + VerbatimNewline + systemPrompt + EndOfTurn
    + StartHeader + "user" + EndHeader + VerbatimNewline + userPrompt + EndOfTurn
    + StartHeader + "assistant" + EndHeader + VerbatimNewline
  }

  /** The history overload's prompt-building loop: the system segment, one segment
      per message appended in a foreach loop, then the assistant header. The user
      prompt is accepted and not used. */
  method BuildHistoryPrompt(systemPrompt: string, history: seq<ModelMessage>, userPrompt: string)
    returns (prompt: string)
    ensures prompt == HistoryPrompt(systemPrompt, history)
  {
    prompt := SystemSegment(systemPrompt);
    for i := 0 to |history|
      invariant prompt == SystemSegment(systemPrompt) + Segments(history[..i])
    {
      var message := history[i];
      assert history[..i + 1][..i] == history[..i];
      AppendAssoc(SystemSegment(systemPrompt), Segments(history[..i]), Segment(message));
      prompt := prompt + Segment(message);
    }
    assert history[..|history|] == history;
    prompt := prompt + AssistantHeader;
  }

  /** The segments of two histories one after the other are the segments of the
      joined history. */
  lemma {:induction false} SegmentsAppend(a: seq<ModelMessage>, b: seq<ModelMessage>)
    ensures Segments(a + b) == Segments(a) + Segments(b)
    decreases |b|
  {
    if b == [] {
      assert a + b == a;
    } else {
      var b' := b[..|b| - 1];
      assert (a + b)[..|a + b| - 1] == a + b';
      SegmentsAppend(a, b');
      AppendAssoc(Segments(a), Segments(b'), Segment(b[|b| - 1]));
    }
  }

  /** Message i contributes exactly its own segment, after those of the messages
      before it and before those of the messages after it. */
  lemma SegmentAt(history: seq<ModelMessage>, i: nat)
    requires i < |history|
    ensures Segments(history) == Segments(history[..i]) + Segment(history[i]) + Segments(history[i + 1..])
  {
    var before, x, after := history[..i], history[i], history[i + 1..];
    SplitAt(history, i);
    SegmentsAppend(before + [x], after);
    assert Segments(before + [x]) == Segments(before) + Segment(x);
  }

  /** The history prompt opens with the system segment, holds the messages' segments
      in order, and ends with the assistant header and no new line after it. */
  lemma HistoryPromptLayout(systemPrompt: string, history: seq<ModelMessage>)
    ensures var p := HistoryPrompt(systemPrompt, history);
      && |p| == |SystemSegment(systemPrompt)| + |Segments(history)| + |AssistantHeader|
      && p[..|SystemSegment(systemPrompt)|] == SystemSegment(systemPrompt)
      && p[|SystemSegment(systemPrompt)|..|p| - |AssistantHeader|] == Segments(history)
      && p[|p| - |AssistantHeader|..] == AssistantHeader
      && p[|p| - 1] == '>'
  {
  }

  /** Appending a message to the history inserts exactly its segment in front of the
      closing assistant header; everything before stays as it was. */
  lemma AppendMessage(systemPrompt: string, history: seq<ModelMessage>, m: ModelMessage)
    ensures var before := HistoryPrompt(systemPrompt, history);
            var body := before[..|before| - |AssistantHeader|];
      HistoryPrompt(systemPrompt, history + [m]) == body + Segment(m) + AssistantHeader
  {
    var head := SystemSegment(systemPrompt) + Segments(history);
    var before := HistoryPrompt(systemPrompt, history);
    assert before[..|before| - |AssistantHeader|] == head;
    assert (history + [m])[..|history + [m]| - 1] == history;
    AppendAssoc(SystemSegment(systemPrompt), Segments(history), Segment(m));
  }

  /** With no history the prompt is the system segment followed by the assistant header. */
  lemma EmptyHistoryPrompt(systemPrompt: string)
    ensures HistoryPrompt(systemPrompt, []) == SystemSegment(systemPrompt) + AssistantHeader
  {
  }

  /** The single-turn template: the system segment, a user segment whose new line is
      verbatim, and the assistant header followed by a verbatim new line. */
  lemma SingleTurnLayout(systemPrompt: string, userPrompt: string)
    ensures SingleTurnPrompt(systemPrompt, userPrompt)
      == SystemSegment(systemPrompt)
         + StartHeader + "user" + EndHeader + VerbatimNewline + userPrompt + EndOfTurn
         + AssistantHeader + VerbatimNewline
    ensures |SingleTurnPrompt(systemPrompt, userPrompt)| == |systemPrompt| + |userPrompt| + 170
  {
  }

  /** The two overloads disagree on a one-message conversation: the single-turn
      template writes the user header's new line and the final one verbatim. */
  lemma SingleTurnIsNotOneMessageHistory(systemPrompt: string, userPrompt: string)
    ensures |SingleTurnPrompt(systemPrompt, userPrompt)|
         == |HistoryPrompt(systemPrompt, [ModelMessage(userPrompt, User)])| + 3
    ensures SingleTurnPrompt(systemPrompt, userPrompt) != HistoryPrompt(systemPrompt, [ModelMessage(userPrompt, User)])
  {
    RoleTags(User);
    assert Segments([ModelMessage(userPrompt, User)]) == Segment(ModelMessage(userPrompt, User));
  }
}
