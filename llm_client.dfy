/**
 * The chat client (src/generation/llm_client.py): converts a list of role/content messages
 * into a Converse request and extracts the reply. The Converse and ConverseStream calls are
 * parameters: functions from the request sent to the service's reply.
 */
module LlmClient {
  import opened Wrappers
  import Config

  /** A message dict: `role` and `content`. */
  datatype Message = Message(role: string, content: string)

  /** A conversation entry in the Converse format: its role and its text blocks. */
  datatype Turn = Turn(role: string, content: seq<string>)

  /** `inferenceConfig`; the streaming request has no `topP`. */
  datatype InferenceConfig = InferenceConfig(temperature: real, maxTokens: int, topP: Option<real>)

  /** The arguments of `converse`/`converse_stream`; `system` is absent unless there is a system prompt. */
  datatype ConverseRequest = ConverseRequest(
    modelId: string, messages: seq<Turn>, inferenceConfig: InferenceConfig, system: Option<seq<string>>)

  /** The service's reply: the output message's content blocks (`None` for one without text), or a client error. */
  datatype Reply = Replied(blocks: seq<Option<string>>) | Refused(code: string)

  type Converse = ConverseRequest -> Reply

  /** A stream event; only content-block deltas carry text. */
  datatype StreamEvent = ContentBlockDelta(text: Option<string>) | OtherEvent

  /** The streaming reply: the event stream (`None` when the response has none), or a client error. */
  datatype StreamReply = Streamed(stream: Option<seq<StreamEvent>>) | StreamRefused(code: string)

  type ConverseStream = ConverseRequest -> StreamReply

  datatype LlmError =
    | ServiceError(code: string)   // a re-raised ClientError
    | NoContent                    // the output message has no content block
    | NoText                       // the first content block has no text

  /** The client's defaults, taken from the settings when it is created. */
  datatype Client = Client(modelId: string, temperature: real, maxTokens: int, topP: real)

  function NewClient(s: Config.Settings): (c: Client)
    ensures c.modelId == s.bedrockModelId && c.temperature == s.llmTemperature
    ensures c.maxTokens == s.llmMaxTokens && c.topP == s.llmTopP
  {
    Client(s.bedrockModelId, s.llmTemperature, s.llmMaxTokens, s.llmTopP)
  }

  // ---------------------------------------------------------------------------------------
  // Message conversion

  predicate IsSystem(m: Message) {
    m.role == "system"
  }

  /** `{"role": role, "content": [{"text": content}]}`. */
  function Wrap(m: Message): Turn {
    Turn(m.role, [m.content])
  }

  /** The system prompt after the loop has seen `ms`: each system message overwrites it. */
  function SystemPrompt(ms: seq<Message>): string {
    if ms == [] then ""
    else if IsSystem(ms[|ms| - 1]) then ms[|ms| - 1].content
    else SystemPrompt(ms[..|ms| - 1])
  }

  /** The conversation after the loop has seen `ms`: each non-system message is appended. */
  function Conversation(ms: seq<Message>): seq<Turn> {
    if ms == [] then []
    else Conversation(ms[..|ms| - 1]) + (if IsSystem(ms[|ms| - 1]) then [] else [Wrap(ms[|ms| - 1])])
  }

  /** The system prompt is the content of the last system message, or empty when there is none. */
  lemma {:induction false} LastSystemWins(ms: seq<Message>, j: int)
    requires -1 <= j < |ms|
    requires j >= 0 ==> IsSystem(ms[j])
    requires forall k :: j < k < |ms| ==> !IsSystem(ms[k])
    ensures SystemPrompt(ms) == if j >= 0 then ms[j].content else ""
  {
    if ms != [] && j < |ms| - 1 {
      var init := ms[..|ms| - 1];
      assert forall k :: j < k < |init| ==> init[k] == ms[k];
      LastSystemWins(init, j);
    }
  }

  /** Conversion works message by message: the conversation of `a + b` is that of `a` followed by that of `b`. */
  lemma {:induction false} ConversationAppend(a: seq<Message>, b: seq<Message>)
    ensures Conversation(a + b) == Conversation(a) + Conversation(b)
    decreases |b|
  {
    if b == [] {
      assert a + b == a;
    } else {
      var b' := b[..|b| - 1];
      assert (a + b)[..|a + b| - 1] == a + b';
      ConversationAppend(a, b');
    }
  }

  /**
   * One message: a system message contributes nothing, any other its wrapped form. With
   * `ConversationAppend` this makes the conversation exactly the non-system messages, each
   * wrapped, in their original order.
   */
  lemma {:induction false} ConversationOfOne(m: Message)
    ensures Conversation([m]) == if IsSystem(m) then [] else [Wrap(m)]
  {
    assert [m][..0] == [];
  }

  /** No system message enters the conversation. */
  lemma {:induction false} ConversationHasNoSystem(ms: seq<Message>)
    ensures forall t :: t in Conversation(ms) ==> t.role != "system" && |t.content| == 1
  {
    if ms != [] {
      ConversationHasNoSystem(ms[..|ms| - 1]);
    }
  }

  /** The conversion loop of `generate` and `generate_streaming`. */
  method ConvertMessages(ms: seq<Message>) returns (systemPrompt: string, conversation: seq<Turn>)
    ensures systemPrompt == SystemPrompt(ms) && conversation == Conversation(ms)
  {
    systemPrompt, conversation := "", [];
    for i := 0 to |ms|
      invariant systemPrompt == SystemPrompt(ms[..i]) && conversation == Conversation(ms[..i])
    {
      assert ms[..i + 1][..i] == ms[..i];
      if ms[i].role == "system" {
        systemPrompt := ms[i].content;
      } else {
        conversation := conversation + [Turn(ms[i].role, [ms[i].content])];
      }
    }
    assert ms[..|ms|] == ms;
  }

  // ---------------------------------------------------------------------------------------
  // Requests

  /** The request for `ms` with the given inference settings. */
  function RequestFor(client: Client, ms: seq<Message>, temperature: real, maxTokens: int, topP: Option<real>): ConverseRequest {
    var sp := SystemPrompt(ms);
    ConverseRequest(client.modelId, Conversation(ms), InferenceConfig(temperature, maxTokens, topP),
                    if sp != "" then Some([sp]) else None)
  }

  /** The request has a `system` field exactly when the system prompt is non-empty, and then it holds that prompt. */
  lemma RequestSystemField(client: Client, ms: seq<Message>, temperature: real, maxTokens: int, topP: Option<real>)
    ensures var req := RequestFor(client, ms, temperature, maxTokens, topP);
      && (req.system.Some? <==> SystemPrompt(ms) != "")
      && (req.system.Some? ==> req.system.value == [SystemPrompt(ms)])
  {
  }

  /** `response['output']['message']['content'][0]['text']`. */
  function ReplyText(reply: Reply): Result<string, LlmError> {
    match reply
    case Refused(code) => Failure(ServiceError(code))
    case Replied(blocks) =>
      if blocks == [] then Failure(NoContent)
      else match blocks[0]
        case None => Failure(NoText)
        case Some(t) => Success(t)
  }

  /**
   * `generate`: each inference parameter is the given value when there is one (0.0 included)
   * and the client's default otherwise; returns the reply text and the request sent.
   */
  method Generate(client: Client, converse: Converse, messages: seq<Message>,
                  temperature: Option<real>, maxTokens: Option<int>, topP: Option<real>)
    returns (r: Result<string, LlmError>, sent: ConverseRequest)
    ensures sent == RequestFor(client, messages, temperature.GetOr(client.temperature),
                               maxTokens.GetOr(client.maxTokens), Some(topP.GetOr(client.topP)))
    ensures temperature.Some? ==> sent.inferenceConfig.temperature == temperature.value
    ensures temperature.None? ==> sent.inferenceConfig.temperature == client.temperature
    ensures maxTokens.Some? ==> sent.inferenceConfig.maxTokens == maxTokens.value
    ensures maxTokens.None? ==> sent.inferenceConfig.maxTokens == client.maxTokens
    ensures sent.inferenceConfig.topP == Some(if topP.Some? then topP.value else client.topP)
    ensures r == ReplyText(converse(sent))
  {
    var temp := if temperature.Some? then temperature.value else client.temperature;
    var maxTok := if maxTokens.Some? then maxTokens.value else client.maxTokens;
    var topPValue := if topP.Some? then topP.value else client.topP;
    var systemPrompt, conversation := ConvertMessages(messages);
    sent := ConverseRequest(client.modelId, conversation, InferenceConfig(temp, maxTok, Some(topPValue)), None);
    if systemPrompt != "" {
      sent := sent.(system := Some([systemPrompt]));
    }
    var reply := converse(sent);
    match reply {
      case Refused(code) =>
        r := Failure(ServiceError(code));
      case Replied(blocks) =>
        if blocks == [] {
          r := Failure(NoContent);
        } else if blocks[0].None? {
          r := Failure(NoText);
        } else {
          r := Success(blocks[0].value);
        }
    }
  }

  /** The two messages `generate_with_context` sends. */
  function ContextMessages(systemPrompt: string, query: string, context: string): seq<Message> {
    [Message("system", systemPrompt), Message("user", "Context:\n" + context + "\n\nQuestion: " + query)]
  }

  /**
   * The request of `generate_with_context` carries exactly one user turn holding the context
   * and the question, and the system prompt as its `system` field when that is non-empty.
   */
  lemma ContextRequest(client: Client, systemPrompt: string, query: string, context: string,
                       temperature: real, maxTokens: int, topP: Option<real>)
    ensures var req := RequestFor(client, ContextMessages(systemPrompt, query, context), temperature, maxTokens, topP);
      && req.messages == [Turn("user", ["Context:\n" + context + "\n\nQuestion: " + query])]
      && req.system == (if systemPrompt != "" then Some([systemPrompt]) else None)
  {
    var ms := ContextMessages(systemPrompt, query, context);
    assert ms == [ms[0]] + [ms[1]];
    ConversationAppend([ms[0]], [ms[1]]);
    ConversationOfOne(ms[0]);
    ConversationOfOne(ms[1]);
    LastSystemWins(ms, 0);
  }

  /** `generate_with_context`: `generate` on the system and user messages, with only the temperature overridable. */
  method GenerateWithContext(client: Client, converse: Converse, systemPrompt: string, query: string, context: string,
                             temperature: Option<real>)
    returns (r: Result<string, LlmError>, sent: ConverseRequest)
    ensures sent == RequestFor(client, ContextMessages(systemPrompt, query, context),
                               temperature.GetOr(client.temperature), client.maxTokens, Some(client.topP))
    ensures r == ReplyText(converse(sent))
  {
    var messages := [Message("system", systemPrompt), Message("user", "Context:\n" + context + "\n\nQuestion: " + query)];
    r, sent := Generate(client, converse, messages, temperature, None, None);
  }

  // ---------------------------------------------------------------------------------------
  // Streaming

  /** The texts of the content-block deltas, in stream order. */
  function Deltas(events: seq<StreamEvent>): seq<string> {
    if events == [] then []
    else
      var last := events[|events| - 1];
      Deltas(events[..|events| - 1])
        + (if last.ContentBlockDelta? && last.text.Some? then [last.text.value] else [])
  }

  /** Deltas are taken event by event: those of `a + b` are those of `a` followed by those of `b`. */
  lemma {:induction false} DeltasAppend(a: seq<StreamEvent>, b: seq<StreamEvent>)
    ensures Deltas(a + b) == Deltas(a) + Deltas(b)
    decreases |b|
  {
    if b == [] {
      assert a + b == a;
    } else {
      var b' := b[..|b| - 1];
      assert (a + b)[..|a + b| - 1] == a + b';
      DeltasAppend(a, b');
    }
  }

  /** Only text deltas are yielded: a stream without them yields nothing. */
  lemma {:induction false} NoDeltasNoText(events: seq<StreamEvent>)
    requires forall i :: 0 <= i < |events| ==> !(events[i].ContentBlockDelta? && events[i].text.Some?)
    ensures Deltas(events) == []
  {
    if events != [] {
      NoDeltasNoText(events[..|events| - 1]);
    }
  }

  /** What the generator yields for a streaming reply. */
  function StreamText(reply: StreamReply): Result<seq<string>, LlmError> {
    match reply
    case StreamRefused(code) => Failure(ServiceError(code))
    case Streamed(None) => Success([])
    case Streamed(Some(events)) => Success(Deltas(events))
  }

  /**
   * `generate_streaming`: the request carries temperature and maxTokens but no topP; the
   * texts yielded are collected in order.
   */
  method GenerateStreaming(client: Client, converseStream: ConverseStream, messages: seq<Message>,
                           temperature: Option<real>, maxTokens: Option<int>)
    returns (r: Result<seq<string>, LlmError>, sent: ConverseRequest)
    ensures sent == RequestFor(client, messages, temperature.GetOr(client.temperature), maxTokens.GetOr(client.maxTokens), None)
    ensures sent.inferenceConfig.topP == None
    ensures r == StreamText(converseStream(sent))
  {
    var temp := if temperature.Some? then temperature.value else client.temperature;
    var maxTok := if maxTokens.Some? then maxTokens.value else client.maxTokens;
    var systemPrompt, conversation := ConvertMessages(messages);
    sent := ConverseRequest(client.modelId, conversation, InferenceConfig(temp, maxTok, None), None);
    if systemPrompt != "" {
      sent := sent.(system := Some([systemPrompt]));
    }
    var reply := converseStream(sent);
    if reply.StreamRefused? {
      return Failure(ServiceError(reply.code)), sent;
    }
    var yielded: seq<string> := [];
    if reply.stream.Some? {
      var events := reply.stream.value;
      for i := 0 to |events|
        invariant yielded == Deltas(events[..i])
      {
        assert events[..i + 1][..i] == events[..i];
        if events[i].ContentBlockDelta? && events[i].text.Some? {
          yielded := yielded + [events[i].text.value];
        }
      }
      assert events[..|events|] == events;
    }
    r := Success(yielded);
  }
}
