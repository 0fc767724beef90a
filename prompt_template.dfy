/**
 * The prompt texts (src/generation/prompt_template.py): three system prompts, the user
 * prompt template and the message list built from them. The template is held split at its
 * replacement fields; `Format` is `str.format` with keyword arguments over such a template.
 */
module PromptTemplate {
  import opened Wrappers
  import LlmClient

  /** The first line of the system prompt names the assistant; the rest gives its rules and answer format. */
  const SystemPrompt := SystemPromptOpening + SystemPromptRules

  const SystemPromptOpening := "You are C-AIRA (Context-Aware Incident Response Assistant), "

  const SystemPromptRules := "an expert IT support assistant specializing in enterprise incident resolution.\n\nSTRICT OPERATIONAL RULES:\n1. Base ALL answers ONLY on the provided context documents\n2. If the context doesn't contain relevant information, clearly state: \"I don't have enough information in the knowledge base to answer this question.\"\n3. Never speculate, assume, or add information not present in the context\n4. Provide clear, step-by-step remediation instructions when available\n5. Always cite the source document for each recommendation\n6. Use professional, clear language appropriate for IT professionals\n\nRESPONSE FORMAT:\nWhen providing incident resolution guidance, structure your response as follows:\n\n1. **Incident Summary**: Brief description of the issue based on the query\n2. **Root Cause** (if available in context): Explain what's causing the problem\n3. **Resolution Steps**: Numbered, actionable steps to resolve the issue\n4. **Additional Notes**: Any warnings, prerequisites, or follow-up actions\n5. **Sources**: List all source documents referenced\n\nTONE AND STYLE:\n- Professional and concise\n- Action-oriented\n- Technically accurate\n- Empathetic to the urgency of incidents\n- Clear and unambiguous\n\nRemember: Accuracy is more important than completeness. If you're unsure, say so."

  const ConciseSystemPrompt := "You are C-AIRA, an IT incident response assistant. Provide concise, actionable solutions based strictly on the provided context. If information is not in the context, say so. Always cite sources."

  const DetailedSystemPrompt := "You are C-AIRA (Context-Aware Incident Response Assistant), a senior-level IT support specialist with expertise in troubleshooting complex enterprise systems.\n\nYour role is to help IT teams resolve operational incidents by:\n- Analyzing incident descriptions and log data\n- Identifying root causes from historical patterns\n- Providing detailed, step-by-step resolution procedures\n- Recommending preventive measures\n\nCRITICAL CONSTRAINTS:\n- Only use information from the provided context documents\n- Never hallucinate or invent solutions\n- If context is insufficient, explicitly request more information\n- Cite specific source documents for every recommendation\n- Prioritize safety and data integrity in all guidance\n\nRESPONSE STRUCTURE:\n1. Incident Classification\n2. Root Cause Analysis\n3. Immediate Actions (if urgent)\n4. Detailed Resolution Steps\n5. Verification Procedures\n6. Prevention Recommendations\n7. Source References\n\nMaintain a professional, calm tone even for critical incidents."

  /** A piece of a format string: literal text or a `{name}` replacement field. */
  datatype Piece = Literal(text: string) | Field(name: string)

  /** The fixed instructions that close the user prompt. */
  const ClosingText := "\n\nPlease provide a detailed incident resolution response based ONLY on the context information above. Follow the response format specified in your system instructions."

  /** The user prompt template, `{context}` first and `{query}` second. */
  const UserPromptTemplate: seq<Piece> := [
    Literal("Context Information:\n"), Field("context"),
    Literal("\n\nUser Query:\n"), Field("query"),
    Literal(ClosingText)]

  /** The text one piece contributes, or `None` for a field without an argument. */
  function Fill(p: Piece, args: map<string, string>): Option<string> {
    match p
    case Literal(t) => Some(t)
    case Field(n) => if n in args then Some(args[n]) else None
  }

  /** `template.format(**args)`: the first field whose name is not an argument raises `KeyError` with that name. */
  function Format(template: seq<Piece>, args: map<string, string>): Result<string, string> {
    if template == [] then Success("")
    else
      match Fill(template[0], args)
      case None => Failure(template[0].name)
      case Some(h) =>
        match Format(template[1..], args)
        case Failure(n) => Failure(n)
        case Success(rest) => Success(h + rest)
  }

  /** Every field of the template has an argument. */
  predicate Covers(template: seq<Piece>, args: map<string, string>) {
    forall i :: 0 <= i < |template| && template[i].Field? ==> template[i].name in args
  }

  /**
   * Formatting succeeds exactly when every field has an argument; when it fails, the name it
   * reports is a field of the template that has none.
   */
  lemma {:induction false} FormatFails(template: seq<Piece>, args: map<string, string>)
    ensures Format(template, args).Success? <==> Covers(template, args)
    ensures Format(template, args).Failure? ==>
      exists i :: 0 <= i < |template| && template[i] == Field(Format(template, args).error) && template[i].name !in args
  {
    if template != [] {
      var rest := template[1..];
      FormatFails(rest, args);
      assert forall i :: 0 < i < |template| ==> template[i] == rest[i - 1];
      if Format(template, args).Failure? && Fill(template[0], args).Some? {
        var i :| 0 <= i < |rest| && rest[i] == Field(Format(rest, args).error) && rest[i].name !in args;
        assert template[i + 1] == rest[i];
      }
    }
  }

  /** `create_system_prompt`. */
  function CreateSystemPrompt(): string {
    SystemPrompt
  }

  /** `create_user_prompt`: the template with `context` and `query` substituted. */
  function CreateUserPrompt(query: string, context: string): string {
    match Format(UserPromptTemplate, map["query" := query, "context" := context])
    case Success(p) => p
    case Failure(_) => ""
  }

  /** The prompt is the fixed header, the context, the query heading, the query and the fixed closing text, in that order. */
  lemma UserPromptShape(query: string, context: string)
    ensures CreateUserPrompt(query, context)
         == "Context Information:\n" + context + "\n\nUser Query:\n" + query + ClosingText
  {
    var args := map["query" := query, "context" := context];
    var t := UserPromptTemplate;
    assert t[1..][1..][1..][1..][1..] == [];
    assert Format(t[1..][1..][1..][1..], args) == Success(ClosingText + "");
    assert Format(t[1..][1..][1..], args) == Success(query + (ClosingText + ""));
    assert Format(t[1..][1..], args) == Success("\n\nUser Query:\n" + (query + (ClosingText + "")));
    assert Format(t[1..], args) == Success(context + ("\n\nUser Query:\n" + (query + (ClosingText + ""))));
  }

  lemma SystemPromptNonEmpty()
    ensures SystemPrompt != ""
  {
    assert |SystemPromptOpening| > 0;
  }

  /** `create_messages`: the system message, then the user message. */
  function CreateMessages(query: string, context: string): (ms: seq<LlmClient.Message>)
    ensures |ms| == 2
    ensures ms[0] == LlmClient.Message("system", SystemPrompt)
    ensures ms[1] == LlmClient.Message("user", CreateUserPrompt(query, context))
  {
    [LlmClient.Message("system", CreateSystemPrompt()), LlmClient.Message("user", CreateUserPrompt(query, context))]
  }

  /**
   * Sent through `generate`, these messages give a request whose `system` field is the system
   * prompt and whose conversation is the single user turn holding the user prompt.
   */
  lemma MessagesRequest(client: LlmClient.Client, query: string, context: string,
                        temperature: real, maxTokens: int, topP: Option<real>)
    ensures var req := LlmClient.RequestFor(client, CreateMessages(query, context), temperature, maxTokens, topP);
      && req.system == Some([SystemPrompt])
      && req.messages == [LlmClient.Turn("user", [CreateUserPrompt(query, context)])]
  {
    var ms := CreateMessages(query, context);
    assert ms == [ms[0]] + [ms[1]];
    LlmClient.ConversationAppend([ms[0]], [ms[1]]);
    LlmClient.ConversationOfOne(ms[0]);
    LlmClient.ConversationOfOne(ms[1]);
    LlmClient.LastSystemWins(ms, 0);
    SystemPromptNonEmpty();
  }

  /** `get_prompt_variant`: the named prompt, the default one for any other name. */
  function GetPromptVariant(variant: string): (p: string)
    ensures variant == "default" ==> p == SystemPrompt
    ensures variant == "concise" ==> p == ConciseSystemPrompt
    ensures variant == "detailed" ==> p == DetailedSystemPrompt
    ensures variant !in {"default", "concise", "detailed"} ==> p == SystemPrompt
  {
    var variants := map["default" := SystemPrompt, "concise" := ConciseSystemPrompt, "detailed" := DetailedSystemPrompt];
    if variant in variants then variants[variant] else SystemPrompt
  }
}
