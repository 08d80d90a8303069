/**
 * Prompt assembly (pkg/model/template.go): choosing the prompt template for a
 * request and turning a list of chat messages into one prompt string.
 *
 * The template engines (Go text/template and Jinja), the model-directory file
 * check and json.Marshal are outside calls; they are fields of ModelLoader or
 * parameters of arrow type, so every property below holds for every engine.
 */
module Templates {
  import opened Wrappers
  import opened Config
  import opened Strings

  datatype TemplateType =
    | ChatPromptTemplate
    | ChatMessageTemplate
    | CompletionPromptTemplate
    | EditPromptTemplate
    | FunctionsPromptTemplate

  /** A tool/function definition offered to the model (functions.Function). */
  datatype FunctionDef = FunctionDef(name: string, description: string, parameters: string)

  /** The variables a prompt template sees. */
  datatype PromptTemplateData = PromptTemplateData(
    systemPrompt: string,
    /** set by chat when a system message was already rendered into the input */
    suppressSystemPrompt: bool,
    input: string,
    instruction: string,
    functions: seq<FunctionDef>,
    messageIndex: int)

  datatype FunctionCall = FunctionCall(name: string, arguments: string)

  datatype ToolCall = ToolCall(index: int, id: string, kind: string, call: FunctionCall)

  /** What a message carries as its call: its function call or its tool calls. */
  datatype CallValue = FunctionCallValue(call: FunctionCall) | ToolCallsValue(calls: seq<ToolCall>)

  /** The variables a chat-message template sees. */
  datatype ChatMessageTemplateData = ChatMessageTemplateData(
    systemPrompt: string,
    role: string,
    roleName: string,
    functionName: string,
    content: string,
    messageIndex: int,
    isFunction: bool,
    functionCall: Option<CallValue>,
    lastMessage: bool)

  /** One entry of the Jinja `messages` list: the chat-message variables without the system prompt. */
  datatype JinjaMessage = JinjaMessage(
    role: string,
    roleName: string,
    content: string,
    functionCall: Option<CallValue>,
    functionName: string,
    lastMessage: bool,
    isFunction: bool,
    messageIndex: int)

  /** An element of the Jinja `messages` slice; NilEntry is a nil map. */
  datatype JinjaEntry = NilEntry | Entry(message: JinjaMessage)

  /** The Jinja conversation for a plain prompt: `system_prompt` and `content`. */
  datatype JinjaPromptData = JinjaPromptData(systemPrompt: string, content: string)

  /** A chat message of a request (schema.Message). `hasContent` is `Content != nil`;
      `toolCalls` keeps Go's distinction between a nil and an empty slice. */
  datatype Message = Message(
    role: string,
    name: string,
    hasContent: bool,
    stringContent: string,
    functionCall: Option<FunctionCall>,
    toolCalls: Option<seq<ToolCall>>)

  /** The model loader's outside collaborators. */
  datatype ModelLoader = ModelLoader(
    /** does a file of this name exist in the model directory */
    existsInModelPath: string -> bool,
    /** the text/template engine on prompt variables */
    evaluateTemplate: (TemplateType, string, PromptTemplateData) -> Result<string, string>,
    /** the text/template engine on chat-message variables */
    evaluateChatMessageTemplate: (string, ChatMessageTemplateData) -> Result<string, string>,
    /** the Jinja engine on a prompt conversation */
    evaluateJinjaTemplate: (TemplateType, string, JinjaPromptData) -> Result<string, string>,
    /** the Jinja engine on a chat conversation (always as ChatMessageTemplate) */
    evaluateJinjaChat: (string, seq<JinjaEntry>) -> Result<string, string>)

  /** json.Marshal of a call: None stands for a marshalling error. */
  type Marshal = CallValue -> Option<string>

  // ---------------------------------------------------------------------------
  // Template selection
  // ---------------------------------------------------------------------------

  /** The template a configuration names for each prompt type; a chat-message
      template has no entry here, it is only used message by message. */
  function ConfigTemplate(t: TemplateType, tc: TemplateConfig): string {
    match t
    case CompletionPromptTemplate => tc.completion
    case EditPromptTemplate => tc.edit
    case ChatPromptTemplate => tc.chat
    case FunctionsPromptTemplate => tc.functions
    case ChatMessageTemplate => ""
  }

  /** The default: the model's own `<model>.tmpl`, if the model directory has one. */
  function ModelFileTemplate(ml: ModelLoader, config: BackendConfig): string {
    if ml.existsInModelPath(config.model + ".tmpl") then config.model else ""
  }

  /** The template EvaluateTemplateForPrompt uses; "" means none. */
  function TemplateName(ml: ModelLoader, t: TemplateType, config: BackendConfig): (name: string)
    ensures ConfigTemplate(t, config.templateConfig) != "" ==> name == ConfigTemplate(t, config.templateConfig)
    ensures ConfigTemplate(t, config.templateConfig) == "" ==> name == ModelFileTemplate(ml, config)
    ensures name == "" || name == config.model || name == ConfigTemplate(t, config.templateConfig)
  {
    var template := ModelFileTemplate(ml, config);
    var tc := config.templateConfig;
    match t
    case CompletionPromptTemplate => if tc.completion != "" then tc.completion else template
    case EditPromptTemplate => if tc.edit != "" then tc.edit else template
    case ChatPromptTemplate => if tc.chat != "" then tc.chat else template
    case FunctionsPromptTemplate => if tc.functions != "" then tc.functions else template
    case ChatMessageTemplate => template
  }

  /** The Jinja engine sees only the system prompt and the input. */
  function EvaluateJinjaTemplateForPrompt(ml: ModelLoader, t: TemplateType, templateName: string, data: PromptTemplateData): Result<string, string> {
    ml.evaluateJinjaTemplate(t, templateName, JinjaPromptData(data.systemPrompt, data.input))
  }

  /** Rendering with a chosen template: the Jinja engine when the configuration enables it,
      the text/template engine otherwise. */
  function RenderWith(ml: ModelLoader, t: TemplateType, config: BackendConfig, name: string, data: PromptTemplateData): Result<string, string> {
    if config.templateConfig.jinjaTemplate then EvaluateJinjaTemplateForPrompt(ml, t, name, data)
    else ml.evaluateTemplate(t, name, data)
  }

  /** Renders `data` with the selected template; with no template, `data.input` passes through. */
  function EvaluateTemplateForPrompt(ml: ModelLoader, t: TemplateType, config: BackendConfig, data: PromptTemplateData): (r: Result<string, string>)
    ensures !ml.existsInModelPath(config.model + ".tmpl") && ConfigTemplate(t, config.templateConfig) == "" ==> r == Success(data.input)
    ensures config.model == "" && ConfigTemplate(t, config.templateConfig) == "" ==> r == Success(data.input)
    ensures r.Failure? ==> TemplateName(ml, t, config) != ""
  {
    var template := TemplateName(ml, t, config);
    if template == "" then Success(data.input)
    else RenderWith(ml, t, config, template, data)
  }

  /** A per-type configuration template wins over the model's `.tmpl` file, whether
      or not that file exists. */
  lemma ConfigTemplateOverridesModelFile(ml: ModelLoader, exists': string -> bool, t: TemplateType, config: BackendConfig, data: PromptTemplateData)
    requires ConfigTemplate(t, config.templateConfig) != ""
    ensures EvaluateTemplateForPrompt(ml, t, config, data) == RenderWith(ml, t, config, ConfigTemplate(t, config.templateConfig), data)
    ensures EvaluateTemplateForPrompt(ml, t, config, data) == EvaluateTemplateForPrompt(ml.(existsInModelPath := exists'), t, config, data)
  {
  }

  /** Without a configuration template, the model's `.tmpl` file is used when it exists. */
  lemma ModelFileIsTheDefault(ml: ModelLoader, t: TemplateType, config: BackendConfig, data: PromptTemplateData)
    requires ConfigTemplate(t, config.templateConfig) == ""
    requires config.model != "" && ml.existsInModelPath(config.model + ".tmpl")
    ensures EvaluateTemplateForPrompt(ml, t, config, data) == RenderWith(ml, t, config, config.model, data)
  {
  }

  /** A chat-message template cannot be overridden by any per-type configuration entry. */
  lemma ChatMessageTemplateHasNoOverride(ml: ModelLoader, config: BackendConfig, tc: TemplateConfig, data: PromptTemplateData)
    requires tc.jinjaTemplate == config.templateConfig.jinjaTemplate
    ensures EvaluateTemplateForPrompt(ml, ChatMessageTemplate, config, data)
         == EvaluateTemplateForPrompt(ml, ChatMessageTemplate, config.(templateConfig := tc), data)
  {
  }

  /** The Jinja prompt engine sees nothing of the prompt variables but the system prompt and the input. */
  lemma JinjaPromptSeesSystemPromptAndInputOnly(ml: ModelLoader, t: TemplateType, name: string, data: PromptTemplateData, data': PromptTemplateData)
    requires data.systemPrompt == data'.systemPrompt && data.input == data'.input
    ensures EvaluateJinjaTemplateForPrompt(ml, t, name, data) == EvaluateJinjaTemplateForPrompt(ml, t, name, data')
  {
  }

  // ---------------------------------------------------------------------------
  // Per-message rendering
  // ---------------------------------------------------------------------------

  const AssistantFunctionCallRole := "assistant_function_call"

  predicate HasCall(m: Message) {
    m.functionCall.Some? || m.toolCalls.Some?
  }

  /** Content exists when Content is non-nil and its string form is non-empty. */
  predicate ContentExists(m: Message) {
    m.hasContent && m.stringContent != ""
  }

  /** The role used to render a message: an assistant message carrying a call switches
      to `assistant_function_call` exactly when that role has a non-empty mapping. */
  function EffectiveRole(m: Message, roles: map<string, string>): (role: string)
    ensures role == m.role || role == AssistantFunctionCallRole
    ensures role != m.role <==> HasCall(m) && m.role == "assistant" && RoleFor(roles, AssistantFunctionCallRole) != ""
  {
    if HasCall(m) && m.role == "assistant" && RoleFor(roles, AssistantFunctionCallRole) != ""
    then AssistantFunctionCallRole
    else m.role
  }

  /** The `FunctionCall` template variable: non-empty tool calls take precedence. */
  function CallPayload(m: Message): (c: Option<CallValue>)
    ensures m.toolCalls.Some? && |m.toolCalls.value| > 0 ==> c == Some(ToolCallsValue(m.toolCalls.value))
    ensures !(m.toolCalls.Some? && |m.toolCalls.value| > 0) && m.functionCall.Some? ==> c == Some(FunctionCallValue(m.functionCall.value))
    ensures c.None? <==> m.functionCall.None? && (m.toolCalls.None? || |m.toolCalls.value| == 0)
  {
    if m.toolCalls.Some? && |m.toolCalls.value| > 0 then Some(ToolCallsValue(m.toolCalls.value))
    else if m.functionCall.Some? then Some(FunctionCallValue(m.functionCall.value))
    else None
  }

  function MessageTemplateData(config: BackendConfig, m: Message, roleName: string, r: string, index: nat, total: nat): ChatMessageTemplateData {
    ChatMessageTemplateData(
      systemPrompt := config.systemPrompt,
      role := r,
      roleName := roleName,
      functionName := m.name,
      content := m.stringContent,
      messageIndex := index,
      isFunction := config.grammar != "" && index == total - 1,
      functionCall := CallPayload(m),
      lastMessage := index == total - 1)
  }

  /** The chat-message template's output, when there is a template and it did not fail. */
  function TemplatedMessage(ml: ModelLoader, config: BackendConfig, m: Message, index: nat, total: nat): Option<string> {
    var role := EffectiveRole(m, config.roles);
    var name := config.templateConfig.chatMessage;
    if name == "" then None
    else
      match ml.evaluateChatMessageTemplate(name, MessageTemplateData(config, m, role, RoleFor(config.roles, role), index, total))
      case Success(s) => Some(s)
      case Failure(_) => None
  }

  /** The text a marshalled call contributes: prefixed by the role text and a space when there is one. */
  function CallLine(r: string, j: string): string {
    if r != "" then r + " " + j else j
  }

  /** The marshalAnyRole (non-empty `r`) and marshalAny (empty `r`) closures: adds a marshalled
      call to the content, after a newline when the message has content, in place of the
      content otherwise; a failed marshal adds nothing. */
  function AppendCall(content: string, marshalled: Option<string>, r: string, contentExists: bool): string {
    match marshalled
    case None => content
    case Some(j) => if contentExists then content + "\n" + CallLine(r, j) else CallLine(r, j)
  }

  /** What the message-level fallback renders for a message whose role text is `r`. */
  function FallbackContent(m: Message, r: string, marshal: Marshal): string {
    var base := if ContentExists(m) then r + m.stringContent else "";
    var withFunctionCall :=
      if m.functionCall.Some? then AppendCall(base, marshal(FunctionCallValue(m.functionCall.value)), r, ContentExists(m))
      else base;
    if m.toolCalls.Some? then AppendCall(withFunctionCall, marshal(ToolCallsValue(m.toolCalls.value)), r, ContentExists(m))
    else withFunctionCall
  }

  datatype MessageOutcome = Skipped | Emitted(content: string, suppressesSystemPrompt: bool) {
    predicate SuppressesSystemPrompt() {
      Emitted? && suppressesSystemPrompt
    }
  }

  /** How one message is rendered: dropped when its chat-message template yields "",
      the template's text when non-empty, the fallback otherwise (which flags a system
      message with content as already shown). */
  function RenderMessage(ml: ModelLoader, marshal: Marshal, config: BackendConfig, m: Message, index: nat, total: nat): MessageOutcome {
    var role := EffectiveRole(m, config.roles);
    var templated := TemplatedMessage(ml, config, m, index, total);
    if templated == Some("") then Skipped
    else if templated.Some? then Emitted(templated.value, false)
    else Emitted(FallbackContent(m, RoleFor(config.roles, role), marshal), ContentExists(m) && role == "system")
  }

  /** The fallback is taken when there is no chat-message template or it failed. */
  predicate TakesFallbackPath(ml: ModelLoader, config: BackendConfig, m: Message, index: nat, total: nat) {
    TemplatedMessage(ml, config, m, index, total).None?
  }

  /** The message-level fallback of the message loop: content and calls rendered in
      place, with the role text when the role has one. */
  method FallbackMessageContent(m: Message, r: string, marshal: Marshal) returns (content: string)
    ensures content == FallbackContent(m, r, marshal)
  {
    var contentExists := m.hasContent && m.stringContent != "";
    content := "";
    if r != "" {
      if contentExists {
        content := r + m.stringContent;
      }
      if m.functionCall.Some? {
        content := AppendCall(content, marshal(FunctionCallValue(m.functionCall.value)), r, contentExists);
      }
      if m.toolCalls.Some? {
        content := AppendCall(content, marshal(ToolCallsValue(m.toolCalls.value)), r, contentExists);
      }
    } else {
      if contentExists {
        content := m.stringContent;
      }
      if m.functionCall.Some? {
        content := AppendCall(content, marshal(FunctionCallValue(m.functionCall.value)), "", contentExists);
      }
      if m.toolCalls.Some? {
        content := AppendCall(content, marshal(ToolCallsValue(m.toolCalls.value)), "", contentExists);
      }
    }
  }

  /** The body of the message loop of TemplateMessages, for one message. */
  method TemplateMessage(ml: ModelLoader, marshal: Marshal, config: BackendConfig, m: Message, index: nat, total: nat)
    returns (outcome: MessageOutcome)
    ensures outcome == RenderMessage(ml, marshal, config, m, index, total)
  {
    var content := "";
    var role := m.role;
    if (m.functionCall.Some? || m.toolCalls.Some?) && m.role == "assistant" {
      var roleFn := AssistantFunctionCallRole;
      var r := RoleFor(config.roles, roleFn);
      if r != "" {
        role := roleFn;
      }
    }
    assert role == EffectiveRole(m, config.roles);
    var r := RoleFor(config.roles, role);
    var contentExists := m.hasContent && m.stringContent != "";

    if config.templateConfig.chatMessage != "" {
      var chatMessageData := MessageTemplateData(config, m, role, r, index, total);
      var templated := ml.evaluateChatMessageTemplate(config.templateConfig.chatMessage, chatMessageData);
      if templated.Success? {
        if templated.value == "" {
          return Skipped;
        }
        content := templated.value;
      }
    }

    if content == "" {
      content := FallbackMessageContent(m, r, marshal);
      return Emitted(content, contentExists && role == "system");
    }
    return Emitted(content, false);
  }

  /** Without a chat-message template (or when it fails), a message without calls renders as
      its role text followed by its content, or as nothing when it has no content. */
  lemma FallbackPlainMessage(m: Message, r: string, marshal: Marshal)
    requires m.functionCall.None? && m.toolCalls.None?
    ensures ContentExists(m) ==> FallbackContent(m, r, marshal) == r + m.stringContent
    ensures ContentExists(m) && r == "" ==> FallbackContent(m, r, marshal) == m.stringContent
    ensures !ContentExists(m) ==> FallbackContent(m, r, marshal) == ""
  {
  }

  /** A function call is added as `r + " " + json` (just the json without role text), after a
      newline when the message has content. */
  lemma FallbackFunctionCall(m: Message, r: string, marshal: Marshal, j: string)
    requires m.functionCall.Some? && m.toolCalls.None?
    requires marshal(FunctionCallValue(m.functionCall.value)) == Some(j)
    ensures ContentExists(m) ==> FallbackContent(m, r, marshal) == r + m.stringContent + "\n" + CallLine(r, j)
    ensures !ContentExists(m) ==> FallbackContent(m, r, marshal) == CallLine(r, j)
    ensures r != "" ==> CallLine(r, j) == r + " " + j
  {
  }

  /** When a message without content carries both a function call and tool calls, the tool
      calls replace the function call rather than being added to it. */
  lemma FallbackToolCallsReplaceFunctionCall(m: Message, r: string, marshal: Marshal, j: string)
    requires !ContentExists(m) && m.functionCall.Some? && m.toolCalls.Some?
    requires marshal(ToolCallsValue(m.toolCalls.value)) == Some(j)
    ensures FallbackContent(m, r, marshal) == CallLine(r, j)
  {
  }

  /** A message is dropped exactly when its chat-message template produced blank output. */
  lemma BlankTemplatedMessageIsDropped(ml: ModelLoader, marshal: Marshal, config: BackendConfig, m: Message, index: nat, total: nat)
    ensures RenderMessage(ml, marshal, config, m, index, total).Skipped?
        <==> config.templateConfig.chatMessage != ""
             && ml.evaluateChatMessageTemplate(
                  config.templateConfig.chatMessage,
                  MessageTemplateData(config, m, EffectiveRole(m, config.roles), RoleFor(config.roles, EffectiveRole(m, config.roles)), index, total))
                == Success("")
  {
  }

  /** A message flags the system prompt as shown exactly when it is a system message with
      content that went through the fallback. */
  lemma MessageSuppressesIff(ml: ModelLoader, marshal: Marshal, config: BackendConfig, m: Message, index: nat, total: nat)
    ensures RenderMessage(ml, marshal, config, m, index, total).SuppressesSystemPrompt()
        <==> m.role == "system" && ContentExists(m) && TakesFallbackPath(ml, config, m, index, total)
  {
    var role := EffectiveRole(m, config.roles);
    assert role == "system" <==> m.role == "system";
  }

  // ---------------------------------------------------------------------------
  // The message list
  // ---------------------------------------------------------------------------

  /** The rendered strings of the first k messages, in order, skipped ones left out. */
  function RenderedMessages(ml: ModelLoader, marshal: Marshal, config: BackendConfig, messages: seq<Message>, k: nat): seq<string>
    requires k <= |messages|
  {
    if k == 0 then []
    else
      var prior := RenderedMessages(ml, marshal, config, messages, k - 1);
      match RenderMessage(ml, marshal, config, messages[k - 1], k - 1, |messages|)
      case Skipped => prior
      case Emitted(c, _) => prior + [c]
  }

  /** Some message among the first k flagged the system prompt as already shown. */
  predicate SuppressedBefore(ml: ModelLoader, marshal: Marshal, config: BackendConfig, messages: seq<Message>, k: nat)
    requires k <= |messages|
  {
    exists i :: 0 <= i < k && RenderMessage(ml, marshal, config, messages[i], i, |messages|).SuppressesSystemPrompt()
  }

  /** The system prompt is suppressed iff some system message with content went through the fallback. */
  lemma SystemPromptSuppressedIff(ml: ModelLoader, marshal: Marshal, config: BackendConfig, messages: seq<Message>)
    ensures SuppressedBefore(ml, marshal, config, messages, |messages|)
        <==> exists i :: 0 <= i < |messages| && messages[i].role == "system" && ContentExists(messages[i])
                         && TakesFallbackPath(ml, config, messages[i], i, |messages|)
  {
    forall i | 0 <= i < |messages|
      ensures RenderMessage(ml, marshal, config, messages[i], i, |messages|).SuppressesSystemPrompt()
          <==> messages[i].role == "system" && ContentExists(messages[i]) && TakesFallbackPath(ml, config, messages[i], i, |messages|)
    {
      MessageSuppressesIff(ml, marshal, config, messages[i], i, |messages|);
    }
  }

  /** Without a chat-message template no message is dropped: message i renders as its fallback. */
  lemma {:induction false} FallbackRendersEveryMessage(ml: ModelLoader, marshal: Marshal, config: BackendConfig, messages: seq<Message>, k: nat)
    requires k <= |messages|
    requires config.templateConfig.chatMessage == ""
    ensures |RenderedMessages(ml, marshal, config, messages, k)| == k
    ensures forall i :: 0 <= i < k ==>
      RenderedMessages(ml, marshal, config, messages, k)[i]
        == FallbackContent(messages[i], RoleFor(config.roles, EffectiveRole(messages[i], config.roles)), marshal)
  {
    if k > 0 {
      FallbackRendersEveryMessage(ml, marshal, config, messages, k - 1);
    }
  }

  /** At most one string per message. */
  lemma {:induction false} RenderedMessagesBound(ml: ModelLoader, marshal: Marshal, config: BackendConfig, messages: seq<Message>, k: nat)
    requires k <= |messages|
    ensures |RenderedMessages(ml, marshal, config, messages, k)| <= k
  {
    if k > 0 {
      RenderedMessagesBound(ml, marshal, config, messages, k - 1);
    }
  }

  /** The separator between rendered messages. */
  function JoinCharacter(config: BackendConfig): (sep: string)
    ensures config.templateConfig.joinChatMessagesByCharacter.None? ==> sep == "\n"
    ensures config.templateConfig.joinChatMessagesByCharacter.Some? ==> sep == config.templateConfig.joinChatMessagesByCharacter.value
  {
    config.templateConfig.joinChatMessagesByCharacter.GetOr("\n")
  }

  /** The prompt template for the joined messages: the functions template only when the
      configuration names one and functions are in use. */
  function PromptTemplateFor(config: BackendConfig, shouldUseFn: bool): (t: TemplateType)
    ensures t == FunctionsPromptTemplate <==> config.templateConfig.functions != "" && shouldUseFn
    ensures t != FunctionsPromptTemplate ==> t == ChatPromptTemplate
  {
    if config.templateConfig.functions != "" && shouldUseFn then FunctionsPromptTemplate else ChatPromptTemplate
  }

  function JoinedMessages(ml: ModelLoader, marshal: Marshal, config: BackendConfig, messages: seq<Message>): string {
    Join(RenderedMessages(ml, marshal, config, messages, |messages|), JoinCharacter(config))
  }

  function FinalPromptData(ml: ModelLoader, marshal: Marshal, config: BackendConfig, messages: seq<Message>, funcs: seq<FunctionDef>): PromptTemplateData {
    PromptTemplateData(
      systemPrompt := config.systemPrompt,
      suppressSystemPrompt := SuppressedBefore(ml, marshal, config, messages, |messages|),
      input := JoinedMessages(ml, marshal, config, messages),
      instruction := "",
      functions := funcs,
      messageIndex := 0)
  }

  /** The Jinja per-message variables of the whole conversation. */
  function JinjaMessageData(config: BackendConfig, messages: seq<Message>): (data: seq<ChatMessageTemplateData>)
    ensures |data| == |messages|
    ensures forall i :: 0 <= i < |data| ==> (data[i].lastMessage <==> i == |messages| - 1)
    ensures forall i :: 0 <= i < |data| ==> data[i].messageIndex == i && data[i].roleName == messages[i].role
  {
    seq(|messages|, i requires 0 <= i < |messages| =>
      MessageTemplateData(config, messages[i], messages[i].role, RoleFor(config.roles, messages[i].role), i, |messages|))
  }

  function ToJinjaMessage(d: ChatMessageTemplateData): JinjaMessage {
    JinjaMessage(d.role, d.roleName, d.content, d.functionCall, d.functionName, d.lastMessage, d.isFunction, d.messageIndex)
  }

  /** The Jinja `messages` list: one entry per message, in order. */
  function Conversation(data: seq<ChatMessageTemplateData>): seq<JinjaEntry> {
    seq(|data|, i requires 0 <= i < |data| => Entry(ToJinjaMessage(data[i])))
  }

  /** The prompt without the Jinja chat template: the joined messages through the chosen
      prompt template, or the joined messages themselves when that template fails. */
  function PlainPrompt(ml: ModelLoader, marshal: Marshal, messages: seq<Message>, config: BackendConfig, funcs: seq<FunctionDef>, shouldUseFn: bool): string {
    match EvaluateTemplateForPrompt(ml, PromptTemplateFor(config, shouldUseFn), config, FinalPromptData(ml, marshal, config, messages, funcs))
    case Success(s) => s
    case Failure(_) => JoinedMessages(ml, marshal, config, messages)
  }

  /** The prompt when the Jinja chat engine is handed `jinjaList`: its output when Jinja is
      enabled and it succeeds, the plain prompt otherwise. */
  function PromptWithJinjaList(ml: ModelLoader, marshal: Marshal, messages: seq<Message>, config: BackendConfig, funcs: seq<FunctionDef>, shouldUseFn: bool, jinjaList: seq<JinjaEntry>): string {
    var jinja := ml.evaluateJinjaChat(config.templateConfig.chatMessage, jinjaList);
    if config.templateConfig.jinjaTemplate && jinja.Success? then jinja.value
    else PlainPrompt(ml, marshal, messages, config, funcs, shouldUseFn)
  }

  /** The prompt TemplateMessages returns: the Jinja engine gets the nil-padded list that
      templateJinjaChat builds. */
  function TemplatedPrompt(ml: ModelLoader, marshal: Marshal, messages: seq<Message>, config: BackendConfig, funcs: seq<FunctionDef>, shouldUseFn: bool): string {
    PromptWithJinjaList(ml, marshal, messages, config, funcs, shouldUseFn, PaddedConversation(JinjaMessageData(config, messages)))
  }

  /** The prompt with the corrected Jinja list (one entry per message). */
  function CorrectedTemplatedPrompt(ml: ModelLoader, marshal: Marshal, messages: seq<Message>, config: BackendConfig, funcs: seq<FunctionDef>, shouldUseFn: bool): string {
    PromptWithJinjaList(ml, marshal, messages, config, funcs, shouldUseFn, Conversation(JinjaMessageData(config, messages)))
  }

  /** When the final prompt template fails (and the Jinja chat template is off or failed too),
      the joined messages are the prompt. */
  lemma FailedPromptTemplateKeepsJoinedMessages(ml: ModelLoader, marshal: Marshal, messages: seq<Message>, config: BackendConfig, funcs: seq<FunctionDef>, shouldUseFn: bool)
    requires !config.templateConfig.jinjaTemplate
      || ml.evaluateJinjaChat(config.templateConfig.chatMessage, PaddedConversation(JinjaMessageData(config, messages))).Failure?
    requires EvaluateTemplateForPrompt(ml, PromptTemplateFor(config, shouldUseFn), config, FinalPromptData(ml, marshal, config, messages, funcs)).Failure?
    ensures TemplatedPrompt(ml, marshal, messages, config, funcs, shouldUseFn) == JoinedMessages(ml, marshal, config, messages)
  {
  }

  /** With no prompt template (no override, and no `.tmpl` file or no model name), no join
      character, and the Jinja chat template off or failed, the prompt is the rendered
      messages joined by newlines. */
  lemma NoTemplateJoinsByNewline(ml: ModelLoader, marshal: Marshal, messages: seq<Message>, config: BackendConfig, funcs: seq<FunctionDef>, shouldUseFn: bool)
    requires !config.templateConfig.jinjaTemplate
      || ml.evaluateJinjaChat(config.templateConfig.chatMessage, PaddedConversation(JinjaMessageData(config, messages))).Failure?
    requires config.templateConfig.joinChatMessagesByCharacter.None?
    requires ConfigTemplate(PromptTemplateFor(config, shouldUseFn), config.templateConfig) == ""
    requires !ml.existsInModelPath(config.model + ".tmpl") || config.model == ""
    ensures TemplatedPrompt(ml, marshal, messages, config, funcs, shouldUseFn)
         == Join(RenderedMessages(ml, marshal, config, messages, |messages|), "\n")
  {
  }

  /** The nil padding only matters on the Jinja path with at least one message: otherwise
      the prompt as written and the corrected prompt agree. */
  lemma PaddingMattersOnlyForJinjaChat(ml: ModelLoader, marshal: Marshal, messages: seq<Message>, config: BackendConfig, funcs: seq<FunctionDef>, shouldUseFn: bool)
    requires !config.templateConfig.jinjaTemplate || messages == []
    ensures TemplatedPrompt(ml, marshal, messages, config, funcs, shouldUseFn)
         == CorrectedTemplatedPrompt(ml, marshal, messages, config, funcs, shouldUseFn)
  {
    if messages == [] {
      assert PaddedConversation(JinjaMessageData(config, messages)) == Conversation(JinjaMessageData(config, messages));
    }
  }

  // ---------------------------------------------------------------------------
  // The imperative procedures
  // ---------------------------------------------------------------------------

  /** Builds the Jinja `messages` list and renders it with the named template. */
  method TemplateJinjaChat(ml: ModelLoader, templateName: string, messageData: seq<ChatMessageTemplateData>)
    returns (r: Result<string, string>)
    ensures r == ml.evaluateJinjaChat(templateName, Conversation(messageData))
  {
    var messages: seq<JinjaEntry> := [];
    for i := 0 to |messageData|
      invariant |messages| == i
      invariant forall k :: 0 <= k < i ==> messages[k] == Entry(ToJinjaMessage(messageData[k]))
    {
      messages := messages + [Entry(ToJinjaMessage(messageData[i]))];
    }
    assert messages == Conversation(messageData);
    r := ml.evaluateJinjaChat(templateName, messages);
  }

  /** The list the source actually builds: it is allocated with one nil entry per message
      and the real entries are appended after them. */
  function PaddedConversation(data: seq<ChatMessageTemplateData>): seq<JinjaEntry> {
    seq(|data|, _ => NilEntry) + Conversation(data)
  }

  /** templateJinjaChat as written. */
  method TemplateJinjaChatAsWritten(ml: ModelLoader, templateName: string, messageData: seq<ChatMessageTemplateData>)
    returns (r: Result<string, string>)
    ensures r == ml.evaluateJinjaChat(templateName, PaddedConversation(messageData))
  {
    var messages: seq<JinjaEntry> := seq(|messageData|, _ => NilEntry);
    for i := 0 to |messageData|
      invariant |messages| == |messageData| + i
      invariant forall k :: 0 <= k < |messageData| ==> messages[k] == NilEntry
      invariant forall k :: 0 <= k < i ==> messages[|messageData| + k] == Entry(ToJinjaMessage(messageData[k]))
    {
      messages := messages + [Entry(ToJinjaMessage(messageData[i]))];
    }
    assert messages == PaddedConversation(messageData);
    r := ml.evaluateJinjaChat(templateName, messages);
  }

  /** For every non-empty conversation the built list is twice as long as intended and
      starts with nil entries, so it differs from the intended list. */
  lemma PaddedConversationHasNilPrefix(data: seq<ChatMessageTemplateData>)
    requires |data| > 0
    ensures |PaddedConversation(data)| == 2 * |data|
    ensures PaddedConversation(data)[0] == NilEntry
    ensures PaddedConversation(data) != Conversation(data)
  {
    assert Conversation(data)[0].Entry?;
  }

  /** The first loop of TemplateMessages: the Jinja per-message variables. */
  method JinjaMessageList(messages: seq<Message>, config: BackendConfig) returns (messageData: seq<ChatMessageTemplateData>)
    ensures messageData == JinjaMessageData(config, messages)
  {
    messageData := [];
    for messageIndex := 0 to |messages|
      invariant |messageData| == messageIndex
      invariant forall k :: 0 <= k < messageIndex ==> messageData[k] == JinjaMessageData(config, messages)[k]
    {
      var i := messages[messageIndex];
      messageData := messageData + [ChatMessageTemplateData(
        systemPrompt := config.systemPrompt,
        role := RoleFor(config.roles, i.role),
        roleName := i.role,
        functionName := i.name,
        content := i.stringContent,
        messageIndex := messageIndex,
        isFunction := config.grammar != "" && messageIndex == |messages| - 1,
        functionCall := CallPayload(i),
        lastMessage := messageIndex == |messages| - 1)];
    }
  }

  /** The rest of TemplateMessages: each message rendered on its own, the strings joined, and
      the result passed through the chat (or functions) prompt template. */
  method RenderAndJoinMessages(ml: ModelLoader, marshal: Marshal, messages: seq<Message>, config: BackendConfig, funcs: seq<FunctionDef>, shouldUseFn: bool)
    returns (predInput: string)
    ensures predInput == PlainPrompt(ml, marshal, messages, config, funcs, shouldUseFn)
  {
    var suppressConfigSystemPrompt := false;
    var mess: seq<string> := [];
    for messageIndex := 0 to |messages|
      invariant mess == RenderedMessages(ml, marshal, config, messages, messageIndex)
      invariant suppressConfigSystemPrompt == SuppressedBefore(ml, marshal, config, messages, messageIndex)
    {
      var outcome := TemplateMessage(ml, marshal, config, messages[messageIndex], messageIndex, |messages|);
      if outcome.Emitted? {
        mess := mess + [outcome.content];
        if outcome.suppressesSystemPrompt {
          suppressConfigSystemPrompt := true;
        }
      }
    }

    var joinCharacter := "\n";
    if config.templateConfig.joinChatMessagesByCharacter.Some? {
      joinCharacter := config.templateConfig.joinChatMessagesByCharacter.value;
    }
    predInput := Join(mess, joinCharacter);

    var promptTemplate := ChatPromptTemplate;
    if config.templateConfig.functions != "" && shouldUseFn {
      promptTemplate := FunctionsPromptTemplate;
    }

    var templatedInput := EvaluateTemplateForPrompt(ml, promptTemplate, config, PromptTemplateData(
      systemPrompt := config.systemPrompt,
      suppressSystemPrompt := suppressConfigSystemPrompt,
      input := predInput,
      instruction := "",
      functions := funcs,
      messageIndex := 0));
    if templatedInput.Success? {
      predInput := templatedInput.value;
    }
  }

  /** Turns the chat messages into one prompt string: the Jinja chat template when it is
      enabled and succeeds (on the nil-padded list templateJinjaChat builds); otherwise each
      message rendered on its own, joined, and passed through the chat (or functions) prompt
      template. */
  method TemplateMessages(ml: ModelLoader, marshal: Marshal, messages: seq<Message>, config: BackendConfig, funcs: seq<FunctionDef>, shouldUseFn: bool)
    returns (predInput: string)
    ensures predInput == TemplatedPrompt(ml, marshal, messages, config, funcs, shouldUseFn)
  {
    if config.templateConfig.jinjaTemplate {
      var messageData := JinjaMessageList(messages, config);
      var templatedInput := TemplateJinjaChatAsWritten(ml, config.templateConfig.chatMessage, messageData);
      if templatedInput.Success? {
        return templatedInput.value;
      }
    }
    predInput := RenderAndJoinMessages(ml, marshal, messages, config, funcs, shouldUseFn);
  }

  /** TemplateMessages with the corrected Jinja list. */
  method TemplateMessagesCorrected(ml: ModelLoader, marshal: Marshal, messages: seq<Message>, config: BackendConfig, funcs: seq<FunctionDef>, shouldUseFn: bool)
    returns (predInput: string)
    ensures predInput == CorrectedTemplatedPrompt(ml, marshal, messages, config, funcs, shouldUseFn)
  {
    if config.templateConfig.jinjaTemplate {
      var messageData := JinjaMessageList(messages, config);
      var templatedInput := TemplateJinjaChat(ml, config.templateConfig.chatMessage, messageData);
      if templatedInput.Success? {
        return templatedInput.value;
      }
    }
    predInput := RenderAndJoinMessages(ml, marshal, messages, config, funcs, shouldUseFn);
  }
}
