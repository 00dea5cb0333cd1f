/** The node catalog: eleven node templates and the six sidebar categories,
    with the well-formedness facts the editor relies on. */
module NodeCatalog {
  import opened Wrappers
  import opened Records
  import opened Text
  import opened WorkflowTypes

  const WebhookTemplate := NodeTemplate(
    id := "webhook", nodeType := Webhook,
    displayName := "Webhook",
    description := "Receive HTTP requests to trigger workflows",
    icon := "\U{1F517}", category := "Core",
    defaultConfig := [("method", VString("POST")), ("path", VString("/webhook")), ("authentication", VString("none"))],
    requiredCredentials := [],
    inputs := [
      NodeInput("method", "HTTP Method", SelectInput, Some(true), None,
                Some([SelectOption("GET", "GET"), SelectOption("POST", "POST"), SelectOption("PUT", "PUT"), SelectOption("DELETE", "DELETE")]), Some(VString("POST"))),
      NodeInput("path", "Webhook Path", StringInput, Some(true), Some("/my-webhook"),
                None, Some(VString("/webhook")))
    ],
    outputs := [NodeOutput("body", "Request Body", "object"), NodeOutput("headers", "Request Headers", "object"), NodeOutput("query", "Query Parameters", "object")])

  const TelegramSendTemplate := NodeTemplate(
    id := "telegram-send", nodeType := TelegramSend,
    displayName := "Send Message",
    description := "Send a message via Telegram",
    icon := "\U{1F4F1}", category := "Action in an app",
    defaultConfig := [("message", VString("")), ("parseMode", VString("HTML"))],
    requiredCredentials := ["telegram_bot_token"],
    inputs := [
      NodeInput("chatId", "Chat ID", StringInput, Some(true), Some("@channel or chat_id"),
                None, None),
      NodeInput("message", "Message", TextareaInput, Some(true), Some("Enter your message here..."),
                None, None),
      NodeInput("parseMode", "Parse Mode", SelectInput, None, None,
                Some([SelectOption("HTML", "HTML"), SelectOption("Markdown", "Markdown"), SelectOption("None", "none")]), Some(VString("HTML")))
    ],
    outputs := [NodeOutput("messageId", "Message ID", "number"), NodeOutput("success", "Success", "boolean")])

  const TelegramWaitTemplate := NodeTemplate(
    id := "telegram-wait", nodeType := TelegramWait,
    displayName := "Wait for Response",
    description := "Wait for a response from Telegram user",
    icon := "\U{23F3}", category := "Human in the loop",
    defaultConfig := [("timeout", VNumber("300")), ("expectedType", VString("text"))],
    requiredCredentials := ["telegram_bot_token"],
    inputs := [
      NodeInput("chatId", "Chat ID", StringInput, Some(true), Some("@channel or chat_id"),
                None, None),
      NodeInput("timeout", "Timeout (seconds)", NumberInput, None, None,
                None, Some(VNumber("300"))),
      NodeInput("expectedType", "Expected Response Type", SelectInput, None, None,
                Some([SelectOption("Text", "text"), SelectOption("Photo", "photo"), SelectOption("Document", "document"), SelectOption("Any", "any")]), Some(VString("text")))
    ],
    outputs := [NodeOutput("response", "User Response", "string"), NodeOutput("messageType", "Message Type", "string"), NodeOutput("timestamp", "Response Time", "date")])

  const GeminiTemplate := NodeTemplate(
    id := "llm-gemini", nodeType := LlmGemini,
    displayName := "Gemini",
    description := "Generate content using Google Gemini",
    icon := "\U{1F916}", category := "AI",
    defaultConfig := [("model", VString("gemini-pro")), ("temperature", VNumber("0.7")), ("maxTokens", VNumber("1000"))],
    requiredCredentials := ["google_api_key"],
    inputs := [
      NodeInput("prompt", "Prompt", TextareaInput, Some(true), Some("Enter your prompt here..."),
                None, None),
      NodeInput("model", "Model", SelectInput, None, None,
                Some([SelectOption("Gemini Pro", "gemini-pro"), SelectOption("Gemini Pro Vision", "gemini-pro-vision")]), Some(VString("gemini-pro"))),
      NodeInput("temperature", "Temperature", NumberInput, None, None,
                None, Some(VNumber("0.7")))
    ],
    outputs := [NodeOutput("response", "Generated Text", "string"), NodeOutput("tokensUsed", "Tokens Used", "number")])

  const ChatGptTemplate := NodeTemplate(
    id := "llm-chatgpt", nodeType := LlmChatgpt,
    displayName := "ChatGPT",
    description := "Generate content using OpenAI ChatGPT",
    icon := "\U{1F9E0}", category := "AI",
    defaultConfig := [("model", VString("gpt-4")), ("temperature", VNumber("0.7")), ("maxTokens", VNumber("1000"))],
    requiredCredentials := ["openai_api_key"],
    inputs := [
      NodeInput("prompt", "Prompt", TextareaInput, Some(true), Some("Enter your prompt here..."),
                None, None),
      NodeInput("model", "Model", SelectInput, None, None,
                Some([SelectOption("GPT-4", "gpt-4"), SelectOption("GPT-4 Turbo", "gpt-4-turbo"), SelectOption("GPT-3.5 Turbo", "gpt-3.5-turbo")]), Some(VString("gpt-4"))),
      NodeInput("temperature", "Temperature", NumberInput, None, None,
                None, Some(VNumber("0.7")))
    ],
    outputs := [NodeOutput("response", "Generated Text", "string"), NodeOutput("tokensUsed", "Tokens Used", "number")])

  const ClaudeTemplate := NodeTemplate(
    id := "llm-anthropic", nodeType := LlmAnthropic,
    displayName := "Claude",
    description := "Generate content using Anthropic Claude",
    icon := "\U{1F3AD}", category := "AI",
    defaultConfig := [("model", VString("claude-3-sonnet")), ("temperature", VNumber("0.7")), ("maxTokens", VNumber("1000"))],
    requiredCredentials := ["anthropic_api_key"],
    inputs := [
      NodeInput("prompt", "Prompt", TextareaInput, Some(true), Some("Enter your prompt here..."),
                None, None),
      NodeInput("model", "Model", SelectInput, None, None,
                Some([SelectOption("Claude 3 Opus", "claude-3-opus"), SelectOption("Claude 3 Sonnet", "claude-3-sonnet"), SelectOption("Claude 3 Haiku", "claude-3-haiku")]), Some(VString("claude-3-sonnet"))),
      NodeInput("temperature", "Temperature", NumberInput, None, None,
                None, Some(VNumber("0.7")))
    ],
    outputs := [NodeOutput("response", "Generated Text", "string"), NodeOutput("tokensUsed", "Tokens Used", "number")])

  const MemoryNodeTemplate := NodeTemplate(
    id := "memory", nodeType := Memory,
    displayName := "Memory",
    description := "Store and retrieve data across workflow executions",
    icon := "\U{1F9E0}", category := "Data transformation",
    defaultConfig := [("action", VString("store")), ("key", VString(""))],
    requiredCredentials := [],
    inputs := [
      NodeInput("action", "Action", SelectInput, Some(true), None,
                Some([SelectOption("Store", "store"), SelectOption("Retrieve", "retrieve"), SelectOption("Delete", "delete")]), Some(VString("store"))),
      NodeInput("key", "Memory Key", StringInput, Some(true), Some("user_preferences"),
                None, None),
      NodeInput("value", "Value to Store", TextareaInput, None, Some("Data to store in memory"),
                None, None)
    ],
    outputs := [NodeOutput("value", "Retrieved Value", "string"), NodeOutput("success", "Success", "boolean")])

  const ResponseNodeTemplate := NodeTemplate(
    id := "response", nodeType := Response,
    displayName := "Response",
    description := "Send a response back to the webhook caller",
    icon := "\U{21A9}\U{FE0F}", category := "Core",
    defaultConfig := [("statusCode", VNumber("200")), ("contentType", VString("application/json"))],
    requiredCredentials := [],
    inputs := [
      NodeInput("statusCode", "Status Code", NumberInput, None, None,
                None, Some(VNumber("200"))),
      NodeInput("body", "Response Body", TextareaInput, None, Some("Response content"),
                None, None),
      NodeInput("headers", "Headers", TextareaInput, None, Some("{\"Content-Type\": \"application/json\"}"),
                None, None)
    ],
    outputs := [NodeOutput("sent", "Response Sent", "boolean")])

  const SendEmailTemplate := NodeTemplate(
    id := "resend-email", nodeType := ResendEmail,
    displayName := "Send Email",
    description := "Send emails using Resend",
    icon := "\U{1F4E7}", category := "Action in an app",
    defaultConfig := [("from", VString("")), ("subject", VString("")), ("html", VString(""))],
    requiredCredentials := ["resend_api_key"],
    inputs := [
      NodeInput("from", "From Email", StringInput, Some(true), Some("noreply@yourdomain.com"),
                None, None),
      NodeInput("to", "To Email", StringInput, Some(true), Some("user@example.com"),
                None, None),
      NodeInput("subject", "Subject", StringInput, Some(true), Some("Email subject"),
                None, None),
      NodeInput("html", "HTML Content", TextareaInput, Some(true), Some("<h1>Hello World</h1>"),
                None, None)
    ],
    outputs := [NodeOutput("messageId", "Message ID", "string"), NodeOutput("success", "Success", "boolean")])

  const IfNodeTemplate := NodeTemplate(
    id := "if-condition", nodeType := IfCondition,
    displayName := "If",
    description := "Branch workflow based on conditions",
    icon := "\U{1F500}", category := "Flow",
    defaultConfig := [("condition", VString("")), ("operator", VString("equals"))],
    requiredCredentials := [],
    inputs := [
      NodeInput("value1", "First Value", StringInput, Some(true), Some("Value to compare"),
                None, None),
      NodeInput("operator", "Operator", SelectInput, Some(true), None,
                Some([SelectOption("Equals", "equals"), SelectOption("Not Equals", "not_equals"), SelectOption("Greater Than", "greater_than"), SelectOption("Less Than", "less_than"), SelectOption("Contains", "contains")]), Some(VString("equals"))),
      NodeInput("value2", "Second Value", StringInput, Some(true), Some("Value to compare against"),
                None, None)
    ],
    outputs := [NodeOutput("true", "True", "boolean"), NodeOutput("false", "False", "boolean")])

  const FormNodeTemplate := NodeTemplate(
    id := "form", nodeType := Form,
    displayName := "Form",
    description := "Collect data through web forms",
    icon := "\U{1F4DD}", category := "Human in the loop",
    defaultConfig := [("title", VString("Data Collection Form")), ("description", VString("Please fill out this form"))],
    requiredCredentials := [],
    inputs := [
      NodeInput("title", "Form Title", StringInput, Some(true), None,
                None, Some(VString("Data Collection Form"))),
      NodeInput("description", "Description", TextareaInput, None, Some("Form description"),
                None, None),
      NodeInput("fields", "Form Fields", TextareaInput, None, Some("JSON array of field definitions"),
                None, None)
    ],
    outputs := [NodeOutput("formData", "Form Data", "object"), NodeOutput("submittedAt", "Submission Time", "date")])


  const NodeTemplates: seq<NodeTemplate> :=
    [WebhookTemplate, TelegramSendTemplate, TelegramWaitTemplate, GeminiTemplate, ChatGptTemplate, ClaudeTemplate, MemoryNodeTemplate, ResponseNodeTemplate, SendEmailTemplate, IfNodeTemplate, FormNodeTemplate]

  /** The template of each kind. */
  function KindTemplate(k: NodeType): NodeTemplate {
    match k
    case Webhook => WebhookTemplate
    case TelegramSend => TelegramSendTemplate
    case TelegramWait => TelegramWaitTemplate
    case LlmGemini => GeminiTemplate
    case LlmChatgpt => ChatGptTemplate
    case LlmAnthropic => ClaudeTemplate
    case Memory => MemoryNodeTemplate
    case Response => ResponseNodeTemplate
    case ResendEmail => SendEmailTemplate
    case IfCondition => IfNodeTemplate
    case Form => FormNodeTemplate
  }

  datatype NodeCategory = NodeCategory(id: string, displayName: string, icon: string)

  const NodeCategories: seq<NodeCategory> := [
    NodeCategory("core", "Core", "\U{26A1}"),
    NodeCategory("ai", "AI", "\U{1F916}"),
    NodeCategory("action-in-an-app", "Action in an app", "\U{1F310}"),
    NodeCategory("data-transformation", "Data transformation", "\U{1F504}"),
    NodeCategory("flow", "Flow", "\U{1F500}"),
    NodeCategory("human-in-the-loop", "Human in the loop", "\U{1F464}")
  ]

  /** The ids of `cats`, in order. */
  function IdsOf(cats: seq<NodeCategory>): (ids: seq<string>)
    ensures |ids| == |cats|
    ensures forall i :: 0 <= i < |cats| ==> ids[i] == cats[i].id
  {
    seq(|cats|, i requires 0 <= i < |cats| => cats[i].id)
  }

  // ---------------------------------------------------------------------
  // Properties of one template
  // ---------------------------------------------------------------------

  /** Input keys, output keys and default-config keys are each pairwise distinct. */
  ghost predicate KeysDistinct(t: NodeTemplate) {
    && (forall i, j :: 0 <= i < j < |t.inputs| ==> t.inputs[i].key != t.inputs[j].key)
    && (forall i, j :: 0 <= i < j < |t.outputs| ==> t.outputs[i].key != t.outputs[j].key)
    && DistinctKeys(t.defaultConfig)
  }

  /** A select input that declares a default offers that default among its option values. */
  predicate DefaultOffered(inp: NodeInput) {
    inp.inputType == SelectInput && inp.defaultValue.Some? ==>
      inp.options.Some? && exists o :: o in inp.options.value && inp.defaultValue.value == VString(o.value)
  }

  /** An input default and a default-config entry under the same key agree. */
  predicate DefaultAgrees(inp: NodeInput, config: Record<Value>) {
    inp.defaultValue.Some? && Get(config, inp.key).Some? ==> Get(config, inp.key) == inp.defaultValue
  }

  predicate SelectDefaultsOffered(t: NodeTemplate) {
    forall i :: 0 <= i < |t.inputs| ==> DefaultOffered(t.inputs[i])
  }

  predicate DefaultsAgree(t: NodeTemplate) {
    forall i :: 0 <= i < |t.inputs| ==> DefaultAgrees(t.inputs[i], t.defaultConfig)
  }

  /** The same two facts quantified over the members of the input list, the form in
      which the solver checks a single literal template most cheaply. */
  predicate DefaultsHoldForMembers(t: NodeTemplate) {
    forall inp :: inp in t.inputs ==> DefaultOffered(inp) && DefaultAgrees(inp, t.defaultConfig)
  }

  lemma DefaultsFromMembers(t: NodeTemplate)
    requires DefaultsHoldForMembers(t)
    ensures SelectDefaultsOffered(t) && DefaultsAgree(t)
  {
    forall i | 0 <= i < |t.inputs|
      ensures DefaultOffered(t.inputs[i]) && DefaultAgrees(t.inputs[i], t.defaultConfig)
    {
      assert t.inputs[i] in t.inputs;
    }
  }

  /** The template has an output port keyed `true` or `false`. */
  predicate HasBranchOutputs(t: NodeTemplate) {
    exists i :: 0 <= i < |t.outputs| && (t.outputs[i].key == "true" || t.outputs[i].key == "false")
  }

  /** Kinds that need no credential; every other kind needs exactly one. */
  predicate NeedsNoCredential(k: NodeType) {
    k in {Webhook, Memory, Response, IfCondition, Form}
  }

  // ---------------------------------------------------------------------
  // Template by template (each literal is checked on its own)
  // ---------------------------------------------------------------------

  lemma WebhookKeysDistinct() ensures KeysDistinct(WebhookTemplate) {}
  lemma TelegramSendKeysDistinct() ensures KeysDistinct(TelegramSendTemplate) {}
  lemma TelegramWaitKeysDistinct() ensures KeysDistinct(TelegramWaitTemplate) {}
  lemma GeminiKeysDistinct() ensures KeysDistinct(GeminiTemplate) {}
  lemma ChatGptKeysDistinct() ensures KeysDistinct(ChatGptTemplate) {}
  lemma ClaudeKeysDistinct() ensures KeysDistinct(ClaudeTemplate) {}
  lemma MemoryNodeKeysDistinct() ensures KeysDistinct(MemoryNodeTemplate) {}
  lemma ResponseNodeKeysDistinct() ensures KeysDistinct(ResponseNodeTemplate) {}
  lemma SendEmailKeysDistinct() ensures KeysDistinct(SendEmailTemplate) {}
  lemma IfNodeKeysDistinct() ensures KeysDistinct(IfNodeTemplate) {}
  lemma FormNodeKeysDistinct() ensures KeysDistinct(FormNodeTemplate) {}

  lemma WebhookDefaultsConsistent() ensures SelectDefaultsOffered(WebhookTemplate) && DefaultsAgree(WebhookTemplate) { DefaultsFromMembers(WebhookTemplate); }
  lemma TelegramSendDefaultsConsistent() ensures SelectDefaultsOffered(TelegramSendTemplate) && DefaultsAgree(TelegramSendTemplate) { DefaultsFromMembers(TelegramSendTemplate); }
  lemma TelegramWaitDefaultsConsistent() ensures SelectDefaultsOffered(TelegramWaitTemplate) && DefaultsAgree(TelegramWaitTemplate) { DefaultsFromMembers(TelegramWaitTemplate); }
  lemma GeminiDefaultsConsistent() ensures SelectDefaultsOffered(GeminiTemplate) && DefaultsAgree(GeminiTemplate) { DefaultsFromMembers(GeminiTemplate); }
  lemma ChatGptDefaultsConsistent() ensures SelectDefaultsOffered(ChatGptTemplate) && DefaultsAgree(ChatGptTemplate) { DefaultsFromMembers(ChatGptTemplate); }
  lemma ClaudeDefaultsConsistent() ensures SelectDefaultsOffered(ClaudeTemplate) && DefaultsAgree(ClaudeTemplate) { DefaultsFromMembers(ClaudeTemplate); }
  lemma MemoryNodeDefaultsConsistent() ensures SelectDefaultsOffered(MemoryNodeTemplate) && DefaultsAgree(MemoryNodeTemplate) { DefaultsFromMembers(MemoryNodeTemplate); }
  lemma ResponseNodeDefaultsConsistent() ensures SelectDefaultsOffered(ResponseNodeTemplate) && DefaultsAgree(ResponseNodeTemplate) { DefaultsFromMembers(ResponseNodeTemplate); }
  lemma SendEmailDefaultsConsistent() ensures SelectDefaultsOffered(SendEmailTemplate) && DefaultsAgree(SendEmailTemplate) { DefaultsFromMembers(SendEmailTemplate); }
  lemma IfNodeDefaultsConsistent() ensures SelectDefaultsOffered(IfNodeTemplate) && DefaultsAgree(IfNodeTemplate) { DefaultsFromMembers(IfNodeTemplate); }
  lemma FormNodeDefaultsConsistent() ensures SelectDefaultsOffered(FormNodeTemplate) && DefaultsAgree(FormNodeTemplate) { DefaultsFromMembers(FormNodeTemplate); }

  lemma WebhookBranchOutputs() ensures !HasBranchOutputs(WebhookTemplate) {}
  lemma TelegramSendBranchOutputs() ensures !HasBranchOutputs(TelegramSendTemplate) {}
  lemma TelegramWaitBranchOutputs() ensures !HasBranchOutputs(TelegramWaitTemplate) {}
  lemma GeminiBranchOutputs() ensures !HasBranchOutputs(GeminiTemplate) {}
  lemma ChatGptBranchOutputs() ensures !HasBranchOutputs(ChatGptTemplate) {}
  lemma ClaudeBranchOutputs() ensures !HasBranchOutputs(ClaudeTemplate) {}
  lemma MemoryNodeBranchOutputs() ensures !HasBranchOutputs(MemoryNodeTemplate) {}
  lemma ResponseNodeBranchOutputs() ensures !HasBranchOutputs(ResponseNodeTemplate) {}
  lemma SendEmailBranchOutputs() ensures !HasBranchOutputs(SendEmailTemplate) {}
  lemma IfNodeBranchOutputs() ensures HasBranchOutputs(IfNodeTemplate) { assert IfNodeTemplate.outputs[0].key == "true"; }
  lemma FormNodeBranchOutputs() ensures !HasBranchOutputs(FormNodeTemplate) {}

  // ---------------------------------------------------------------------
  // The catalog
  // ---------------------------------------------------------------------

  /** The catalog lists each of the eleven kinds once, in declaration order, and each
      template's id is its kind's tag. */
  lemma TemplateKinds()
    ensures |NodeTemplates| == |AllNodeTypes|
    ensures forall i :: 0 <= i < |NodeTemplates| ==> NodeTemplates[i].nodeType == AllNodeTypes[i]
    ensures forall i :: 0 <= i < |NodeTemplates| ==> NodeTemplates[i].id == NodeTemplates[i].nodeType.Name()
  {
    Kinds0To3();
    Kinds4To7();
    Kinds8To10();
  }

  lemma Kinds0To3()
    ensures forall i :: 0 <= i < 4 && i < |NodeTemplates| ==> NodeTemplates[i].nodeType == AllNodeTypes[i] && NodeTemplates[i].id == NodeTemplates[i].nodeType.Name()
  {
  }

  lemma Kinds4To7()
    ensures forall i :: 4 <= i < 8 && i < |NodeTemplates| ==> NodeTemplates[i].nodeType == AllNodeTypes[i] && NodeTemplates[i].id == NodeTemplates[i].nodeType.Name()
  {
  }

  lemma Kinds8To10()
    ensures forall i :: 8 <= i < 11 && i < |NodeTemplates| ==> NodeTemplates[i].nodeType == AllNodeTypes[i] && NodeTemplates[i].id == NodeTemplates[i].nodeType.Name()
  {
  }

  /** The catalog holds each kind's template at that kind's position. */
  lemma CatalogByKind()
    ensures |NodeTemplates| == |AllNodeTypes|
    ensures forall i :: 0 <= i < |NodeTemplates| ==> NodeTemplates[i] == KindTemplate(AllNodeTypes[i])
  {
    CatalogByKind0To3();
    CatalogByKind4To7();
    CatalogByKind8To10();
  }

  lemma CatalogByKind0To3()
    ensures forall i :: 0 <= i < 4 && i < |NodeTemplates| ==> NodeTemplates[i] == KindTemplate(AllNodeTypes[i])
  {
  }

  lemma CatalogByKind4To7()
    ensures forall i :: 4 <= i < 8 && i < |NodeTemplates| ==> NodeTemplates[i] == KindTemplate(AllNodeTypes[i])
  {
  }

  lemma CatalogByKind8To10()
    ensures forall i :: 8 <= i < 11 && i < |NodeTemplates| ==> NodeTemplates[i] == KindTemplate(AllNodeTypes[i])
  {
  }

  /** No two templates share a kind or an id. */
  lemma TemplateIdsDistinct()
    ensures forall i, j :: 0 <= i < j < |NodeTemplates| ==> NodeTemplates[i].nodeType != NodeTemplates[j].nodeType
    ensures forall i, j :: 0 <= i < j < |NodeTemplates| ==> NodeTemplates[i].id != NodeTemplates[j].id
  {
    TemplateKinds();
    KindsDetermineIds(NodeTemplates);
  }

  /** Templates listed one per kind, in kind order, with the kind's tag as id, have
      pairwise distinct kinds and ids. */
  lemma KindsDetermineIds(ts: seq<NodeTemplate>)
    requires |ts| == |AllNodeTypes|
    requires forall i :: 0 <= i < |ts| ==> ts[i].nodeType == AllNodeTypes[i] && ts[i].id == ts[i].nodeType.Name()
    ensures forall i, j :: 0 <= i < j < |ts| ==> ts[i].nodeType != ts[j].nodeType && ts[i].id != ts[j].id
  {
    forall i, j | 0 <= i < j < |ts| ensures ts[i].nodeType != ts[j].nodeType && ts[i].id != ts[j].id {
      AllNodeTypesDistinct();
      ParseName(ts[i].nodeType);
      ParseName(ts[j].nodeType);
    }
  }

  /** A template needs one credential unless its kind is one of the five that need none. */
  lemma CredentialCounts()
    ensures forall i :: 0 <= i < |NodeTemplates| ==>
      |NodeTemplates[i].requiredCredentials| == if NeedsNoCredential(NodeTemplates[i].nodeType) then 0 else 1
  {
  }

  /** Within every template, input keys, output keys and default-configuration keys are distinct. */
  lemma CatalogKeysDistinct()
    ensures forall i :: 0 <= i < |NodeTemplates| ==> KeysDistinct(NodeTemplates[i])
  {
    KeysDistinct0To3();
    KeysDistinct4To7();
    KeysDistinct8To10();
  }

  lemma KeysDistinct0To3()
    ensures forall i :: 0 <= i < 4 && i < |NodeTemplates| ==> KeysDistinct(NodeTemplates[i])
  {
    forall i | 0 <= i < 4 && i < |NodeTemplates| ensures KeysDistinct(NodeTemplates[i]) {
      if i == 0 { WebhookKeysDistinct(); }
      else if i == 1 { TelegramSendKeysDistinct(); }
      else if i == 2 { TelegramWaitKeysDistinct(); }
      else if i == 3 { GeminiKeysDistinct(); }
    }
  }

  lemma KeysDistinct4To7()
    ensures forall i :: 4 <= i < 8 && i < |NodeTemplates| ==> KeysDistinct(NodeTemplates[i])
  {
    forall i | 4 <= i < 8 && i < |NodeTemplates| ensures KeysDistinct(NodeTemplates[i]) {
      if i == 4 { ChatGptKeysDistinct(); }
      else if i == 5 { ClaudeKeysDistinct(); }
      else if i == 6 { MemoryNodeKeysDistinct(); }
      else if i == 7 { ResponseNodeKeysDistinct(); }
    }
  }

  lemma KeysDistinct8To10()
    ensures forall i :: 8 <= i < 11 && i < |NodeTemplates| ==> KeysDistinct(NodeTemplates[i])
  {
    forall i | 8 <= i < 11 && i < |NodeTemplates| ensures KeysDistinct(NodeTemplates[i]) {
      if i == 8 { SendEmailKeysDistinct(); }
      else if i == 9 { IfNodeKeysDistinct(); }
      else if i == 10 { FormNodeKeysDistinct(); }
    }
  }

  /** Every template's select defaults are among the offered options, and its default
      configuration agrees with its inputs' defaults. */
  lemma CatalogDefaultsConsistent()
    ensures forall i :: 0 <= i < |NodeTemplates| ==> SelectDefaultsOffered(NodeTemplates[i]) && DefaultsAgree(NodeTemplates[i])
  {
    DefaultsConsistent0To3();
    DefaultsConsistent4To7();
    DefaultsConsistent8To10();
  }

  lemma DefaultsConsistent0To3()
    ensures forall i :: 0 <= i < 4 && i < |NodeTemplates| ==> SelectDefaultsOffered(NodeTemplates[i]) && DefaultsAgree(NodeTemplates[i])
  {
    forall i | 0 <= i < 4 && i < |NodeTemplates| ensures SelectDefaultsOffered(NodeTemplates[i]) && DefaultsAgree(NodeTemplates[i]) {
      if i == 0 { WebhookDefaultsConsistent(); }
      else if i == 1 { TelegramSendDefaultsConsistent(); }
      else if i == 2 { TelegramWaitDefaultsConsistent(); }
      else if i == 3 { GeminiDefaultsConsistent(); }
    }
  }

  lemma DefaultsConsistent4To7()
    ensures forall i :: 4 <= i < 8 && i < |NodeTemplates| ==> SelectDefaultsOffered(NodeTemplates[i]) && DefaultsAgree(NodeTemplates[i])
  {
    forall i | 4 <= i < 8 && i < |NodeTemplates| ensures SelectDefaultsOffered(NodeTemplates[i]) && DefaultsAgree(NodeTemplates[i]) {
      if i == 4 { ChatGptDefaultsConsistent(); }
      else if i == 5 { ClaudeDefaultsConsistent(); }
      else if i == 6 { MemoryNodeDefaultsConsistent(); }
      else if i == 7 { ResponseNodeDefaultsConsistent(); }
    }
  }

  lemma DefaultsConsistent8To10()
    ensures forall i :: 8 <= i < 11 && i < |NodeTemplates| ==> SelectDefaultsOffered(NodeTemplates[i]) && DefaultsAgree(NodeTemplates[i])
  {
    forall i | 8 <= i < 11 && i < |NodeTemplates| ensures SelectDefaultsOffered(NodeTemplates[i]) && DefaultsAgree(NodeTemplates[i]) {
      if i == 8 { SendEmailDefaultsConsistent(); }
      else if i == 9 { IfNodeDefaultsConsistent(); }
      else if i == 10 { FormNodeDefaultsConsistent(); }
    }
  }

  /** Only the if-condition template has `true`/`false` output ports. */
  lemma OnlyIfConditionBranches()
    ensures forall i :: 0 <= i < |NodeTemplates| ==> (HasBranchOutputs(NodeTemplates[i]) <==> NodeTemplates[i].nodeType == IfCondition)
  {
    BranchOutputs0To3();
    BranchOutputs4To7();
    BranchOutputs8To10();
  }

  lemma BranchOutputs0To3()
    ensures forall i :: 0 <= i < 4 && i < |NodeTemplates| ==> (HasBranchOutputs(NodeTemplates[i]) <==> NodeTemplates[i].nodeType == IfCondition)
  {
    forall i | 0 <= i < 4 && i < |NodeTemplates| ensures (HasBranchOutputs(NodeTemplates[i]) <==> NodeTemplates[i].nodeType == IfCondition) {
      if i == 0 { WebhookBranchOutputs(); }
      else if i == 1 { TelegramSendBranchOutputs(); }
      else if i == 2 { TelegramWaitBranchOutputs(); }
      else if i == 3 { GeminiBranchOutputs(); }
    }
  }

  lemma BranchOutputs4To7()
    ensures forall i :: 4 <= i < 8 && i < |NodeTemplates| ==> (HasBranchOutputs(NodeTemplates[i]) <==> NodeTemplates[i].nodeType == IfCondition)
  {
    forall i | 4 <= i < 8 && i < |NodeTemplates| ensures (HasBranchOutputs(NodeTemplates[i]) <==> NodeTemplates[i].nodeType == IfCondition) {
      if i == 4 { ChatGptBranchOutputs(); }
      else if i == 5 { ClaudeBranchOutputs(); }
      else if i == 6 { MemoryNodeBranchOutputs(); }
      else if i == 7 { ResponseNodeBranchOutputs(); }
    }
  }

  lemma BranchOutputs8To10()
    ensures forall i :: 8 <= i < 11 && i < |NodeTemplates| ==> (HasBranchOutputs(NodeTemplates[i]) <==> NodeTemplates[i].nodeType == IfCondition)
  {
    forall i | 8 <= i < 11 && i < |NodeTemplates| ensures (HasBranchOutputs(NodeTemplates[i]) <==> NodeTemplates[i].nodeType == IfCondition) {
      if i == 8 { SendEmailBranchOutputs(); }
      else if i == 9 { IfNodeBranchOutputs(); }
      else if i == 10 { FormNodeBranchOutputs(); }
    }
  }

  /** `t` is filed under a category the sidebar lists. */
  predicate InSomeCategory(t: NodeTemplate) {
    exists j :: 0 <= j < |NodeCategories| && NodeCategories[j].displayName == t.category
  }

  /** Each template's category label is the label of a sidebar category. */
  lemma TemplateCategoryLabels()
    ensures forall i :: 0 <= i < |NodeTemplates| ==> InSomeCategory(NodeTemplates[i])
  {
    forall i | 0 <= i < |NodeTemplates| ensures InSomeCategory(NodeTemplates[i]) {
      if i == 0 { assert NodeCategories[0].displayName == NodeTemplates[0].category; }
      else if i == 1 { assert NodeCategories[2].displayName == NodeTemplates[1].category; }
      else if i == 2 { assert NodeCategories[5].displayName == NodeTemplates[2].category; }
      else if i == 3 { assert NodeCategories[1].displayName == NodeTemplates[3].category; }
      else if i == 4 { assert NodeCategories[1].displayName == NodeTemplates[4].category; }
      else if i == 5 { assert NodeCategories[1].displayName == NodeTemplates[5].category; }
      else if i == 6 { assert NodeCategories[3].displayName == NodeTemplates[6].category; }
      else if i == 7 { assert NodeCategories[0].displayName == NodeTemplates[7].category; }
      else if i == 8 { assert NodeCategories[2].displayName == NodeTemplates[8].category; }
      else if i == 9 { assert NodeCategories[4].displayName == NodeTemplates[9].category; }
      else if i == 10 { assert NodeCategories[5].displayName == NodeTemplates[10].category; }
    }
  }

  lemma CategoryIdsDistinct()
    ensures forall i, j :: 0 <= i < j < |NodeCategories| ==> NodeCategories[i].id != NodeCategories[j].id
  {
  }

  /** Each category id is the slug of its own label. */
  lemma CategorySlugs()
    ensures forall j :: 0 <= j < |NodeCategories| ==> Slug(NodeCategories[j].displayName) == NodeCategories[j].id
  {
    forall j | 0 <= j < |NodeCategories| ensures Slug(NodeCategories[j].displayName) == NodeCategories[j].id {
      if j == 0 { CoreSlug(); }
      else if j == 1 { AiSlug(); }
      else if j == 2 { ActionInAnAppSlug(); }
      else if j == 3 { DataTransformationSlug(); }
      else if j == 4 { FlowSlug(); }
      else if j == 5 { HumanInTheLoopSlug(); }
    }
  }

  lemma CoreSlug() ensures Slug("Core") == "core" {
    assert Lower("Core") == "core";
    SlugOfWord("Core");
  }

  lemma AiSlug() ensures Slug("AI") == "ai" {
    assert Lower("AI") == "ai";
    SlugOfWord("AI");
  }

  lemma FlowSlug() ensures Slug("Flow") == "flow" {
    assert Lower("Flow") == "flow";
    SlugOfWord("Flow");
  }

  lemma LowerAction() ensures Lower("Action") == "action" && NoWhitespace("Action") && "Action" != [] { }

  lemma LowerIn() ensures Lower("in") == "in" && NoWhitespace("in") && "in" != [] { }

  lemma LowerAn() ensures Lower("an") == "an" && NoWhitespace("an") && "an" != [] { }

  lemma LowerApp() ensures Lower("app") == "app" && NoWhitespace("app") && "app" != [] { }

  lemma LowerData() ensures Lower("Data") == "data" && NoWhitespace("Data") && "Data" != [] { }

  lemma LowerTransformation() ensures Lower("transformation") == "transformation" && NoWhitespace("transformation") && "transformation" != [] { }

  lemma LowerHuman() ensures Lower("Human") == "human" && NoWhitespace("Human") && "Human" != [] { }

  lemma LowerThe() ensures Lower("the") == "the" && NoWhitespace("the") && "the" != [] { }

  lemma LowerLoop() ensures Lower("loop") == "loop" && NoWhitespace("loop") && "loop" != [] { }

  lemma ActionInAnAppSlug() ensures Slug("Action in an app") == "action-in-an-app" {
    LowerAction(); LowerIn(); LowerAn(); LowerApp();
    ActionInAnAppSpelling();
    SlugOfFourWords("Action", "in", "an", "app");
  }

  lemma ActionInAnAppSpelling()
    ensures "Action" + " " + "in" + " " + "an" + " " + "app" == "Action in an app"
    ensures "action" + "-" + "in" + "-" + "an" + "-" + "app" == "action-in-an-app"
  {
  }


  lemma DataTransformationSlug() ensures Slug("Data transformation") == "data-transformation" {
    LowerData(); LowerTransformation();
    DataTransformationSpelling();
    SlugOfTwoWords("Data", "transformation");
  }

  lemma DataTransformationSpelling()
    ensures "Data" + " " + "transformation" == "Data transformation"
    ensures "data" + "-" + "transformation" == "data-transformation"
  {
  }

  lemma HumanInTheLoopSlug() ensures Slug("Human in the loop") == "human-in-the-loop" {
    LowerHuman(); LowerIn(); LowerThe(); LowerLoop();
    HumanInTheLoopSpelling();
    SlugOfFourWords("Human", "in", "the", "loop");
  }

  lemma HumanInTheLoopSpelling()
    ensures "Human" + " " + "in" + " " + "the" + " " + "loop" == "Human in the loop"
    ensures "human" + "-" + "in" + "-" + "the" + "-" + "loop" == "human-in-the-loop"
  {
  }


  /** `s` is the id of some sidebar category. */
  predicate IsCategoryId(s: string) {
    exists j :: 0 <= j < |NodeCategories| && NodeCategories[j].id == s
  }

  /** Every template's category slug is the id of exactly one sidebar category. */
  lemma TemplateCategoriesAreIds()
    ensures forall i :: 0 <= i < |NodeTemplates| ==> IsCategoryId(Slug(NodeTemplates[i].category))
    ensures forall i, j, k :: 0 <= i < |NodeTemplates| && 0 <= j < |NodeCategories| && 0 <= k < |NodeCategories| ==>
      (Slug(NodeTemplates[i].category) == NodeCategories[j].id == NodeCategories[k].id ==> j == k)
  {
    TemplateCategoryLabels();
    CategorySlugs();
    CategoryIdsDistinct();
    forall i | 0 <= i < |NodeTemplates| ensures IsCategoryId(Slug(NodeTemplates[i].category)) {
      assert InSomeCategory(NodeTemplates[i]);
      var j :| 0 <= j < |NodeCategories| && NodeCategories[j].displayName == NodeTemplates[i].category;
      assert Slug(NodeTemplates[i].category) == NodeCategories[j].id;
    }
  }
}
