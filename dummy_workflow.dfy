/** The sample graph the editor opens with: eight nodes, eight edges and a
    workflow record with two past runs. The clock reading `now` (milliseconds)
    and the ISO text of the current time are parameters, since the sample
    reads the clock when it is built. */
module DummyWorkflow {
  import opened Wrappers
  import opened Records
  import opened WorkflowTypes
  import opened NodeCatalog
  import opened WorkflowGraph
  import opened CustomNode
  import opened NodeConfigPanel

  /** The masked secret every sample credential holds: sixteen bullets. */
  const Masked: string := "\U{2022}\U{2022}\U{2022}\U{2022}\U{2022}\U{2022}\U{2022}\U{2022}\U{2022}\U{2022}\U{2022}\U{2022}\U{2022}\U{2022}\U{2022}\U{2022}"

  // ---------------------------------------------------------------------
  // Nodes
  // ---------------------------------------------------------------------

  const Webhook1 := Node("webhook-1", Position(100, 100),
    NodeData("Webhook", Webhook,
             Some([("method", VString("POST")), ("path", VString("/webhook"))]),
             None, None, None, Some("idle")))

  /** Last run five minutes before `now`, in 245 ms; no status. */
  function TelegramSend1(now: int): Node {
    Node("telegram-send-1", Position(400, 100),
      NodeData("Send Message", TelegramSend,
               Some([("chatId", VString("@mychannel")), ("message", VString("Hello from n8n!")), ("parseMode", VString("HTML"))]),
               Some([("telegram_bot_token", Masked)]), Some(now - 300000), Some(245), None))
  }

  const If1 := Node("if-1", Position(700, 100),
    NodeData("If", IfCondition,
             Some([("value1", VString("{{$json.message}}")), ("operator", VString("contains")), ("value2", VString("help"))]),
             None, None, None, Some("idle")))

  const LlmGemini1 := Node("llm-gemini-1", Position(1000, 50),
    NodeData("Gemini", LlmGemini,
             Some([("prompt", VString("Help the user with: {{$json.message}}")), ("model", VString("gemini-pro")), ("temperature", VNumber("0.7"))]),
             Some([("google_api_key", Masked)]), None, None, Some("idle")))

  const LlmChatgpt1 := Node("llm-chatgpt-1", Position(1000, 200),
    NodeData("ChatGPT", LlmChatgpt,
             Some([("prompt", VString("Generate a creative response for: {{$json.message}}")), ("model", VString("gpt-4")), ("temperature", VNumber("0.9"))]),
             Some([("openai_api_key", Masked)]), None, None, Some("idle")))

  const TelegramSend2 := Node("telegram-send-2", Position(1300, 125),
    NodeData("Send Response", TelegramSend,
             Some([("chatId", VString("{{$node[\"Webhook\"].json.message.chat.id}}")),
                   ("message", VString("{{$node[\"Gemini\"].json.response}}")), ("parseMode", VString("HTML"))]),
             Some([("telegram_bot_token", Masked)]), None, None, Some("idle")))

  const Form1 := Node("form-1", Position(400, 350),
    NodeData("Form", Form,
             Some([("title", VString("Feedback Form")), ("description", VString("Please provide your feedback"))]),
             None, None, None, Some("idle")))

  const Resend1 := Node("resend-1", Position(700, 350),
    NodeData("Send Email", ResendEmail,
             Some([("from", VString("noreply@example.com")), ("to", VString("{{$json.email}}")),
                   ("subject", VString("Thank you for your feedback")),
                   ("html", VString("<h1>Thank you!</h1><p>We received your feedback: {{$json.message}}</p>"))]),
             Some([("resend_api_key", Masked)]), None, None, Some("idle")))

  /** `DUMMY_NODES`. */
  function DummyNodes(now: int): seq<Node> {
    [Webhook1, TelegramSend1(now), If1, LlmGemini1, LlmChatgpt1, TelegramSend2, Form1, Resend1]
  }

  /** `DUMMY_EDGES`: the two edges out of `if-1` leave from its `true` and
      `false` handles. */
  const DummyEdges: seq<Edge> := [
    Edge("e1", "webhook-1", "telegram-send-1", None),
    Edge("e2", "telegram-send-1", "if-1", None),
    Edge("e3", "if-1", "llm-gemini-1", Some("true")),
    Edge("e4", "if-1", "llm-chatgpt-1", Some("false")),
    Edge("e5", "llm-gemini-1", "telegram-send-2", None),
    Edge("e6", "llm-chatgpt-1", "telegram-send-2", None),
    Edge("e7", "webhook-1", "form-1", None),
    Edge("e8", "form-1", "resend-1", None)
  ]

  // ---------------------------------------------------------------------
  // Workflow record
  // ---------------------------------------------------------------------

  /** The first sample run: completed an hour ago, both of its nodes completed. */
  function Exec1(now: int, isoNow: string): WorkflowExecution {
    WorkflowExecution("exec-1", RunCompleted, now - 3600000, Some(now - 3595000), [
      NodeExecution("webhook-1", NodeCompleted, Some(now - 3600000), Some(now - 3599500),
        Some(VObject([("method", VString("POST")), ("body", VObject([("message", VString("Hello"))]))])),
        Some(VObject([("message", VString("Hello")), ("timestamp", VString(isoNow))])), None),
      NodeExecution("telegram-send-1", NodeCompleted, Some(now - 3599000), Some(now - 3598000),
        Some(VObject([("chatId", VString("@mychannel")), ("message", VString("Hello from n8n!"))])),
        Some(VObject([("messageId", VNumber("123")), ("success", VBool(true))])), None)
    ])
  }

  /** The second sample run: failed two hours ago when sending to Telegram. */
  function Exec2(now: int, isoNow: string): WorkflowExecution {
    WorkflowExecution("exec-2", RunFailed, now - 7200000, Some(now - 7195000), [
      NodeExecution("webhook-1", NodeCompleted, Some(now - 7200000), Some(now - 7199500),
        Some(VObject([("method", VString("POST")), ("body", VObject([("message", VString("Test"))]))])),
        Some(VObject([("message", VString("Test")), ("timestamp", VString(isoNow))])), None),
      NodeExecution("telegram-send-1", NodeFailed, Some(now - 7199000), Some(now - 7195000),
        Some(VObject([("chatId", VString("@mychannel")), ("message", VString("Test message"))])),
        None, Some("Invalid bot token"))
    ])
  }

  /** `DUMMY_WORKFLOW`: inactive, created a week before `now`, updated an hour before. */
  function DummyWorkflowData(now: int, isoNow: string): WorkflowData {
    WorkflowData("workflow-1", "My workflow", Some("A sample workflow demonstrating various integrations"),
      false, ["telegram", "ai", "automation"], now - 86400000 * 7, now - 3600000,
      [Exec1(now, isoNow), Exec2(now, isoNow)])
  }

  // ---------------------------------------------------------------------
  // The sample graph is well formed
  // ---------------------------------------------------------------------

  /** Node ids are distinct, and every edge joins two of them. */
  lemma DummyGraphWellFormed(now: int)
    ensures NodeIdsDistinct(DummyNodes(now))
    ensures EdgesWellFormed(DummyNodes(now), DummyEdges)
  {
    var ids := NodeIds(DummyNodes(now));
    assert ids == ["webhook-1", "telegram-send-1", "if-1", "llm-gemini-1", "llm-chatgpt-1", "telegram-send-2", "form-1", "resend-1"];
  }

  /** The rank each sample node sits at, counted in edges from the webhook. */
  const DummyRanks: map<string, nat> := map[
    "webhook-1" := 0, "telegram-send-1" := 1, "form-1" := 1, "if-1" := 2, "resend-1" := 2,
    "llm-gemini-1" := 3, "llm-chatgpt-1" := 3, "telegram-send-2" := 4]

  /** No sequence of sample edges leads back to where it started. */
  lemma DummyGraphAcyclic()
    ensures Acyclic(DummyEdges)
  {
    assert RankedBy(DummyEdges, DummyRanks);
    RankedIsAcyclic(DummyEdges, DummyRanks);
  }

  /** `webhook-1` is the only sample node no edge leads into: the graph has a
      single trigger. */
  lemma WebhookIsOnlyEntry(now: int)
    ensures forall i :: 0 <= i < |DummyNodes(now)| ==>
      (!HasIncoming(DummyEdges, DummyNodes(now)[i].id) <==> DummyNodes(now)[i].id == "webhook-1")
  {
    var ns := DummyNodes(now);
    assert !HasIncoming(DummyEdges, "webhook-1");
    assert DummyEdges[0].target == ns[1].id && DummyEdges[1].target == ns[2].id;
    assert DummyEdges[2].target == ns[3].id && DummyEdges[3].target == ns[4].id;
    assert DummyEdges[4].target == ns[5].id && DummyEdges[6].target == ns[6].id;
    assert DummyEdges[7].target == ns[7].id;
  }

  /** An edge leaves from a handle its source card draws: a named handle only on
      `if-1`, whose card draws `true` and `false`; the default handle elsewhere. */
  lemma DummyEdgesUseDrawnHandles(now: int)
    ensures forall i :: 0 <= i < |DummyEdges| ==>
      (DummyEdges[i].sourceHandle.Some? ==> DummyEdges[i].source == If1.id)
    ensures forall i, n :: 0 <= i < |DummyEdges| && n in DummyNodes(now) && n.id == DummyEdges[i].source ==>
      DummyEdges[i].sourceHandle in SourceHandleIds(n.data.nodeType)
  {
    forall i, n | 0 <= i < |DummyEdges| && n in DummyNodes(now) && n.id == DummyEdges[i].source
      ensures DummyEdges[i].sourceHandle in SourceHandleIds(n.data.nodeType)
    {
      HandleSets(n.data.nodeType);
      if n.id == If1.id {
        assert n == If1;
      } else {
        assert n.data.nodeType != IfCondition;
        assert DummyEdges[i].sourceHandle == None;
      }
    }
  }

  /** Every sample card but `telegram-send-1`, which has no status, carries the
      status `idle` and so shows its action buttons even when not selected. */
  lemma SampleActionsVisible(now: int)
    ensures forall i :: 0 <= i < |DummyNodes(now)| ==>
      (ActionsVisible(false, DummyNodes(now)[i].data.status) <==> DummyNodes(now)[i].id != "telegram-send-1")
  {
  }

  /** Deleting `if-1` from the sample leaves a well-formed graph. */
  lemma DeleteIfNodeWellFormed(now: int)
    ensures EdgesWellFormed(RemainingNodes(DummyNodes(now), "if-1"), RemainingEdges(DummyEdges, "if-1"))
  {
    DummyGraphWellFormed(now);
    DeleteKeepsEdgesWellFormed(DummyNodes(now), DummyEdges, "if-1");
  }

  // ---------------------------------------------------------------------
  // The sample nodes agree with the catalog
  // ---------------------------------------------------------------------

  /** The keys of a node's credentials (none when the object is absent). */
  function CredentialKeys(d: NodeData): seq<string> {
    if d.credentials.Some? then Keys(d.credentials.value) else []
  }

  /** The node carries exactly the credential keys its kind's template asks for. */
  predicate CredentialsAsTemplate(d: NodeData) {
    CredentialKeys(d) == KindTemplate(d.nodeType).requiredCredentials
  }

  lemma Webhook1Credentials() ensures CredentialsAsTemplate(Webhook1.data) {}
  lemma TelegramSend1Credentials(now: int) ensures CredentialsAsTemplate(TelegramSend1(now).data) {}
  lemma If1Credentials() ensures CredentialsAsTemplate(If1.data) {}
  lemma LlmGemini1Credentials() ensures CredentialsAsTemplate(LlmGemini1.data) {}
  lemma LlmChatgpt1Credentials() ensures CredentialsAsTemplate(LlmChatgpt1.data) {}
  lemma TelegramSend2Credentials() ensures CredentialsAsTemplate(TelegramSend2.data) {}
  lemma Form1Credentials() ensures CredentialsAsTemplate(Form1.data) {}
  lemma Resend1Credentials() ensures CredentialsAsTemplate(Resend1.data) {}

  /** The configuration panel finds the catalog template of every sample node's kind. */
  lemma DummyKindsHaveTemplates(now: int)
    ensures forall i :: 0 <= i < |DummyNodes(now)| ==>
      TemplateFor(DummyNodes(now)[i].data.nodeType) == Some(KindTemplate(DummyNodes(now)[i].data.nodeType))
  {
    forall i | 0 <= i < |DummyNodes(now)|
      ensures TemplateFor(DummyNodes(now)[i].data.nodeType) == Some(KindTemplate(DummyNodes(now)[i].data.nodeType))
    {
      TemplateForKind(DummyNodes(now)[i].data.nodeType);
    }
  }

  /** Every sample node's credential keys are exactly the ones its kind's
      template requires (none for the webhook, the if and the form). */
  lemma DummyCredentialsMatchCatalog(now: int)
    ensures forall n :: n in DummyNodes(now) ==> CredentialsAsTemplate(n.data)
  {
    Webhook1Credentials();
    TelegramSend1Credentials(now);
    If1Credentials();
    LlmGemini1Credentials();
    LlmChatgpt1Credentials();
    TelegramSend2Credentials();
    Form1Credentials();
    Resend1Credentials();
  }

  // ---------------------------------------------------------------------
  // The sample runs are consistent
  // ---------------------------------------------------------------------

  /** A run's outcome agrees with its node runs: completed runs have only
      completed nodes, failed runs a failed node that reports an error. */
  predicate OutcomeAgrees(x: WorkflowExecution) {
    && (x.status == RunCompleted ==>
          forall i :: 0 <= i < |x.nodeExecutions| ==> x.nodeExecutions[i].status == NodeCompleted)
    && (x.status == RunFailed ==>
          exists i :: 0 <= i < |x.nodeExecutions| && x.nodeExecutions[i].status == NodeFailed
                       && x.nodeExecutions[i].error.Some?)
  }

  /** Every node run starts no earlier than the run, ends no later, and does
      not end before it starts. */
  predicate TimesNest(x: WorkflowExecution) {
    x.endTime.Some? &&
    forall i :: 0 <= i < |x.nodeExecutions| ==>
      var n := x.nodeExecutions[i];
      n.startTime.Some? && n.endTime.Some? &&
      x.startTime <= n.startTime.value <= n.endTime.value <= x.endTime.value
  }

  /** The sample runs are consistent with their node runs, name sample nodes
      only, and are listed newest first; the record was created before it
      was last updated. */
  lemma DummyRunsConsistent(now: int, isoNow: string)
    ensures forall k :: 0 <= k < |DummyWorkflowData(now, isoNow).executions| ==>
      var x := DummyWorkflowData(now, isoNow).executions[k];
      OutcomeAgrees(x) && TimesNest(x) &&
      forall i :: 0 <= i < |x.nodeExecutions| ==> x.nodeExecutions[i].nodeId in NodeIds(DummyNodes(now))
    ensures DummyWorkflowData(now, isoNow).executions[0].startTime > DummyWorkflowData(now, isoNow).executions[1].startTime
    ensures DummyWorkflowData(now, isoNow).createdAt < DummyWorkflowData(now, isoNow).updatedAt
  {
    var ids := NodeIds(DummyNodes(now));
    assert ids[0] == "webhook-1" && ids[1] == "telegram-send-1";
    assert Exec2(now, isoNow).nodeExecutions[1].status == NodeFailed;
  }
}
