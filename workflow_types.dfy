/** The editor's data model: node kinds, node data and the partial update
    applied to it, graph nodes and edges, the catalog's template records, and
    the workflow and execution records. */
module WorkflowTypes {
  import opened Wrappers
  import opened Records

  /** A JavaScript value as stored in a node's configuration. A number is kept
      as its JavaScript text (`String(n)`), since no arithmetic is done on it. */
  datatype Value =
    | VString(s: string)
    | VNumber(literal: string)
    | VBool(b: bool)
    | VNull
    | VUndefined
    | VObject(fields: seq<(string, Value)>)

  /** The eleven node kinds. */
  datatype NodeType =
    | Webhook | TelegramSend | TelegramWait | LlmGemini | LlmChatgpt | LlmAnthropic
    | Memory | Response | ResendEmail | IfCondition | Form
  {
    /** The kind's string tag, as stored in `data.type`. */
    function Name(): string {
      match this
      case Webhook => "webhook"
      case TelegramSend => "telegram-send"
      case TelegramWait => "telegram-wait"
      case LlmGemini => "llm-gemini"
      case LlmChatgpt => "llm-chatgpt"
      case LlmAnthropic => "llm-anthropic"
      case Memory => "memory"
      case Response => "response"
      case ResendEmail => "resend-email"
      case IfCondition => "if-condition"
      case Form => "form"
    }
  }

  const AllNodeTypes: seq<NodeType> :=
    [Webhook, TelegramSend, TelegramWait, LlmGemini, LlmChatgpt, LlmAnthropic,
     Memory, Response, ResendEmail, IfCondition, Form]

  /** The list of kinds names each kind once. */
  lemma AllNodeTypesDistinct()
    ensures forall i, j :: 0 <= i < j < |AllNodeTypes| ==> AllNodeTypes[i] != AllNodeTypes[j]
    ensures forall t: NodeType :: t in AllNodeTypes
  {
    forall t: NodeType ensures t in AllNodeTypes {
      match t
      case Webhook => assert AllNodeTypes[0] == t;
      case TelegramSend => assert AllNodeTypes[1] == t;
      case TelegramWait => assert AllNodeTypes[2] == t;
      case LlmGemini => assert AllNodeTypes[3] == t;
      case LlmChatgpt => assert AllNodeTypes[4] == t;
      case LlmAnthropic => assert AllNodeTypes[5] == t;
      case Memory => assert AllNodeTypes[6] == t;
      case Response => assert AllNodeTypes[7] == t;
      case ResendEmail => assert AllNodeTypes[8] == t;
      case IfCondition => assert AllNodeTypes[9] == t;
      case Form => assert AllNodeTypes[10] == t;
    }
  }

  /** The kind whose tag is `s`, if `s` is one of the eleven tags. */
  function ParseNodeType(s: string): (r: Option<NodeType>)
    ensures r.Some? ==> r.value.Name() == s
    ensures r.None? ==> forall t: NodeType :: t.Name() != s
  {
    if s == "webhook" then Some(Webhook)
    else if s == "telegram-send" then Some(TelegramSend)
    else if s == "telegram-wait" then Some(TelegramWait)
    else if s == "llm-gemini" then Some(LlmGemini)
    else if s == "llm-chatgpt" then Some(LlmChatgpt)
    else if s == "llm-anthropic" then Some(LlmAnthropic)
    else if s == "memory" then Some(Memory)
    else if s == "response" then Some(Response)
    else if s == "resend-email" then Some(ResendEmail)
    else if s == "if-condition" then Some(IfCondition)
    else if s == "form" then Some(Form)
    else None
  }

  /** Tags are distinct: parsing a kind's tag gives the kind back. */
  lemma ParseName(t: NodeType)
    ensures ParseNodeType(t.Name()) == Some(t)
  {
  }

  /** The data a graph node carries. `status` is read by the node card and set
      in the sample graph although the interface does not declare it. */
  datatype NodeData = NodeData(
    displayName: string,
    nodeType: NodeType,
    config: Option<Record<Value>>,
    credentials: Option<Record<string>>,
    lastExecuted: Option<int>,
    executionTime: Option<int>,
    status: Option<string>)

  /** One key of a `Partial<...>` object: absent, or present with a value. */
  datatype Field<T> = Keep | Put(value: T) {
    function Over(old_: T): T {
      match this
      case Keep => old_
      case Put(v) => v
    }
  }

  /** `Partial<NodeData>`: each key absent or present. Optional keys may be
      present with `undefined` (`Put(None)`). */
  datatype NodeDataPatch = NodeDataPatch(
    displayName: Field<string>,
    nodeType: Field<NodeType>,
    config: Field<Option<Record<Value>>>,
    credentials: Field<Option<Record<string>>>,
    lastExecuted: Field<Option<int>>,
    executionTime: Field<Option<int>>,
    status: Field<Option<string>>)

  const EmptyPatch := NodeDataPatch(Keep, Keep, Keep, Keep, Keep, Keep, Keep)

  /** `{ ...d, ...p }`. */
  function Merge(d: NodeData, p: NodeDataPatch): (r: NodeData)
  {
    NodeData(
      p.displayName.Over(d.displayName),
      p.nodeType.Over(d.nodeType),
      p.config.Over(d.config),
      p.credentials.Over(d.credentials),
      p.lastExecuted.Over(d.lastExecuted),
      p.executionTime.Over(d.executionTime),
      p.status.Over(d.status))
  }

  datatype Position = Position(x: int, y: int)

  /** A canvas node. Every node the editor creates has the renderer type
      `custom`, so that constant tag is not stored. */
  datatype Node = Node(id: string, position: Position, data: NodeData)

  /** A canvas edge; `sourceHandle` names the source port when there is one. */
  datatype Edge = Edge(id: string, source: string, target: string, sourceHandle: Option<string>)

  datatype InputType = StringInput | NumberInput | BooleanInput | SelectInput | TextareaInput | CredentialInput

  datatype SelectOption = SelectOption(displayName: string, value: string)

  datatype NodeInput = NodeInput(
    key: string,
    displayName: string,
    inputType: InputType,
    required: Option<bool>,
    placeholder: Option<string>,
    options: Option<seq<SelectOption>>,
    defaultValue: Option<Value>)

  datatype NodeOutput = NodeOutput(key: string, displayName: string, valueType: string)

  datatype NodeTemplate = NodeTemplate(
    id: string,
    nodeType: NodeType,
    displayName: string,
    description: string,
    icon: string,
    category: string,
    defaultConfig: Record<Value>,
    requiredCredentials: seq<string>,
    inputs: seq<NodeInput>,
    outputs: seq<NodeOutput>)

  /** A run's status. */
  datatype RunStatus = RunRunning | RunCompleted | RunFailed | RunCancelled

  /** One node's status within a run. */
  datatype NodeRunStatus = NodePending | NodeRunning | NodeCompleted | NodeFailed | NodeSkipped

  datatype NodeExecution = NodeExecution(
    nodeId: string,
    status: NodeRunStatus,
    startTime: Option<int>,
    endTime: Option<int>,
    input: Option<Value>,
    output: Option<Value>,
    error: Option<string>)

  datatype WorkflowExecution = WorkflowExecution(
    id: string,
    status: RunStatus,
    startTime: int,
    endTime: Option<int>,
    nodeExecutions: seq<NodeExecution>)

  /** Times are milliseconds since the epoch. */
  datatype WorkflowData = WorkflowData(
    id: string,
    name: string,
    description: Option<string>,
    isActive: bool,
    tags: seq<string>,
    createdAt: int,
    updatedAt: int,
    executions: seq<WorkflowExecution>)
}
