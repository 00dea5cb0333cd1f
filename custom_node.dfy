/** The node card: its kind badge, status icon, ring style, action-button
    visibility, kind label, configuration preview and connection handles, each
    a function of the node's data and its selection flag. */
module CustomNode {
  import opened Wrappers
  import opened Records
  import opened WorkflowTypes
  import opened NodeCatalog
  import opened Text

  // ---------------------------------------------------------------------
  // Kind badge
  // ---------------------------------------------------------------------

  /** The badge text for a kind. */
  function KindBadge(k: NodeType): string {
    match k
    case Webhook => "API"
    case TelegramSend => "TG"
    case TelegramWait => "TG"
    case LlmGemini => "AI"
    case LlmChatgpt => "AI"
    case LlmAnthropic => "AI"
    case Memory => "DB"
    case Response => "OUT"
    case ResendEmail => "@"
    case IfCondition => "IF"
    case Form => "UI"
  }

  /** The members every object literal inherits from `Object.prototype`; looking
      one of them up in `iconMap` finds it even though the map does not list it. */
  const ObjectPrototypeMembers: set<string> := {
    "constructor", "hasOwnProperty", "isPrototypeOf", "propertyIsEnumerable",
    "toLocaleString", "toString", "valueOf", "__proto__",
    "__defineGetter__", "__defineSetter__", "__lookupGetter__", "__lookupSetter__"
  }

  /** What `iconMap[data.type] || '?'` yields: a kind's badge, an inherited
      member (truthy, so the fallback is skipped), or the `?` fallback. */
  datatype NodeIconResult = Badge(text: string) | InheritedMember(name: string) | FallbackBadge

  /** The icon for a tag, looked up by the tag string. */
  function NodeIcon(tag: string): NodeIconResult {
    match ParseNodeType(tag)
    case Some(k) => Badge(KindBadge(k))
    case None => if tag in ObjectPrototypeMembers then InheritedMember(tag) else FallbackBadge
  }

  /** A kind's tag gets that kind's badge; the `?` fallback shows exactly for a
      tag that names no kind and no inherited member. */
  lemma NodeIconFallback(tag: string)
    ensures NodeIcon(tag) == FallbackBadge <==>
      (forall k: NodeType :: k.Name() != tag) && tag !in ObjectPrototypeMembers
    ensures forall k: NodeType :: k.Name() == tag ==> NodeIcon(tag) == Badge(KindBadge(k))
    ensures NodeIcon(tag).InheritedMember? <==> tag in ObjectPrototypeMembers
  {
    forall k: NodeType | k.Name() == tag ensures NodeIcon(tag) == Badge(KindBadge(k)) {
      ParseName(k);
    }
    if tag in ObjectPrototypeMembers {
      assert ParseNodeType(tag).None?;
    }
  }

  // ---------------------------------------------------------------------
  // Status icon and ring style
  // ---------------------------------------------------------------------

  datatype StatusIcon = ClockIcon | CheckIcon | AlertIcon

  /** The icon for `data.status`; none for any other status or none at all. */
  function NodeStatusIcon(status: Option<string>): Option<StatusIcon> {
    if status == Some("running") then Some(ClockIcon)
    else if status == Some("success") then Some(CheckIcon)
    else if status == Some("error") then Some(AlertIcon)
    else None
  }

  /** A status icon shows exactly for `running`, `success` and `error`, and the
      three get different icons. */
  lemma StatusIconCases(status: Option<string>)
    ensures NodeStatusIcon(status).Some? <==>
      status.Some? && status.value in {"running", "success", "error"}
    ensures forall s1, s2 :: NodeStatusIcon(Some(s1)).Some? && NodeStatusIcon(Some(s1)) == NodeStatusIcon(Some(s2)) ==> s1 == s2
  {
  }

  /** The ring the card is drawn with. */
  datatype Ring = SelectedRing | RunningRing | SuccessRing | ErrorRing | HoverRing

  /** `getNodeStyles`: the selection ring first, otherwise the status ring. */
  function NodeRing(selected: bool, status: Option<string>): Ring {
    if selected then SelectedRing
    else if status == Some("running") then RunningRing
    else if status == Some("success") then SuccessRing
    else if status == Some("error") then ErrorRing
    else HoverRing
  }

  /** Selection wins over status; unselected, the ring follows the status icon. */
  lemma RingPrecedence(selected: bool, status: Option<string>)
    ensures selected ==> NodeRing(selected, status) == SelectedRing
    ensures NodeRing(selected, status) == SelectedRing ==> selected
    ensures !selected ==> (NodeRing(selected, status) == HoverRing <==> NodeStatusIcon(status).None?)
    ensures !selected && NodeStatusIcon(status) == Some(ClockIcon) ==> NodeRing(selected, status) == RunningRing
    ensures !selected && NodeStatusIcon(status) == Some(CheckIcon) ==> NodeRing(selected, status) == SuccessRing
    ensures !selected && NodeStatusIcon(status) == Some(AlertIcon) ==> NodeRing(selected, status) == ErrorRing
  {
  }

  /** `selected || data.status`: the action buttons are always visible when the
      card is selected or has a non-empty status (the empty string is falsy). */
  function ActionsVisible(selected: bool, status: Option<string>): (r: bool)
    ensures r <==> selected || (status.Some? && |status.value| > 0)
  {
    selected || (status.Some? && status.value != "")
  }

  /** The action buttons are visible on every card that draws a ring other than
      the hover ring, and in particular on every card with a status icon; an
      unselected card without a status hides them. */
  lemma ActionsFollowStatus(selected: bool, status: Option<string>)
    ensures NodeRing(selected, status) != HoverRing ==> ActionsVisible(selected, status)
    ensures NodeStatusIcon(status).Some? ==> ActionsVisible(selected, status)
    ensures status.None? ==> (ActionsVisible(selected, status) <==> selected)
  {
    RingPrecedence(selected, status);
    StatusIconCases(status);
  }

  // ---------------------------------------------------------------------
  // Kind label
  // ---------------------------------------------------------------------

  /** `s.replace('-', ' ')`: a string pattern replaces its first occurrence only. */
  function ReplaceFirstDash(s: string): string
    decreases |s|
  {
    if s == [] then []
    else if s[0] == '-' then " " + s[1..]
    else [s[0]] + ReplaceFirstDash(s[1..])
  }

  /** Index of the first `-` in `s`, or `|s|` when there is none. */
  function FirstDash(s: string): (i: nat)
    ensures i <= |s|
    ensures forall j :: 0 <= j < i ==> s[j] != '-'
    ensures i < |s| ==> s[i] == '-'
  {
    if s == [] then 0 else if s[0] == '-' then 0 else FirstDash(s[1..]) + 1
  }

  /** The label differs from the tag at the first `-` only, which becomes a space;
      a tag without `-` is shown as is. */
  lemma {:induction false} ReplaceFirstDashSpec(s: string)
    ensures |ReplaceFirstDash(s)| == |s|
    ensures forall j :: 0 <= j < |s| && j != FirstDash(s) ==> ReplaceFirstDash(s)[j] == s[j]
    ensures FirstDash(s) < |s| ==> ReplaceFirstDash(s)[FirstDash(s)] == ' '
    decreases |s|
  {
    if s != [] && s[0] != '-' {
      ReplaceFirstDashSpec(s[1..]);
    }
  }

  /** Only the first `-` goes: `llm-gemini` reads `llm gemini`, and a second `-`
      would stay. */
  lemma KindLabels()
    ensures ReplaceFirstDash(LlmGemini.Name()) == "llm gemini"
    ensures ReplaceFirstDash("a-b-c") == "a b-c"
  {
  }

  // ---------------------------------------------------------------------
  // Configuration preview
  // ---------------------------------------------------------------------

  /** `String(value)`. Numbers keep their own text; objects print as
      `[object Object]`. */
  function JsString(v: Value): string {
    match v
    case VString(s) => s
    case VNumber(t) => t
    case VBool(b) => if b then "true" else "false"
    case VNull => "null"
    case VUndefined => "undefined"
    case VObject(_) => "[object Object]"
  }

  /** The code units of `...`. */
  const Dots: seq<int> := [0x2E, 0x2E, 0x2E]

  lemma DotsAreUtf16()
    ensures Utf16("...") == Dots
  {
    assert "..."[1..] == "..";
    assert ".."[1..] == ".";
    assert "."[1..] == "";
  }

  /** `s.slice(0, 20) + (s.length > 20 ? '...' : '')`, on the UTF-16 code units
      JavaScript measures and slices (a cut may split a surrogate pair). */
  function Truncate(s: string): seq<int> {
    var u := Utf16(s);
    (if |u| <= 20 then u else u[..20]) + (if |u| > 20 then Dots else [])
  }

  /** The shown text keeps the first twenty code units and adds `...` when more
      follow, so it is never longer than twenty-three units; a text of at most
      twenty units is shown whole. */
  lemma TruncateSpec(s: string)
    ensures |Truncate(s)| <= 23
    ensures |Utf16(s)| <= 20 ==> Truncate(s) == Utf16(s)
    ensures |Utf16(s)| > 20 ==> Truncate(s) == Utf16(s)[..20] + Utf16("...")
    ensures (forall i :: 0 <= i < |s| ==> (s[i] as int) < 0x10000) ==>
      (|s| <= 20 ==> Truncate(s) == Utf16(s)) && (|s| > 20 ==> |Truncate(s)| == 23)
  {
    DotsAreUtf16();
    if forall i :: 0 <= i < |s| ==> (s[i] as int) < 0x10000 {
      Utf16Bmp(s);
    }
  }

  const Grinning: char := '\U{1F600}'

  /** Fifteen emoji are thirty code units: the card shows the first ten emoji
      and `...`, although the text is only fifteen characters long. */
  lemma FifteenEmojiAreCut()
    ensures var s := seq(15, _ => Grinning);
      |Utf16(s)| == 30 && Truncate(s) == Utf16(s[..10]) + Utf16("...")
  {
    var s := seq(15, _ => Grinning);
    Utf16Astral(s);
    Utf16Astral(s[..10]);
    Utf16Append(s[..10], s[10..]);
    assert s == s[..10] + s[10..];
    DotsAreUtf16();
  }

  /** The preview block is drawn only for a configuration with at least one key. */
  function PreviewShown(config: Option<Record<Value>>): (r: bool)
    ensures r <==> config.Some? && |Keys(config.value)| > 0
  {
    config.Some? && config.value != []
  }

  /** `Object.entries(config).slice(0, 2)`, each value shown truncated. */
  function PreviewLines(config: Record<Value>): seq<(string, seq<int>)> {
    var shown := if |config| <= 2 then config else config[..2];
    seq(|shown|, i requires 0 <= i < |shown| => (shown[i].0, Truncate(JsString(shown[i].1))))
  }

  /** The preview lists the first (at most) two entries in order, each value's
      text cut to at most twenty-three code units. */
  lemma PreviewLinesSpec(config: Record<Value>)
    ensures |PreviewLines(config)| == if |config| < 2 then |config| else 2
    ensures forall i :: 0 <= i < |PreviewLines(config)| ==>
      PreviewLines(config)[i].0 == config[i].0 && PreviewLines(config)[i].1 == Truncate(JsString(config[i].1))
    ensures forall i :: 0 <= i < |PreviewLines(config)| ==> |PreviewLines(config)[i].1| <= 23
  {
    forall i | 0 <= i < |PreviewLines(config)| ensures |PreviewLines(config)[i].1| <= 23 {
      TruncateSpec(JsString(config[i].1));
    }
  }

  /** The preview block is drawn exactly when it has a line to show. */
  lemma PreviewMatchesLines(config: Option<Record<Value>>)
    ensures PreviewShown(config) <==> config.Some? && PreviewLines(config.value) != []
  {
    if config.Some? {
      PreviewLinesSpec(config.value);
    }
  }

  // ---------------------------------------------------------------------
  // Handles
  // ---------------------------------------------------------------------

  datatype HandleSide = TargetSide | SourceSide

  /** A connection handle: its side and its id (none for the default one). */
  datatype Handle = Handle(side: HandleSide, id: Option<string>)

  /** The handles a card of kind `k` renders: one target on the left, then the
      default source, or for `if-condition` the `true` and `false` sources. */
  function Handles(k: NodeType): seq<Handle> {
    if k != IfCondition then [Handle(TargetSide, None), Handle(SourceSide, None)]
    else [Handle(TargetSide, None), Handle(SourceSide, Some("true")), Handle(SourceSide, Some("false"))]
  }

  /** The ids of the source handles of a kind. */
  function SourceHandleIds(k: NodeType): seq<Option<string>> {
    var hs := Handles(k);
    seq(|hs| - 1, i requires 0 <= i < |hs| - 1 => hs[i + 1].id)
  }

  /** Every card has exactly one target handle, and it comes first; the
      if-condition card's sources are `true` and `false`; every other card has
      the one default source. */
  lemma HandleSets(k: NodeType)
    ensures Handles(k)[0] == Handle(TargetSide, None)
    ensures forall i :: 1 <= i < |Handles(k)| ==> Handles(k)[i].side == SourceSide
    ensures k == IfCondition ==> SourceHandleIds(k) == [Some("true"), Some("false")]
    ensures k != IfCondition ==> SourceHandleIds(k) == [None]
  {
  }

  /** The if-condition card's source handles are named after its template's output
      ports, and only that template declares `true`/`false` ports. */
  lemma IfHandlesAreTemplateOutputs()
    ensures SourceHandleIds(IfCondition) == [Some(IfNodeTemplate.outputs[0].key), Some(IfNodeTemplate.outputs[1].key)]
    ensures |IfNodeTemplate.outputs| == 2
  {
  }
}
