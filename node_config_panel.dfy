/** The node configuration panel: the template lookup for the open node, the
    guard that decides whether the panel renders, the value each input shows,
    the credential field labels, and the panel's three local maps (configuration,
    credentials, credential visibility) with the handlers that update them and
    the patch that saving sends. */
module NodeConfigPanel {
  import opened Wrappers
  import opened Records
  import opened Seqs
  import opened Text
  import opened WorkflowTypes
  import opened NodeCatalog

  // ---------------------------------------------------------------------
  // Template lookup and the render guard
  // ---------------------------------------------------------------------

  /** `NODE_TEMPLATES.find(t => t.type === kind)`. */
  function TemplateFor(k: NodeType): Option<NodeTemplate> {
    FindKind(NodeTemplates, k)
  }

  /** `nodeData ? NODE_TEMPLATES.find(...) : null`. */
  function TemplateLookup(nodeData: Option<NodeData>): Option<NodeTemplate> {
    if nodeData.None? then None else TemplateFor(nodeData.value.nodeType)
  }

  /** Every kind finds its own template in the catalog. */
  lemma TemplateForKind(k: NodeType)
    ensures TemplateFor(k) == Some(KindTemplate(k))
    ensures TemplateFor(k).value.nodeType == k
  {
    CatalogByKind();
    TemplateKinds();
    FindInKindOrder(NodeTemplates, k);
  }

  /** `ts.find(t => t.type === k)`. */
  function FindKind(ts: seq<NodeTemplate>, k: NodeType): Option<NodeTemplate> {
    Find(ts, (t: NodeTemplate) => t.nodeType == k)
  }

  /** In a list holding each kind's template at that kind's position, the search
      for a kind finds that kind's template. */
  lemma FindInKindOrder(ts: seq<NodeTemplate>, k: NodeType)
    requires |ts| == |AllNodeTypes|
    requires forall i :: 0 <= i < |ts| ==> ts[i] == KindTemplate(AllNodeTypes[i]) && ts[i].nodeType == AllNodeTypes[i]
    ensures FindKind(ts, k) == Some(KindTemplate(k))
    ensures KindTemplate(k).nodeType == k
  {
    AllNodeTypesDistinct();
    assert k in AllNodeTypes;
    var i :| 0 <= i < |AllNodeTypes| && AllNodeTypes[i] == k;
    assert ts[i].nodeType == k;
    var t := FindKind(ts, k).value;
    var j :| 0 <= j < |ts| && ts[j] == t && t.nodeType == k;
    assert AllNodeTypes[j] == k;
  }

  /** `!isOpen || !nodeData || !nodeId || !template` renders nothing; an empty id
      is falsy. */
  function PanelShown(isOpen: bool, nodeData: Option<NodeData>, nodeId: Option<string>): bool {
    isOpen && nodeData.Some? && nodeId.Some? && nodeId.value != "" && TemplateLookup(nodeData).Some?
  }

  /** The template check never hides the panel: it renders exactly when it is
      open with node data and a non-empty node id. */
  lemma PanelShownExactly(isOpen: bool, nodeData: Option<NodeData>, nodeId: Option<string>)
    ensures PanelShown(isOpen, nodeData, nodeId) <==>
      isOpen && nodeData.Some? && nodeId.Some? && |nodeId.value| > 0
  {
    if nodeData.Some? {
      TemplateForKind(nodeData.value.nodeType);
    }
  }

  // ---------------------------------------------------------------------
  // The value an input shows
  // ---------------------------------------------------------------------

  /** `null` and `undefined`, the values `??` skips. */
  predicate Nullish(v: Value) {
    v.VNull? || v.VUndefined?
  }

  /** `config[input.key] ?? input.defaultValue ?? ''`. */
  function DisplayedValue(config: Record<Value>, input: NodeInput): Value {
    var fromConfig := Get(config, input.key);
    if fromConfig.Some? && !Nullish(fromConfig.value) then fromConfig.value
    else if input.defaultValue.Some? && !Nullish(input.defaultValue.value) then input.defaultValue.value
    else VString("")
  }

  /** The configured value wins whenever it is neither null nor undefined, even
      when it is `''` or `0`; then the input's default; then the empty string. */
  lemma DisplayedValueOrder(config: Record<Value>, input: NodeInput)
    ensures Get(config, input.key).Some? && !Nullish(Get(config, input.key).value) ==>
      DisplayedValue(config, input) == Get(config, input.key).value
    ensures (Get(config, input.key).None? || Nullish(Get(config, input.key).value)) &&
            input.defaultValue.Some? && !Nullish(input.defaultValue.value) ==>
      DisplayedValue(config, input) == input.defaultValue.value
    ensures (Get(config, input.key).None? || Nullish(Get(config, input.key).value)) &&
            (input.defaultValue.None? || Nullish(input.defaultValue.value)) ==>
      DisplayedValue(config, input) == VString("")
    ensures Get(config, input.key) == Some(VString("")) ==> DisplayedValue(config, input) == VString("")
    ensures Get(config, input.key) == Some(VNumber("0")) ==> DisplayedValue(config, input) == VNumber("0")
  {
  }

  /** On a node freshly built from a catalog template, every input that declares a
      default shows that default. */
  lemma FreshNodeShowsDefaults(t: NodeTemplate, input: NodeInput)
    requires t in NodeTemplates && input in t.inputs
    requires input.defaultValue.Some? && !Nullish(input.defaultValue.value)
    ensures DisplayedValue(t.defaultConfig, input) == input.defaultValue.value
  {
    CatalogDefaultsConsistent();
    var i :| 0 <= i < |NodeTemplates| && NodeTemplates[i] == t;
    var j :| 0 <= j < |t.inputs| && t.inputs[j] == input;
    assert DefaultAgrees(t.inputs[j], t.defaultConfig);
  }

  // ---------------------------------------------------------------------
  // Credential fields
  // ---------------------------------------------------------------------

  /** `key.replace(/_/g, ' ')`. */
  function SpacesForUnderscores(s: string): (r: string)
    ensures |r| == |s|
  {
    seq(|s|, i requires 0 <= i < |s| => if s[i] == '_' then ' ' else s[i])
  }

  /** `s` starts a word at `i`: a word character with no word character before it
      (the `\b\w` match). */
  predicate WordStart(s: string, i: nat)
    requires i < |s|
  {
    IsWordChar(s[i]) && (i == 0 || !IsWordChar(s[i - 1]))
  }

  /** `s.replace(/\b\w/g, l => l.toUpperCase())`. */
  function CapitalizeWords(s: string): (r: string)
    ensures |r| == |s|
  {
    seq(|s|, i requires 0 <= i < |s| => if WordStart(s, i) then UpperChar(s[i]) else s[i])
  }

  /** The label of a credential field. */
  function CredentialLabel(key: string): string {
    CapitalizeWords(SpacesForUnderscores(key))
  }

  /** The label has the key's length, no underscore, an upper-case (or non-letter)
      character at the start of every word, and the key's characters elsewhere
      (underscores turned into spaces). */
  lemma CredentialLabelShape(key: string)
    ensures |CredentialLabel(key)| == |key|
    ensures forall i :: 0 <= i < |key| ==> CredentialLabel(key)[i] != '_'
    ensures forall i :: 0 <= i < |key| && WordStart(SpacesForUnderscores(key), i) ==>
      CredentialLabel(key)[i] == UpperChar(key[i]) && !IsAsciiLower(CredentialLabel(key)[i])
    ensures forall i :: 0 <= i < |key| && !WordStart(SpacesForUnderscores(key), i) ==>
      CredentialLabel(key)[i] == if key[i] == '_' then ' ' else key[i]
  {
  }

  /** `telegram_bot_token` is labelled `Telegram Bot Token`. */
  lemma TelegramTokenLabel()
    ensures CredentialLabel("telegram_bot_token") == "Telegram Bot Token"
  {
    TelegramTokenSpaces();
    TelegramTokenCapitals();
  }

  lemma TelegramTokenSpaces()
    ensures SpacesForUnderscores("telegram_bot_token") == "telegram bot token"
  {
    assert "telegram_bot_token" == "telegram" + "_" + ("bot" + "_" + "token");
    assert "telegram bot token" == "telegram" + " " + ("bot" + " " + "token");
    SpacesAtUnderscore("telegram", "bot" + "_" + "token");
    SpacesAtUnderscore("bot", "token");
    SpacesForUnderscoresKeepsWord("telegram");
    SpacesForUnderscoresKeepsWord("bot");
    SpacesForUnderscoresKeepsWord("token");
  }

  lemma TelegramTokenCapitals()
    ensures CapitalizeWords("telegram bot token") == "Telegram Bot Token"
  {
    assert "telegram bot token" == "telegram" + " " + ("bot" + " " + "token");
    assert "Telegram Bot Token" == "Telegram" + " " + ("Bot" + " " + "Token");
    CapitalizeAtSpace("telegram", "bot" + " " + "token");
    CapitalizeAtSpace("bot", "token");
    CapitalizedWords();
  }

  lemma CapitalizedWords()
    ensures CapitalizeWords("telegram") == "Telegram"
    ensures CapitalizeWords("bot") == "Bot"
    ensures CapitalizeWords("token") == "Token"
  {
    CapitalizeWord("telegram");
    CapitalizeWord("bot");
    CapitalizeWord("token");
  }

  predicate IsWord(w: string) {
    forall i :: 0 <= i < |w| ==> IsWordChar(w[i]) && w[i] != '_'
  }

  lemma SpacesForUnderscoresKeepsWord(w: string)
    requires IsWord(w)
    ensures SpacesForUnderscores(w) == w
  {
  }

  lemma SpacesAtUnderscore(a: string, b: string)
    ensures SpacesForUnderscores(a + "_" + b) == SpacesForUnderscores(a) + " " + SpacesForUnderscores(b)
  {
    var s := a + "_" + b;
    var r, e := SpacesForUnderscores(s), SpacesForUnderscores(a) + " " + SpacesForUnderscores(b);
    forall i | 0 <= i < |s| ensures r[i] == e[i] {
      if i < |a| {
        assert s[i] == a[i];
      } else if |a| < i {
        assert s[i] == b[i - |a| - 1];
      }
    }
    assert r == e;
  }

  /** A word of word characters has its first character upper-cased and the rest kept. */
  lemma CapitalizeWord(w: string)
    requires IsWord(w) && |w| > 0
    ensures CapitalizeWords(w) == [UpperChar(w[0])] + w[1..]
  {
  }

  /** Word starts on either side of a space are found independently. */
  lemma CapitalizeAtSpace(a: string, b: string)
    ensures CapitalizeWords(a + " " + b) == CapitalizeWords(a) + " " + CapitalizeWords(b)
  {
    var s := a + " " + b;
    var r, e := CapitalizeWords(s), CapitalizeWords(a) + " " + CapitalizeWords(b);
    forall i | 0 <= i < |s| ensures r[i] == e[i] {
      if i < |a| {
        CapitalizeLeft(a, b, i);
      } else if |a| < i {
        CapitalizeRight(a, b, i - |a| - 1);
      }
    }
    assert r == e;
  }

  lemma CapitalizeLeft(a: string, b: string, i: nat)
    requires i < |a|
    ensures CapitalizeWords(a + " " + b)[i] == CapitalizeWords(a)[i]
  {
    var s := a + " " + b;
    assert s[i] == a[i];
    if i > 0 { assert s[i - 1] == a[i - 1]; }
    assert WordStart(s, i) == WordStart(a, i);
  }

  lemma CapitalizeRight(a: string, b: string, i: nat)
    requires i < |b|
    ensures CapitalizeWords(a + " " + b)[|a| + 1 + i] == CapitalizeWords(b)[i]
  {
    var s := a + " " + b;
    assert s[|a| + 1 + i] == b[i];
    if i > 0 { assert s[|a| + i] == b[i - 1]; }
    assert WordStart(s, |a| + 1 + i) == WordStart(b, i);
  }

  /** `` `Enter your ${credKey.replace(/_/g, ' ')}` ``. */
  function CredentialPlaceholder(key: string): (r: string)
    ensures |r| == 11 + |key| && r[..11] == "Enter your "
    ensures forall i :: 11 <= i < |r| ==> r[i] != '_' && (key[i - 11] != '_' ==> r[i] == key[i - 11])
  {
    "Enter your " + SpacesForUnderscores(key)
  }

  /** `credentials[credKey] || ''`: the stored text, or empty when there is none. */
  function CredentialFieldValue(credentials: Record<string>, key: string): (r: string)
    ensures Get(credentials, key).Some? ==> r == Get(credentials, key).value
    ensures Get(credentials, key).None? ==> r == ""
  {
    Get(credentials, key).GetOr("")
  }

  /** After an edit of one credential its field shows the typed text, and every
      other field shows what it showed before. */
  lemma CredentialFieldAfterChange(credentials: Record<string>, key: string, value: string)
    ensures CredentialFieldValue(Set(credentials, key, value), key) == value
    ensures forall k :: k != key ==>
      CredentialFieldValue(Set(credentials, key, value), k) == CredentialFieldValue(credentials, k)
  {
  }

  /** `showCredentials[credKey] ? 'text' : 'password'`. */
  function CredentialShown(show: Record<bool>, key: string): (r: bool)
    ensures r <==> Get(show, key) == Some(true)
  {
    Get(show, key).GetOr(false)
  }

  // ---------------------------------------------------------------------
  // The panel's local state
  // ---------------------------------------------------------------------

  /** The patch `handleSave` sends: exactly the current configuration and
      credentials. */
  function SavePatch(config: Record<Value>, credentials: Record<string>): NodeDataPatch {
    EmptyPatch.(config := Put(Some(config)), credentials := Put(Some(credentials)))
  }

  /** Saving replaces the node's configuration and credentials and nothing else;
      saving what the panel was seeded with only turns a missing configuration or
      credential map into an empty one. */
  lemma SaveReplacesConfigAndCredentials(d: NodeData, config: Record<Value>, credentials: Record<string>)
    ensures Merge(d, SavePatch(config, credentials)) == d.(config := Some(config), credentials := Some(credentials))
    ensures Merge(d, SavePatch(d.config.GetOr([]), d.credentials.GetOr([]))) ==
      d.(config := Some(d.config.GetOr([])), credentials := Some(d.credentials.GetOr([])))
    ensures d.config.Some? && d.credentials.Some? ==>
      Merge(d, SavePatch(d.config.GetOr([]), d.credentials.GetOr([]))) == d
  {
  }

  /** The save patch, merged into any node's data, replaces exactly its
      configuration and credentials. */
  lemma SavePatchReplaces(config: Record<Value>, credentials: Record<string>)
    ensures forall d :: Merge(d, SavePatch(config, credentials)) == d.(config := Some(config), credentials := Some(credentials))
  {
    forall d ensures Merge(d, SavePatch(config, credentials)) == d.(config := Some(config), credentials := Some(credentials)) {
      SaveReplacesConfigAndCredentials(d, config, credentials);
    }
  }

  class ConfigPanel {
    var config: Record<Value>
    var credentials: Record<string>
    var showCredentials: Record<bool>

    /** Keys are distinct in each of the three maps. */
    ghost predicate Valid()
      reads this
    {
      DistinctKeys(config) && DistinctKeys(credentials) && DistinctKeys(showCredentials)
    }

    /** The three `useState({})` hooks. */
    constructor()
      ensures config == [] && credentials == [] && showCredentials == []
      ensures Valid()
    {
      config := [];
      credentials := [];
      showCredentials := [];
    }

    /** The effect on `nodeData`: reseed configuration and credentials from the
        node, a missing map becoming empty; visibility is kept. */
    method Reseed(nodeData: Option<NodeData>)
      modifies this
      requires nodeData.Some? ==> DistinctKeys(nodeData.value.config.GetOr([])) && DistinctKeys(nodeData.value.credentials.GetOr([]))
      ensures nodeData.Some? ==> config == nodeData.value.config.GetOr([]) && credentials == nodeData.value.credentials.GetOr([])
      ensures nodeData.None? ==> config == old(config) && credentials == old(credentials)
      ensures showCredentials == old(showCredentials)
      ensures old(Valid()) ==> Valid()
    {
      if nodeData.Some? {
        config := nodeData.value.config.GetOr([]);
        credentials := nodeData.value.credentials.GetOr([]);
      }
    }

    /** `setConfig(prev => ({ ...prev, [key]: value }))`. */
    method HandleConfigChange(key: string, value: Value)
      modifies this
      ensures config == Set(old(config), key, value)
      ensures Get(config, key) == Some(value)
      ensures forall k :: k != key ==> Get(config, k) == Get(old(config), k)
      ensures credentials == old(credentials) && showCredentials == old(showCredentials)
      ensures old(Valid()) ==> Valid()
    {
      if DistinctKeys(config) {
        SetKeepsKeysDistinct(config, key, value);
      }
      config := Set(config, key, value);
    }

    /** `setCredentials(prev => ({ ...prev, [key]: value }))`. */
    method HandleCredentialChange(key: string, value: string)
      modifies this
      ensures credentials == Set(old(credentials), key, value)
      ensures Get(credentials, key) == Some(value)
      ensures forall k :: k != key ==> Get(credentials, k) == Get(old(credentials), k)
      ensures CredentialFieldValue(credentials, key) == value
      ensures config == old(config) && showCredentials == old(showCredentials)
      ensures old(Valid()) ==> Valid()
    {
      if DistinctKeys(credentials) {
        SetKeepsKeysDistinct(credentials, key, value);
      }
      credentials := Set(credentials, key, value);
    }

    /** `setShowCredentials(prev => ({ ...prev, [key]: !prev[key] }))`; an unset key
        reads as `undefined`, so its first toggle makes it `true`. */
    method ToggleCredentialVisibility(key: string)
      modifies this
      ensures showCredentials == Set(old(showCredentials), key, !CredentialShown(old(showCredentials), key))
      ensures CredentialShown(showCredentials, key) == !CredentialShown(old(showCredentials), key)
      ensures Get(old(showCredentials), key).None? ==> CredentialShown(showCredentials, key)
      ensures forall k :: k != key ==> Get(showCredentials, k) == Get(old(showCredentials), k)
      ensures config == old(config) && credentials == old(credentials)
      ensures old(Valid()) ==> Valid()
    {
      var flipped := !CredentialShown(showCredentials, key);
      if DistinctKeys(showCredentials) {
        SetKeepsKeysDistinct(showCredentials, key, flipped);
      }
      showCredentials := Set(showCredentials, key, flipped);
    }

    /** `handleSave`: the patch handed to `onSave`. Merged into any node's data it
        replaces exactly the configuration and credentials with the panel's, and
        in a valid panel both carry distinct keys. */
    function HandleSave(): (p: NodeDataPatch)
      reads this
      ensures forall d :: Merge(d, p) == d.(config := Some(config), credentials := Some(credentials))
      ensures Valid() ==> p.config.Put? && p.config.value.Some? && DistinctKeys(p.config.value.value)
      ensures Valid() ==> p.credentials.Put? && p.credentials.value.Some? && DistinctKeys(p.credentials.value.value)
    {
      SavePatchReplaces(config, credentials);
      SavePatch(config, credentials)
    }
  }

  /** Toggling a credential's visibility twice restores whether it is shown. */
  lemma ToggleTwiceRestoresShown(show: Record<bool>, key: string)
    ensures CredentialShown(Set(Set(show, key, !CredentialShown(show, key)), key,
                                !CredentialShown(Set(show, key, !CredentialShown(show, key)), key)), key)
      == CredentialShown(show, key)
  {
  }
}
