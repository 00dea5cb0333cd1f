# n8n-io workflow editor: a Dafny model

This project models the editor core of the n8n-io web app. It covers six parts:

- **Node catalog.** The eleven node templates and the six sidebar categories.
- **Workflow store.** The `useWorkflow` hook: the node list, edge list, workflow record, execution flag and selection, together with the operations that replace them.
- **Nodes sidebar.** Search, grouping by category slug, the hide rule, the count label and the expand/collapse set.
- **Node configuration panel.** Template lookup, the shown value of each input, credential fields, and the panel's local state.
- **Canvas node card.** Icon, status icon, ring, type label, configuration preview and connection handles.
- **Sample workflow.** The graph and runs the store starts from.

Stateful parts are classes whose methods update fields:

- `UseWorkflow.WorkflowStore`
- `NodeConfigPanel.ConfigPanel`
- `NodesSidebar.SidebarState`

Everything else is functions over datatypes, with lemmas about them.

Module layout:

- **Support modules:**
  - `Wrappers`: an `Option`, with `x ?? d` as `GetOr`.
  - `Seqs`: `filter`, `findIndex` and `find`.
  - `Text`: ASCII case mapping, `includes`, the category slug, decimal rendering and the UTF-16 code units of a string.
  - `Records`: a JavaScript plain object, kept as an ordered list of entries so that `Object.keys` lists keys in the order they were added and `{ ...r, [k]: v }` keeps an existing key's place. This is JavaScript's order for the non-integer-like keys the app uses; see "Left out".
  - `WorkflowTypes`: the shared types.
- **Core modules, one per source file:**
  - `NodeCatalog`
  - `WorkflowGraph` together with `UseWorkflow`
  - `NodesSidebar`
  - `NodeConfigPanel`
  - `CustomNode`
  - `DummyWorkflow`

Modelling choices:

- `type` is a Dafny keyword. The TypeScript fields `type` and `label` are therefore named `nodeType`, `inputType`, `valueType` and `displayName`.
- A `Partial<NodeData>` patch is a record of `Keep | Put(v)` fields.
- Clock readings (`Date.now()`, `new Date()`) and the random test duration are parameters.

## Model

Paths are relative to the repository root.

| member | source | states |
|---|---|---|
| Seqs.Filter | apps/web/src/hooks/use-workflow.ts:71-72 | `filter` keeps exactly the elements satisfying the predicate. It keeps them in order (a subsequence) and with their multiplicities. |
| Seqs.FilterKeepsAll | apps/web/src/components/workflow/nodes-sidebar.tsx:34-38 | A predicate every element satisfies filters nothing out. |
| Seqs.FilterCongruent | apps/web/src/components/workflow/nodes-sidebar.tsx:34-38 | Predicates that agree on every element filter alike. |
| Seqs.FindIndex | apps/web/src/hooks/use-workflow.ts:128 | The index found satisfies the predicate and no earlier index does. None means that no element satisfies it. |
| Seqs.Find | apps/web/src/hooks/use-workflow.ts:128 | `find` returns the first satisfying element, or nothing exactly when none satisfies. |
| Text.LowerChar | apps/web/src/components/workflow/nodes-sidebar.tsx:35-36 | `toLowerCase` on one character maps A-Z down by 32 and leaves every other character alone. |
| Text.UpperChar | apps/web/src/components/workflow/node-config-panel.tsx:192 | `toUpperCase` on one character maps a-z up by 32 and leaves every other character alone. |
| Text.LowerShape | apps/web/src/components/workflow/nodes-sidebar.tsx:35-36 | A lowered string has no upper-case letter and keeps every other character. |
| Text.LowerIdempotent | apps/web/src/components/workflow/nodes-sidebar.tsx:35-36 | Lowering twice is lowering once. |
| Text.Includes | apps/web/src/components/workflow/nodes-sidebar.tsx:35-36 | `s.includes(q)` holds iff `q` occurs in `s` at some index. |
| Text.IncludesEmpty | apps/web/src/components/workflow/nodes-sidebar.tsx:35-36 | Every string includes the empty string. |
| Text.SlugShape | apps/web/src/components/workflow/nodes-sidebar.tsx:43 | `toLowerCase().replace(/\s+/g, '-')` leaves no whitespace and no upper-case letter. |
| Text.SlugOfWord | apps/web/src/components/workflow/nodes-sidebar.tsx:43 | The slug of one word is that word lowered. |
| Text.SlugJoin | apps/web/src/components/workflow/nodes-sidebar.tsx:43 | A single space between words becomes one dash. |
| Text.SlugOfTwoWords | apps/web/src/components/workflow/nodes-sidebar.tsx:43 | Two words give `a-b`, lowered. |
| Text.SlugOfFourWords | apps/web/src/components/workflow/nodes-sidebar.tsx:43 | Four words give `a-b-c-d`, lowered. |
| Text.NatToString | apps/web/src/components/workflow/nodes-sidebar.tsx:132 | A count renders as at least one decimal digit, with no leading zero except for 0 itself. |
| Text.NatToStringRoundTrip | apps/web/src/components/workflow/nodes-sidebar.tsx:132 | Reading the rendered digits back gives the count. |
| Text.NatToStringInjective | apps/web/src/components/workflow/nodes-sidebar.tsx:132 | Different counts render differently. |
| Text.CodeUnits | apps/web/src/components/workflow/custom-node.tsx:130 | A character below U+10000 is one code unit equal to itself. Any other character is a high surrogate then a low surrogate, which decode back to the character. |
| Text.Utf16 | apps/web/src/components/workflow/custom-node.tsx:130 | A string has at least as many code units as characters, each in 0..0xFFFF. |
| Text.Utf16Append | apps/web/src/components/workflow/custom-node.tsx:130 | The code units of a concatenation are the two parts' code units, in order. |
| Text.Utf16Bmp | apps/web/src/components/workflow/custom-node.tsx:130 | A string with no character above U+FFFF has one code unit per character, equal to it. |
| Text.Utf16Astral | apps/web/src/components/workflow/custom-node.tsx:130 | A string of characters above U+FFFF has two code units per character. |
| Records.Get | apps/web/src/components/workflow/node-config-panel.tsx:75 | A lookup finds nothing iff the key is absent. |
| Records.GetFindsStored | apps/web/src/components/workflow/node-config-panel.tsx:75 | A value found under a key is the one stored in the key's first entry. |
| Records.Set | apps/web/src/components/workflow/node-config-panel.tsx:51 | `{ ...r, [k]: v }` maps `k` to `v` and leaves every other key alone. An existing key keeps its place; a new key is appended. |
| Records.SetKeepsKeysDistinct | apps/web/src/components/workflow/node-config-panel.tsx:51 | The update keeps the keys distinct. |
| Records.SetAppendsNewKey | apps/web/src/components/workflow/node-config-panel.tsx:51 | A new key is added at the end. |
| Records.SetKeepsOtherEntries | apps/web/src/components/workflow/node-config-panel.tsx:51 | Entries before the updated key are untouched. |
| Records.Spread | apps/web/src/hooks/use-workflow.ts:45 | `{ ...r, ...p }` takes each key from `p` when `p` has it, and from `r` otherwise. |
| Records.SpreadCopies | apps/web/src/hooks/use-workflow.ts:45 | `{ ...p }` is a copy of `p`, with the same entries in the same order. |
| Records.CopyAppends | apps/web/src/hooks/use-workflow.ts:45 | Spreading fresh keys appends them in order. |
| Records.DistinctParts | apps/web/src/hooks/use-workflow.ts:45 | Both parts of a distinct-keyed concatenation are distinct and disjoint. |
| WorkflowTypes.AllNodeTypesDistinct | apps/web/src/types/workflow.ts:10-21 | The list of kinds names each of the eleven kinds once and misses none. |
| WorkflowTypes.ParseNodeType | apps/web/src/types/workflow.ts:10-21 | A tag parses to the kind with that name, and to none when no kind has it. |
| WorkflowTypes.ParseName | apps/web/src/types/workflow.ts:10-21 | Parsing a kind's tag gives the kind back. |
| NodeCatalog.DefaultsFromMembers | apps/web/src/data/node-templates.ts:18-30 | The per-member form of the default checks gives the per-index form. |
| NodeCatalog.TemplateKinds | apps/web/src/data/node-templates.ts:3-479 | The catalog lists each of the eleven kinds once, in declaration order. Each template's id equals its kind tag. |
| NodeCatalog.CatalogByKind | apps/web/src/data/node-templates.ts:3-479 | The i-th template is the template of the i-th kind. |
| NodeCatalog.TemplateIdsDistinct | apps/web/src/data/node-templates.ts:3-479 | No two templates share a kind or an id. |
| NodeCatalog.KindsDetermineIds | apps/web/src/data/node-templates.ts:3-479 | Any list with one template per kind, with ids equal to the tags, has distinct kinds and ids. |
| NodeCatalog.CredentialCounts | apps/web/src/data/node-templates.ts:16 | Webhook, memory, response, if and form need no credential. Every other kind needs exactly one. |
| NodeCatalog.CatalogKeysDistinct | apps/web/src/data/node-templates.ts:3-479 | Within each template, input keys, output keys and default-config keys are each distinct. |
| NodeCatalog.CatalogDefaultsConsistent | apps/web/src/data/node-templates.ts:18-30 | Every select default is one of its options. An input default and the default config agree on a shared key. |
| NodeCatalog.OnlyIfConditionBranches | apps/web/src/data/node-templates.ts:436-439 | Only the if template has `true`/`false` outputs. |
| NodeCatalog.TemplateCategoryLabels | apps/web/src/data/node-templates.ts:10 | Every template's category label is the label of a sidebar category. |
| NodeCatalog.CategoryIdsDistinct | apps/web/src/data/node-templates.ts:481-488 | The six category ids are distinct. |
| NodeCatalog.CategorySlugs | apps/web/src/data/node-templates.ts:481-488 | Each category id is the slug of its label. |
| NodeCatalog.TemplateCategoriesAreIds | apps/web/src/data/node-templates.ts:10 | Every template's category slug is the id of exactly one category. |
| WorkflowGraph.NewNodeFromTemplate | apps/web/src/hooks/use-workflow.ts:38-48 | A new node sits at the given position. It has the template's label and kind, a copy of the default config, empty credentials and no run data. |
| WorkflowGraph.AppendKeepsInvariants | apps/web/src/hooks/use-workflow.ts:50 | Appending keeps every edge's endpoints listed. It keeps ids distinct when the new id is fresh. |
| WorkflowGraph.SplitAtLastDash | apps/web/src/hooks/use-workflow.ts:39 | `kind-digits` splits back uniquely at the last dash. |
| WorkflowGraph.NewNodeIdsDiffer | apps/web/src/hooks/use-workflow.ts:39 | New ids built from different kinds or different clock readings differ. |
| WorkflowGraph.UpdatedNodesShape | apps/web/src/hooks/use-workflow.ts:54-68 | `updateNode` keeps the length, ids and positions. Nodes with the id get the merged data; all others are unchanged. |
| WorkflowGraph.UpdateUnknownIdIsNoop | apps/web/src/hooks/use-workflow.ts:54-68 | Updating an absent id changes nothing. |
| WorkflowGraph.UpdateWithEmptyPatch | apps/web/src/hooks/use-workflow.ts:88 | The empty patch changes nothing. |
| WorkflowGraph.UpdateIdempotent | apps/web/src/hooks/use-workflow.ts:54-68 | Applying the same patch twice is applying it once. |
| WorkflowGraph.MergeEmpty | apps/web/src/hooks/use-workflow.ts:60-63 | Merging an empty patch is the identity. |
| WorkflowGraph.MergeIdempotent | apps/web/src/hooks/use-workflow.ts:60-63 | Merging a patch twice is merging it once. |
| WorkflowGraph.UpdateKeepsIdsDistinct | apps/web/src/hooks/use-workflow.ts:54-68 | Updates keep node ids distinct. |
| WorkflowGraph.UpdateKeepsEdgesWellFormed | apps/web/src/hooks/use-workflow.ts:54-68 | Updates keep every edge's endpoints listed. |
| WorkflowGraph.DeleteShape | apps/web/src/hooks/use-workflow.ts:70-73 | `deleteNode` keeps exactly the other nodes and the edges not touching the id, in order. |
| WorkflowGraph.DeletedNodeNotFound | apps/web/src/hooks/use-workflow.ts:70-73 | After deletion, a selection of the deleted id finds no node. |
| WorkflowGraph.DeleteKeepsEdgesWellFormed | apps/web/src/hooks/use-workflow.ts:70-73 | After deletion, every edge still joins two listed nodes. |
| WorkflowGraph.DeleteKeepsIdsDistinct | apps/web/src/hooks/use-workflow.ts:71 | Deletion keeps ids distinct. |
| WorkflowGraph.FilterKeepsIdsDistinct | apps/web/src/hooks/use-workflow.ts:71 | Any filter of a list with distinct ids has distinct ids. |
| WorkflowGraph.KeptIdStaysListed | apps/web/src/hooks/use-workflow.ts:71 | Every other id is still listed after deletion. |
| WorkflowGraph.FindSelectedSpec | apps/web/src/hooks/use-workflow.ts:126-129 | `getSelectedNode` is null iff the selection is null, empty or not listed. Otherwise it is the first node with that id. |
| WorkflowGraph.PathRaisesRank | apps/web/src/data/dummy-workflow.ts:142-151 | Along a path, a ranking's value strictly rises. |
| WorkflowGraph.RankedIsAcyclic | apps/web/src/data/dummy-workflow.ts:142-151 | A graph with a ranking that every edge raises has no cycle. |
| UseWorkflow.TestPatchTouchesRunFieldsOnly | apps/web/src/hooks/use-workflow.ts:95-98 | A test writes the last-run time and the duration and nothing else. |
| UseWorkflow.WorkflowStore.constructor | apps/web/src/hooks/use-workflow.ts:10-14 | The store starts with the sample nodes, edges and record, not executing, with nothing selected. That state is valid. |
| UseWorkflow.WorkflowStore.SelectedNode | apps/web/src/hooks/use-workflow.ts:126-129 | The result is a listed node with the selected id. It is null iff the selection is null, empty or not listed. |
| UseWorkflow.WorkflowStore.AddNode | apps/web/src/hooks/use-workflow.ts:37-52 | The new node is appended and its id returned. Nothing else changes. Validity is kept when the id is fresh. |
| UseWorkflow.WorkflowStore.UpdateNode | apps/web/src/hooks/use-workflow.ts:54-68 | The nodes become the updated list. Nothing else changes, and validity is kept. |
| UseWorkflow.WorkflowStore.DeleteNode | apps/web/src/hooks/use-workflow.ts:70-73 | The node and its edges are removed and validity is kept. A selection of the deleted id then finds nothing. |
| UseWorkflow.WorkflowStore.StopExecution | apps/web/src/hooks/use-workflow.ts:83-85 | Clears the execution flag only. |
| UseWorkflow.WorkflowStore.TestNode | apps/web/src/hooks/use-workflow.ts:87-99 | After the empty update and the test patch, the node records the test time and a duration between 100 and 900. Validity is kept. |
| UseWorkflow.WorkflowStore.SaveWorkflow | apps/web/src/hooks/use-workflow.ts:101-109 | Only `updatedAt` changes, to the save time. |
| UseWorkflow.WorkflowStore.ToggleWorkflowActive | apps/web/src/hooks/use-workflow.ts:111-116 | Only `isActive` changes, to the argument. |
| UseWorkflow.WorkflowStore.OnNodeClick | apps/web/src/hooks/use-workflow.ts:118-120 | Selects the clicked id, so a listed non-empty id is then the selected node. |
| UseWorkflow.WorkflowStore.OnPaneClick | apps/web/src/hooks/use-workflow.ts:122-124 | Clears the selection, so no node is selected. |
| NodesSidebar.EmptyQueryShowsAll | apps/web/src/components/workflow/nodes-sidebar.tsx:34-38 | The empty query shows every template. |
| NodesSidebar.SearchIgnoresCase | apps/web/src/components/workflow/nodes-sidebar.tsx:35-36 | A query and its lowered form show the same templates. |
| NodesSidebar.LowerAppend | apps/web/src/components/workflow/nodes-sidebar.tsx:35-36 | Lowering distributes over concatenation. |
| NodesSidebar.IncludesPrefix | apps/web/src/components/workflow/nodes-sidebar.tsx:35-36 | A string that includes `a + b` includes `a`. |
| NodesSidebar.TypingNarrowsResults | apps/web/src/components/workflow/nodes-sidebar.tsx:34-38 | Extending the query never shows a template the shorter query hid. |
| NodesSidebar.GroupedSpec | apps/web/src/components/workflow/nodes-sidebar.tsx:40-46 | The grouping has a key exactly for each category id. Each key maps to the shown templates whose category slug is that id. |
| NodesSidebar.SectionContents | apps/web/src/components/workflow/nodes-sidebar.tsx:108 | `grouped[id] \|\| []` holds exactly the shown templates of that category. |
| NodesSidebar.CatalogCategoriesCover | apps/web/src/data/node-templates.ts:481-488 | The catalog's category ids are distinct, and every template slug is one of them. |
| NodesSidebar.SectionsPartition | apps/web/src/components/workflow/nodes-sidebar.tsx:40-46 | Every shown template appears in exactly one category section. |
| NodesSidebar.ShownTemplateInOneSection | apps/web/src/components/workflow/nodes-sidebar.tsx:107-108 | A template matching the query is listed under exactly one category. |
| NodesSidebar.AllSectionsEmpty | apps/web/src/components/workflow/nodes-sidebar.tsx:108 | No template is shown iff every section is empty. |
| NodesSidebar.NoticeIffAllSectionsHidden | apps/web/src/components/workflow/nodes-sidebar.tsx:112 | With an empty query no section is hidden. The notice shows iff the query is non-empty and every section is hidden. |
| NodesSidebar.CountLabelReads | apps/web/src/components/workflow/nodes-sidebar.tsx:132 | The label's leading digits read back as the count and are followed by " node". It ends in `s` iff the count is not 1. |
| NodesSidebar.RequiresAuthBadges | apps/web/src/components/workflow/nodes-sidebar.tsx:166 | Exactly the templates of the six credentialed kinds show the badge. |
| NodesSidebar.InitiallyExpandedCategories | apps/web/src/components/workflow/nodes-sidebar.tsx:30-32 | The initially open sections are the first three categories, and all are category ids. |
| NodesSidebar.ToggleSpec | apps/web/src/components/workflow/nodes-sidebar.tsx:48-56 | Toggling flips membership of the id only. Toggling twice restores the set. |
| NodesSidebar.SidebarState.constructor | apps/web/src/components/workflow/nodes-sidebar.tsx:29-32 | Starts with an empty query and the three default sections open. |
| NodesSidebar.SidebarState.SetSearchQuery | apps/web/src/components/workflow/nodes-sidebar.tsx:98 | Replaces the query and keeps the open sections. |
| NodesSidebar.SidebarState.ToggleCategory | apps/web/src/components/workflow/nodes-sidebar.tsx:118 | Flips one section and keeps the query. |
| NodeConfigPanel.TemplateForKind | apps/web/src/components/workflow/node-config-panel.tsx:37 | `find` by kind always succeeds, and returns the template of that kind. |
| NodeConfigPanel.FindInKindOrder | apps/web/src/components/workflow/node-config-panel.tsx:37 | In a list with one template per kind in kind order, `find` returns that kind's template. |
| NodeConfigPanel.PanelShownExactly | apps/web/src/components/workflow/node-config-panel.tsx:46-48 | The panel renders iff it is open, has node data, and has a non-empty id. |
| NodeConfigPanel.DisplayedValueOrder | apps/web/src/components/workflow/node-config-panel.tsx:75 | States each case of `??`. A falsy but non-nullish value (`''`, `0`) is shown as is. |
| NodeConfigPanel.FreshNodeShowsDefaults | apps/web/src/components/workflow/node-config-panel.tsx:75 | A fresh node of a catalog template shows each input's non-null default. |
| NodeConfigPanel.SpacesForUnderscores | apps/web/src/components/workflow/node-config-panel.tsx:192 | `replace(/_/g, ' ')` keeps the length. |
| NodeConfigPanel.CapitalizeWords | apps/web/src/components/workflow/node-config-panel.tsx:192 | `replace(/\b\w/g, upper)` keeps the length. |
| NodeConfigPanel.CredentialLabelShape | apps/web/src/components/workflow/node-config-panel.tsx:192 | The label has the key's length and no underscore. Each word starts with the key's character upper-cased, which is not lower-case. Every other character is the key's, with `_` turned into a space. |
| NodeConfigPanel.TelegramTokenLabel | apps/web/src/components/workflow/node-config-panel.tsx:192 | `telegram_bot_token` is labelled `Telegram Bot Token`. |
| NodeConfigPanel.SpacesAtUnderscore | apps/web/src/components/workflow/node-config-panel.tsx:192 | Each underscore becomes a space, piecewise. |
| NodeConfigPanel.CapitalizeAtSpace | apps/web/src/components/workflow/node-config-panel.tsx:192 | Capitalising distributes over a space. |
| NodeConfigPanel.CapitalizeWord | apps/web/src/components/workflow/node-config-panel.tsx:192 | A single word gets only its first letter raised. |
| NodeConfigPanel.CredentialPlaceholder | apps/web/src/components/workflow/node-config-panel.tsx:201 | The placeholder is "Enter your " followed by the key, with each underscore turned into a space. |
| NodeConfigPanel.SavePatchReplaces | apps/web/src/components/workflow/node-config-panel.tsx:62-67 | Merging the save patch into any node data replaces exactly its config and credentials. |
| NodeConfigPanel.CredentialFieldAfterChange | apps/web/src/components/workflow/node-config-panel.tsx:199-200 | After a credential change the changed field shows the new value and every other field is unchanged. |
| NodeConfigPanel.SaveReplacesConfigAndCredentials | apps/web/src/components/workflow/node-config-panel.tsx:62-67 | Saving replaces the node's config and credentials and nothing else. Saving unedited state changes nothing. |
| NodeConfigPanel.ConfigPanel.constructor | apps/web/src/components/workflow/node-config-panel.tsx:33-35 | The three local records start empty. |
| NodeConfigPanel.ConfigPanel.Reseed | apps/web/src/components/workflow/node-config-panel.tsx:39-44 | With node data, the config and credentials are reseeded from it (`\|\| {}`). Without it they are kept. |
| NodeConfigPanel.ConfigPanel.HandleConfigChange | apps/web/src/components/workflow/node-config-panel.tsx:50-52 | Sets one config key and leaves every other key and record alone. |
| NodeConfigPanel.ConfigPanel.HandleCredentialChange | apps/web/src/components/workflow/node-config-panel.tsx:54-56 | Sets one credential and leaves every other key and record alone. The credential's field then shows the new value. |
| NodeConfigPanel.ConfigPanel.ToggleCredentialVisibility | apps/web/src/components/workflow/node-config-panel.tsx:58-60 | Flips one visibility flag. A never-toggled field becomes visible. |
| NodeConfigPanel.ConfigPanel.HandleSave | apps/web/src/components/workflow/node-config-panel.tsx:62-67 | Merging the saved patch into any node data replaces exactly its config and credentials with the panel's. When the panel is valid, both are present with distinct keys. |
| NodeConfigPanel.ToggleTwiceRestoresShown | apps/web/src/components/workflow/node-config-panel.tsx:58-60 | Toggling a field twice restores its visibility. |
| CustomNode.NodeIconFallback | apps/web/src/components/workflow/custom-node.tsx:17-33 | The `?` icon shows iff the tag names no kind and is not a member every object inherits. A kind's tag gets that kind's badge. An inherited member's name (`constructor`, `toString`, ...) is looked up instead of the fallback. |
| CustomNode.StatusIconCases | apps/web/src/components/workflow/custom-node.tsx:35-46 | A status icon shows iff the status is running, success or error, and distinct statuses get distinct icons. |
| CustomNode.RingPrecedence | apps/web/src/components/workflow/custom-node.tsx:48-65 | Selection wins. Otherwise the ring follows the status icon, and it is the hover ring iff there is no status icon. |
| CustomNode.ActionsFollowStatus | apps/web/src/components/workflow/custom-node.tsx:100 | A card whose ring is not the hover ring, in particular one with a status icon, shows its actions. Without a status the actions show iff the card is selected. |
| CustomNode.FirstDash | apps/web/src/components/workflow/custom-node.tsx:88 | The index of the first dash, or the length when there is none. |
| CustomNode.ReplaceFirstDashSpec | apps/web/src/components/workflow/custom-node.tsx:88 | `replace('-', ' ')` changes only the first dash, into a space. |
| CustomNode.KindLabels | apps/web/src/components/workflow/custom-node.tsx:88 | `llm-gemini` shows as `llm gemini`, and only the first of several dashes goes. |
| CustomNode.TruncateSpec | apps/web/src/components/workflow/custom-node.tsx:130 | Lengths count UTF-16 code units. A value of at most 20 units shows whole. A longer one shows its first 20 units then `...`. The result is at most 23 units. For text with no character above U+FFFF, units are characters. |
| CustomNode.FifteenEmojiAreCut | apps/web/src/components/workflow/custom-node.tsx:130 | Fifteen emoji are 30 code units, so the preview shows the first ten emoji then `...`. |
| CustomNode.PreviewLinesSpec | apps/web/src/components/workflow/custom-node.tsx:127-131 | The preview shows the first two entries in key order, each value truncated to 20 code units. |
| CustomNode.PreviewMatchesLines | apps/web/src/components/workflow/custom-node.tsx:125-127 | The preview block shows iff there is a config and it yields at least one preview line. |
| CustomNode.HandleSets | apps/web/src/components/workflow/custom-node.tsx:149-195 | One target handle comes first. If nodes have `true`/`false` source handles; every other kind has one unnamed source handle. |
| CustomNode.IfHandlesAreTemplateOutputs | apps/web/src/data/node-templates.ts:436-439 | The if node's handle ids are its template's output keys. |
| DummyWorkflow.DummyGraphWellFormed | apps/web/src/data/dummy-workflow.ts:4-151 | The sample node ids are distinct, and every sample edge joins two of them. |
| DummyWorkflow.DummyGraphAcyclic | apps/web/src/data/dummy-workflow.ts:142-151 | The sample graph has no cycle. |
| DummyWorkflow.WebhookIsOnlyEntry | apps/web/src/data/dummy-workflow.ts:142-151 | `webhook-1` is the only node with no incoming edge. |
| DummyWorkflow.DummyEdgesUseDrawnHandles | apps/web/src/data/dummy-workflow.ts:145-146 | Only edges out of `if-1` name a handle. Every edge leaves from a handle that its own source node's card draws. |
| DummyWorkflow.SampleActionsVisible | apps/web/src/data/dummy-workflow.ts:4-140 | Unselected, every sample card shows its actions except `telegram-send-1`, the one without a status. |
| DummyWorkflow.DeleteIfNodeWellFormed | apps/web/src/data/dummy-workflow.ts:142-151 | Deleting `if-1` from the sample leaves a well-formed graph. |
| DummyWorkflow.DummyKindsHaveTemplates | apps/web/src/data/dummy-workflow.ts:4-140 | The panel finds the catalog template of every sample node's kind. |
| DummyWorkflow.DummyCredentialsMatchCatalog | apps/web/src/data/dummy-workflow.ts:4-140 | Every sample node carries exactly its template's credential keys. |
| DummyWorkflow.DummyRunsConsistent | apps/web/src/data/dummy-workflow.ts:153-211 | Each sample run agrees with its node runs: a completed run has all nodes completed, and a failed run has a failed node with an error. Times nest and only sample node ids are named. The runs are newest first, and the record was created before it was last updated. |

## Left out

- `executeWorkflow` (use-workflow.ts:75-81) only raises the execution flag around a random-length timer. Timers and asynchrony are not modelled.
- `onNodesChange`, `onEdgesChange` and `onConnect` delegate to the canvas library's `applyNodeChanges`, `applyEdgeChanges` and `addEdge`. That library is not part of this model.
- Clock readings and `Math.random()` are parameters: `now` for `Date.now()`/`new Date()`, and the test duration for `Math.round(Math.random() * 800 + 100)`.
  - Dates are milliseconds, except the ISO strings in the sample runs, which are one parameter.
  - Every `Date.now()` call in the sample data is taken as the same reading.
- UseWorkflow.WorkflowStore.TestNode: the simulated delays before and inside the test are not modelled, so both updates apply at once.
- UseWorkflow.WorkflowStore.AddNode, WorkflowGraph.NewNode and NodeConfigPanel.ConfigPanel.Reseed require the config they copy to have distinct keys. This is always true of a JavaScript object, and the catalog templates are proved to satisfy it.
- UseWorkflow.WorkflowStore.AddNode keeps id distinctness only when the clock-derived id is fresh. Two additions of one kind within the same millisecond collide in the source too.
- Numbers in configs are kept as their literal text (`VNumber("0.7")`).
  - `parseFloat(e.target.value) || 0` on number inputs (node-config-panel.tsx:112) is not modelled, because floating point is out of scope. The handler is modelled as storing a given value.
- `Text.Lower` and `Text.UpperChar` map ASCII letters only. JavaScript's full Unicode case mapping is not modelled, and every label, description and key in the catalog is ASCII.
- `\s` in the slug is taken as its ASCII members.
- `handleTest` (node-config-panel.tsx:69-72) calls `handleSave` and then the parent's `onTest`. The parent callback is outside this model; the save part is `HandleSave`.
- Rendering is left out: JSX layout, CSS classes, icons as components, the sidebar's collapsed (`!isOpen`) view and `categoryIcons` fallback, and the toggle and close buttons. Only the visible decisions are kept: which icon, ring, label, preview, badge, section and notice show.
- The other `renderInput` branches (node-config-panel.tsx:77-125) differ only in which widget shows the value. The value shown is `DisplayedValue`.
- The sidebar lemmas are stated over any template and category lists covered by `CategoriesCover`. `CatalogCategoriesCover` discharges that premise for the catalog.
- DummyWorkflow: the sample node configs are not checked against their templates' input lists. Only the credential keys and the template lookup are proved.
- DummyWorkflow.DeleteIfNodeWellFormed proves the remaining sample graph well formed but does not spell out the surviving edge list.
- CustomNode.TruncateSpec is an exact case split, not an "iff it was truncated" statement: a 23-unit value that happens to end in `...` is shown unchanged and looks the same.
- Strings are sequences of Unicode scalar values. UTF-16 code units are modelled only where a length or slice is observable, in the preview truncation; a lone surrogate cannot occur in a Dafny string, and `slice` cutting a surrogate pair in half is represented by the resulting code-unit sequence.
- Records.Set, Records.SetAppendsNewKey, Records.CopyAppends and Records.Keys keep insertion order for every key. JavaScript lists integer-like keys (`"0"`, `"42"`) first, in ascending numeric order, so the model's order is JavaScript's only for records without such keys, which covers every config and credential key in the catalog and sample data.
- CustomNode.NodeIconFallback: the inherited members are those of `Object.prototype` listed in `ObjectPrototypeMembers`; what the inherited value renders as is not modelled, only that the fallback is not shown.
- `packages/tasks` and the page components are not part of this model.
