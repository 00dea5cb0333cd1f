/** The values the workflow store computes when it replaces its node and edge
    lists: the node built from a template, the list after a shallow-merge
    update, the lists after a deletion, and the selected-node lookup. Also the
    two graph invariants stated over those lists: every edge names existing
    nodes, and no path of edges returns to where it started. */
module WorkflowGraph {
  import opened Wrappers
  import opened Records
  import opened Seqs
  import opened Text
  import opened WorkflowTypes

  /** The ids of `nodes`, in order. */
  function NodeIds(nodes: seq<Node>): (ids: seq<string>)
    ensures |ids| == |nodes|
    ensures forall i :: 0 <= i < |nodes| ==> ids[i] == nodes[i].id
  {
    seq(|nodes|, i requires 0 <= i < |nodes| => nodes[i].id)
  }

  /** No two nodes share an id. */
  predicate NodeIdsDistinct(nodes: seq<Node>) {
    forall i, j :: 0 <= i < j < |nodes| ==> nodes[i].id != nodes[j].id
  }

  /** Every edge's source and target are ids of nodes in the list. */
  predicate EdgesWellFormed(nodes: seq<Node>, edges: seq<Edge>) {
    forall i :: 0 <= i < |edges| ==> edges[i].source in NodeIds(nodes) && edges[i].target in NodeIds(nodes)
  }

  // ---------------------------------------------------------------------
  // addNode
  // ---------------------------------------------------------------------

  /** `${template.type}-${Date.now()}`. */
  function NewNodeId(kind: NodeType, now: nat): string {
    kind.Name() + "-" + NatToString(now)
  }

  /** The node `addNode` builds: the template's label and kind, a shallow copy of
      its default configuration and no credentials. */
  function NewNode(template: NodeTemplate, position: Position, now: nat): Node
    requires DistinctKeys(template.defaultConfig)
  {
    Node(NewNodeId(template.nodeType, now), position,
         NodeData(template.displayName, template.nodeType, Some(Spread([], template.defaultConfig)),
                  Some([]), None, None, None))
  }

  /** The new node carries the template's label and kind, a configuration equal
      to the template's defaults, empty credentials and nothing else. */
  lemma NewNodeFromTemplate(template: NodeTemplate, position: Position, now: nat)
    requires DistinctKeys(template.defaultConfig)
    ensures NewNode(template, position, now).position == position
    ensures NewNode(template, position, now).data ==
      NodeData(template.displayName, template.nodeType, Some(template.defaultConfig), Some([]), None, None, None)
  {
    SpreadCopies(template.defaultConfig);
  }

  /** Appending a node keeps every edge pointing at existing nodes, and keeps
      ids distinct when the new id is not taken. */
  lemma AppendKeepsInvariants(nodes: seq<Node>, edges: seq<Edge>, n: Node)
    ensures EdgesWellFormed(nodes, edges) ==> EdgesWellFormed(nodes + [n], edges)
    ensures NodeIdsDistinct(nodes) && n.id !in NodeIds(nodes) ==> NodeIdsDistinct(nodes + [n])
  {
    assert NodeIds(nodes + [n]) == NodeIds(nodes) + [n.id];
    if NodeIdsDistinct(nodes) && n.id !in NodeIds(nodes) {
      forall i | 0 <= i < |nodes| ensures nodes[i].id != n.id {
        assert NodeIds(nodes)[i] == nodes[i].id;
      }
    }
  }

  predicate NoDash(s: string) {
    forall i :: 0 <= i < |s| ==> s[i] != '-'
  }

  /** Splitting at the last `-`: a string `a + "-" + d` with no `-` in `d`
      determines `a` and `d`. */
  lemma SplitAtLastDash(a1: string, d1: string, a2: string, d2: string)
    requires NoDash(d1) && NoDash(d2)
    requires a1 + "-" + d1 == a2 + "-" + d2
    ensures a1 == a2 && d1 == d2
  {
    var s := a1 + "-" + d1;
    assert s[|a1|] == '-' && s[|a2|] == '-';
    assert forall k :: |a1| < k < |s| ==> s[k] == d1[k - |a1| - 1];
    assert forall k :: |a2| < k < |s| ==> s[k] == d2[k - |a2| - 1];
    assert |a1| == |a2|;
    assert a1 == s[..|a1|];
    assert a2 == s[..|a2|];
    assert d1 == s[|a1| + 1..];
    assert d2 == s[|a2| + 1..];
  }

  /** Ids made from different kinds or different clock readings differ. */
  lemma NewNodeIdsDiffer(k1: NodeType, t1: nat, k2: NodeType, t2: nat)
    requires k1 != k2 || t1 != t2
    ensures NewNodeId(k1, t1) != NewNodeId(k2, t2)
  {
    if NewNodeId(k1, t1) == NewNodeId(k2, t2) {
      assert NoDash(NatToString(t1)) && NoDash(NatToString(t2));
      SplitAtLastDash(k1.Name(), NatToString(t1), k2.Name(), NatToString(t2));
      ParseName(k1);
      ParseName(k2);
      NatToStringInjective(t1, t2);
    }
  }

  // ---------------------------------------------------------------------
  // updateNode
  // ---------------------------------------------------------------------

  /** `nds.map(node => node.id === nodeId ? { ...node, data: { ...node.data, ...patch } } : node)`. */
  function UpdatedNodes(nodes: seq<Node>, id: string, patch: NodeDataPatch): seq<Node> {
    seq(|nodes|, i requires 0 <= i < |nodes| =>
      if nodes[i].id == id then nodes[i].(data := Merge(nodes[i].data, patch)) else nodes[i])
  }

  /** The update keeps the count, the order and the ids; a node with the id gets
      its data merged with the patch and keeps its position; every other node is
      unchanged. */
  lemma UpdatedNodesShape(nodes: seq<Node>, id: string, patch: NodeDataPatch)
    ensures |UpdatedNodes(nodes, id, patch)| == |nodes|
    ensures NodeIds(UpdatedNodes(nodes, id, patch)) == NodeIds(nodes)
    ensures forall i :: 0 <= i < |nodes| && nodes[i].id == id ==>
      UpdatedNodes(nodes, id, patch)[i] == Node(id, nodes[i].position, Merge(nodes[i].data, patch))
    ensures forall i :: 0 <= i < |nodes| && nodes[i].id != id ==> UpdatedNodes(nodes, id, patch)[i] == nodes[i]
  {
  }

  /** An id no node has leaves the list as it was. */
  lemma UpdateUnknownIdIsNoop(nodes: seq<Node>, id: string, patch: NodeDataPatch)
    requires id !in NodeIds(nodes)
    ensures UpdatedNodes(nodes, id, patch) == nodes
  {
    forall i | 0 <= i < |nodes| ensures UpdatedNodes(nodes, id, patch)[i] == nodes[i] {
      assert NodeIds(nodes)[i] == nodes[i].id;
    }
  }

  /** The empty patch `{}` changes nothing. */
  lemma UpdateWithEmptyPatch(nodes: seq<Node>, id: string)
    ensures UpdatedNodes(nodes, id, EmptyPatch) == nodes
  {
    forall i | 0 <= i < |nodes| ensures UpdatedNodes(nodes, id, EmptyPatch)[i] == nodes[i] {
      MergeEmpty(nodes[i].data);
    }
  }

  /** Applying the same update twice is applying it once. */
  lemma UpdateIdempotent(nodes: seq<Node>, id: string, patch: NodeDataPatch)
    ensures UpdatedNodes(UpdatedNodes(nodes, id, patch), id, patch) == UpdatedNodes(nodes, id, patch)
  {
    var once := UpdatedNodes(nodes, id, patch);
    forall i | 0 <= i < |nodes| ensures UpdatedNodes(once, id, patch)[i] == once[i] {
      if nodes[i].id == id {
        MergeIdempotent(nodes[i].data, patch);
      }
    }
  }

  /** A key present in the patch takes the patch's value; an absent key keeps the
      old value. */
  lemma MergeOverrides(d: NodeData, p: NodeDataPatch)
    ensures Merge(d, p).displayName == if p.displayName.Put? then p.displayName.value else d.displayName
    ensures Merge(d, p).nodeType == if p.nodeType.Put? then p.nodeType.value else d.nodeType
    ensures Merge(d, p).config == if p.config.Put? then p.config.value else d.config
    ensures Merge(d, p).credentials == if p.credentials.Put? then p.credentials.value else d.credentials
    ensures Merge(d, p).lastExecuted == if p.lastExecuted.Put? then p.lastExecuted.value else d.lastExecuted
    ensures Merge(d, p).executionTime == if p.executionTime.Put? then p.executionTime.value else d.executionTime
    ensures Merge(d, p).status == if p.status.Put? then p.status.value else d.status
  {
  }

  lemma MergeEmpty(d: NodeData)
    ensures Merge(d, EmptyPatch) == d
  {
  }

  lemma MergeIdempotent(d: NodeData, p: NodeDataPatch)
    ensures Merge(Merge(d, p), p) == Merge(d, p)
  {
  }

  /** Updating keeps node ids distinct. */
  lemma UpdateKeepsIdsDistinct(nodes: seq<Node>, id: string, patch: NodeDataPatch)
    requires NodeIdsDistinct(nodes)
    ensures NodeIdsDistinct(UpdatedNodes(nodes, id, patch))
  {
    UpdatedNodesShape(nodes, id, patch);
  }

  /** Updating keeps every edge pointing at existing nodes. */
  lemma UpdateKeepsEdgesWellFormed(nodes: seq<Node>, edges: seq<Edge>, id: string, patch: NodeDataPatch)
    requires EdgesWellFormed(nodes, edges)
    ensures EdgesWellFormed(UpdatedNodes(nodes, id, patch), edges)
  {
    UpdatedNodesShape(nodes, id, patch);
  }

  // ---------------------------------------------------------------------
  // deleteNode
  // ---------------------------------------------------------------------

  /** `nds.filter(node => node.id !== nodeId)`. */
  function RemainingNodes(nodes: seq<Node>, id: string): seq<Node> {
    Filter(nodes, (n: Node) => n.id != id)
  }

  /** `eds.filter(edge => edge.source !== nodeId && edge.target !== nodeId)`. */
  function RemainingEdges(edges: seq<Edge>, id: string): seq<Edge> {
    Filter(edges, (e: Edge) => e.source != id && e.target != id)
  }

  /** After deletion no node has the id and no edge touches it; every other node
      and every edge not touching the id survive, in their original order. */
  lemma DeleteShape(nodes: seq<Node>, edges: seq<Edge>, id: string)
    ensures id !in NodeIds(RemainingNodes(nodes, id))
    ensures forall n :: n in RemainingNodes(nodes, id) <==> n in nodes && n.id != id
    ensures Subsequence(RemainingNodes(nodes, id), nodes)
    ensures forall e :: e in RemainingEdges(edges, id) <==> e in edges && e.source != id && e.target != id
    ensures Subsequence(RemainingEdges(edges, id), edges)
  {
    var r := RemainingNodes(nodes, id);
    forall i | 0 <= i < |r| ensures NodeIds(r)[i] != id {
      assert r[i] in r;
    }
  }

  /** Once a node is deleted, selecting its id finds nothing. */
  lemma DeletedNodeNotFound(nodes: seq<Node>, id: string)
    ensures FindSelected(RemainingNodes(nodes, id), Some(id)).None?
  {
    DeleteShape(nodes, [], id);
    FindSelectedSpec(RemainingNodes(nodes, id), Some(id));
  }

  /** Deleting a node keeps every remaining edge pointing at existing nodes. */
  lemma DeleteKeepsEdgesWellFormed(nodes: seq<Node>, edges: seq<Edge>, id: string)
    requires EdgesWellFormed(nodes, edges)
    ensures EdgesWellFormed(RemainingNodes(nodes, id), RemainingEdges(edges, id))
  {
    var ns, es := RemainingNodes(nodes, id), RemainingEdges(edges, id);
    forall i | 0 <= i < |es| ensures es[i].source in NodeIds(ns) && es[i].target in NodeIds(ns) {
      assert es[i] in edges;
      var k :| 0 <= k < |edges| && edges[k] == es[i];
      KeptIdStaysListed(nodes, id, es[i].source);
      KeptIdStaysListed(nodes, id, es[i].target);
    }
  }

  /** Deleting a node keeps node ids distinct. */
  lemma DeleteKeepsIdsDistinct(nodes: seq<Node>, id: string)
    requires NodeIdsDistinct(nodes)
    ensures NodeIdsDistinct(RemainingNodes(nodes, id))
  {
    FilterKeepsIdsDistinct(nodes, (n: Node) => n.id != id);
  }

  lemma {:induction false} FilterKeepsIdsDistinct(nodes: seq<Node>, p: Node -> bool)
    requires NodeIdsDistinct(nodes)
    ensures NodeIdsDistinct(Filter(nodes, p))
  {
    if nodes != [] {
      var rest := nodes[1..];
      TailIdsDistinct(nodes);
      FilterKeepsIdsDistinct(rest, p);
      var r := Filter(rest, p);
      if p(nodes[0]) {
        ConsIdsDistinct(nodes[0], r);
      }
    }
  }

  lemma TailIdsDistinct(nodes: seq<Node>)
    requires NodeIdsDistinct(nodes) && nodes != []
    ensures NodeIdsDistinct(nodes[1..])
    ensures forall x :: x in nodes[1..] ==> x.id != nodes[0].id
  {
    var rest := nodes[1..];
    forall i, j | 0 <= i < j < |rest| ensures rest[i].id != rest[j].id {
      assert rest[i] == nodes[i + 1] && rest[j] == nodes[j + 1];
    }
    forall x | x in rest ensures x.id != nodes[0].id {
      var m :| 0 <= m < |rest| && rest[m] == x;
      assert rest[m] == nodes[m + 1];
    }
  }

  lemma ConsIdsDistinct(n: Node, r: seq<Node>)
    requires NodeIdsDistinct(r)
    requires forall x :: x in r ==> x.id != n.id
    ensures NodeIdsDistinct([n] + r)
  {
    var s := [n] + r;
    forall i, j | 0 <= i < j < |s| ensures s[i].id != s[j].id {
      assert s[j] == r[j - 1];
      if i > 0 {
        assert s[i] == r[i - 1];
      } else {
        assert r[j - 1] in r;
      }
    }
  }

  lemma KeptIdStaysListed(nodes: seq<Node>, id: string, x: string)
    requires x in NodeIds(nodes) && x != id
    ensures x in NodeIds(RemainingNodes(nodes, id))
  {
    var j :| 0 <= j < |nodes| && NodeIds(nodes)[j] == x;
    var ns := RemainingNodes(nodes, id);
    assert nodes[j] in ns;
    var k :| 0 <= k < |ns| && ns[k] == nodes[j];
    assert NodeIds(ns)[k] == x;
  }

  // ---------------------------------------------------------------------
  // getSelectedNode
  // ---------------------------------------------------------------------

  /** `if (!selectedNodeId) return null; return nodes.find(n => n.id === selectedNodeId) || null`.
      The empty string is falsy, so it selects nothing. */
  function FindSelected(nodes: seq<Node>, selected: Option<string>): Option<Node> {
    if selected.None? || selected.value == "" then None
    else Find(nodes, (n: Node) => n.id == selected.value)
  }

  /** Nothing is found without a (non-empty) selection or when no node has the
      id; otherwise the result is the first node with the id. */
  lemma FindSelectedSpec(nodes: seq<Node>, selected: Option<string>)
    ensures FindSelected(nodes, selected).None? <==>
      selected.None? || selected.value == "" || selected.value !in NodeIds(nodes)
    ensures FindSelected(nodes, selected).Some? ==>
      exists i :: 0 <= i < |nodes| && FindSelected(nodes, selected) == Some(nodes[i])
        && nodes[i].id == selected.value && selected.value !in NodeIds(nodes[..i])
  {
    if selected.Some? && selected.value != "" {
      var x := selected.value;
      if x in NodeIds(nodes) {
        var j :| 0 <= j < |nodes| && NodeIds(nodes)[j] == x;
        assert nodes[j].id == x;
      }
      match FindSelected(nodes, selected)
      case None =>
      case Some(n) =>
        var i :| 0 <= i < |nodes| && nodes[i] == n && nodes[i].id == x && forall j :: 0 <= j < i ==> nodes[j].id != x;
        assert NodeIds(nodes)[i] == x;
        forall j | 0 <= j < i ensures NodeIds(nodes[..i])[j] != x {
          assert nodes[..i][j] == nodes[j];
        }
    }
  }

  // ---------------------------------------------------------------------
  // Paths
  // ---------------------------------------------------------------------

  /** `p` is a non-empty chain of edges of `edges`, each starting where the
      previous one ended. */
  predicate IsPath(edges: seq<Edge>, p: seq<Edge>) {
    && |p| > 0
    && (forall i :: 0 <= i < |p| ==> p[i] in edges)
    && (forall i :: 0 <= i < |p| - 1 ==> p[i].target == p[i + 1].source)
  }

  /** No path of edges comes back to the node it started from. */
  ghost predicate Acyclic(edges: seq<Edge>) {
    forall p: seq<Edge> :: IsPath(edges, p) ==> p[0].source != p[|p| - 1].target
  }

  /** Every edge goes from a lower to a higher rank. */
  predicate RankedBy(edges: seq<Edge>, rank: map<string, nat>) {
    forall i :: 0 <= i < |edges| ==>
      edges[i].source in rank && edges[i].target in rank && rank[edges[i].source] < rank[edges[i].target]
  }

  /** Along a path over ranked edges the rank strictly increases. */
  lemma {:induction false} PathRaisesRank(edges: seq<Edge>, rank: map<string, nat>, p: seq<Edge>)
    requires RankedBy(edges, rank) && IsPath(edges, p)
    ensures p[0].source in rank && p[|p| - 1].target in rank
    ensures rank[p[0].source] < rank[p[|p| - 1].target]
    decreases |p|
  {
    var e :| e in edges && e == p[0];
    if |p| > 1 {
      assert IsPath(edges, p[1..]);
      PathRaisesRank(edges, rank, p[1..]);
    }
  }

  /** A graph whose edges all climb some ranking has no cycle. */
  lemma RankedIsAcyclic(edges: seq<Edge>, rank: map<string, nat>)
    requires RankedBy(edges, rank)
    ensures Acyclic(edges)
  {
    forall p: seq<Edge> | IsPath(edges, p) ensures p[0].source != p[|p| - 1].target {
      PathRaisesRank(edges, rank, p);
    }
  }

  /** `id` is the target of some edge. */
  predicate HasIncoming(edges: seq<Edge>, id: string) {
    exists i :: 0 <= i < |edges| && edges[i].target == id
  }
}
