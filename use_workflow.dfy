/** The editor's workflow store: the node and edge lists, the workflow record,
    the execution flag and the selected node id, with the operations that
    replace them. The clock reading and the random test duration are
    parameters. */
module UseWorkflow {
  import opened Wrappers
  import opened Records
  import opened WorkflowTypes
  import opened WorkflowGraph
  import opened DummyWorkflow

  /** The patch a node test writes: when it ran and how long it took. */
  function TestPatch(now: int, executionTime: int): NodeDataPatch {
    EmptyPatch.(lastExecuted := Put(Some(now)), executionTime := Put(Some(executionTime)))
  }

  /** A test run changes a node's last-run time and duration and nothing else. */
  lemma TestPatchTouchesRunFieldsOnly(d: NodeData, now: int, executionTime: int)
    ensures Merge(d, TestPatch(now, executionTime)) ==
      d.(lastExecuted := Some(now), executionTime := Some(executionTime))
  {
    MergeOverrides(d, TestPatch(now, executionTime));
  }

  class WorkflowStore {
    var nodes: seq<Node>
    var edges: seq<Edge>
    var workflow: WorkflowData
    var isExecuting: bool
    var selectedNodeId: Option<string>

    /** Node ids are distinct and every edge joins two existing nodes. */
    ghost predicate Valid()
      reads this
    {
      NodeIdsDistinct(nodes) && EdgesWellFormed(nodes, edges)
    }

    /** The store starts from the sample graph, not executing, nothing selected. */
    constructor (now: int, isoNow: string)
      ensures nodes == DummyNodes(now) && edges == DummyEdges
      ensures workflow == DummyWorkflowData(now, isoNow)
      ensures !isExecuting && selectedNodeId == None
      ensures Valid()
    {
      nodes := DummyNodes(now);
      edges := DummyEdges;
      workflow := DummyWorkflowData(now, isoNow);
      isExecuting := false;
      selectedNodeId := None;
      DummyGraphWellFormed(now);
    }

    /** `getSelectedNode`. */
    function SelectedNode(): (r: Option<Node>)
      reads this
      ensures r.Some? ==> selectedNodeId.Some? && r.value in nodes && r.value.id == selectedNodeId.value
      ensures r.None? <==> selectedNodeId.None? || selectedNodeId.value == "" || selectedNodeId.value !in NodeIds(nodes)
    {
      FindSelectedSpec(nodes, selectedNodeId);
      FindSelected(nodes, selectedNodeId)
    }

    /** `addNode`: appends the node built from the template and returns its id. */
    method AddNode(template: NodeTemplate, position: Position, now: nat) returns (id: string)
      requires DistinctKeys(template.defaultConfig)
      modifies this
      ensures nodes == old(nodes) + [NewNode(template, position, now)]
      ensures id == NewNodeId(template.nodeType, now) && id == nodes[|nodes| - 1].id
      ensures edges == old(edges) && workflow == old(workflow)
      ensures isExecuting == old(isExecuting) && selectedNodeId == old(selectedNodeId)
      ensures old(EdgesWellFormed(nodes, edges)) ==> EdgesWellFormed(nodes, edges)
      ensures old(Valid()) && id !in old(NodeIds(nodes)) ==> Valid()
    {
      var n := NewNode(template, position, now);
      AppendKeepsInvariants(nodes, edges, n);
      nodes := nodes + [n];
      id := n.id;
    }

    /** `updateNode`: shallow-merges the patch into the data of the nodes with the id. */
    method UpdateNode(nodeId: string, patch: NodeDataPatch)
      modifies this
      ensures nodes == UpdatedNodes(old(nodes), nodeId, patch)
      ensures edges == old(edges) && workflow == old(workflow)
      ensures isExecuting == old(isExecuting) && selectedNodeId == old(selectedNodeId)
      ensures old(Valid()) ==> Valid()
    {
      if Valid() {
        UpdateKeepsIdsDistinct(nodes, nodeId, patch);
        UpdateKeepsEdgesWellFormed(nodes, edges, nodeId, patch);
      }
      nodes := UpdatedNodes(nodes, nodeId, patch);
    }

    /** `deleteNode`: removes the nodes with the id and every edge touching it.
        The selection is kept, so a deleted selected node is no longer found. */
    method DeleteNode(nodeId: string)
      modifies this
      ensures nodes == RemainingNodes(old(nodes), nodeId)
      ensures edges == RemainingEdges(old(edges), nodeId)
      ensures workflow == old(workflow)
      ensures isExecuting == old(isExecuting) && selectedNodeId == old(selectedNodeId)
      ensures old(Valid()) ==> Valid()
      ensures selectedNodeId == Some(nodeId) ==> SelectedNode().None?
    {
      if Valid() {
        DeleteKeepsIdsDistinct(nodes, nodeId);
        DeleteKeepsEdgesWellFormed(nodes, edges, nodeId);
      }
      DeletedNodeNotFound(nodes, nodeId);
      nodes := RemainingNodes(nodes, nodeId);
      edges := RemainingEdges(edges, nodeId);
    }

    /** `stopExecution`. */
    method StopExecution()
      modifies this
      ensures !isExecuting
      ensures nodes == old(nodes) && edges == old(edges) && workflow == old(workflow)
      ensures selectedNodeId == old(selectedNodeId)
    {
      isExecuting := false;
    }

    /** `testNode`: an empty update, then the test's time and duration (a whole
        number of milliseconds between 100 and 900) written into the node. */
    method TestNode(nodeId: string, now: int, executionTime: int)
      requires 100 <= executionTime <= 900
      modifies this
      ensures nodes == UpdatedNodes(old(nodes), nodeId, TestPatch(now, executionTime))
      ensures forall i :: 0 <= i < |nodes| && nodes[i].id == nodeId ==>
        nodes[i].data.lastExecuted == Some(now) && nodes[i].data.executionTime.Some? &&
        100 <= nodes[i].data.executionTime.value <= 900
      ensures edges == old(edges) && workflow == old(workflow)
      ensures isExecuting == old(isExecuting) && selectedNodeId == old(selectedNodeId)
      ensures old(Valid()) ==> Valid()
    {
      UpdateWithEmptyPatch(nodes, nodeId);
      UpdateNode(nodeId, EmptyPatch);
      UpdateNode(nodeId, TestPatch(now, executionTime));
    }

    /** `saveWorkflow`: stamps the record with the save time. */
    method SaveWorkflow(now: int)
      modifies this
      ensures workflow == old(workflow).(updatedAt := now)
      ensures nodes == old(nodes) && edges == old(edges)
      ensures isExecuting == old(isExecuting) && selectedNodeId == old(selectedNodeId)
    {
      workflow := workflow.(updatedAt := now);
    }

    /** `toggleWorkflowActive(active)`: sets the flag to `active`. */
    method ToggleWorkflowActive(active: bool)
      modifies this
      ensures workflow == old(workflow).(isActive := active)
      ensures nodes == old(nodes) && edges == old(edges)
      ensures isExecuting == old(isExecuting) && selectedNodeId == old(selectedNodeId)
    {
      workflow := workflow.(isActive := active);
    }

    /** `onNodeClick`: selects the clicked node; a listed node with a non-empty
        id is then the selected node. */
    method OnNodeClick(nodeId: string)
      modifies this
      ensures selectedNodeId == Some(nodeId)
      ensures nodes == old(nodes) && edges == old(edges) && workflow == old(workflow)
      ensures isExecuting == old(isExecuting)
      ensures nodeId != "" && nodeId in NodeIds(nodes) ==> SelectedNode().Some? && SelectedNode().value.id == nodeId
    {
      selectedNodeId := Some(nodeId);
    }

    /** `onPaneClick`: clears the selection. */
    method OnPaneClick()
      modifies this
      ensures selectedNodeId == None && SelectedNode() == None
      ensures nodes == old(nodes) && edges == old(edges) && workflow == old(workflow)
      ensures isExecuting == old(isExecuting)
    {
      selectedNodeId := None;
    }
  }
}
