/** The job DAG handling of the AWS Glue source: the normalisation of a
    job's script path, the S3 location of a data node, the urn of each DAG
    node, and the edge pass that fills every node's input and output lists.

    AWS calls, YAML parsing of node arguments and the urn builders of the
    metadata emitter are collaborators: node arguments arrive parsed, and the
    urn builders enter as functions. */
module GlueDataflow {
  import opened Wrappers
  import GlueSource

  const DATA_SOURCE: string := "DataSource"
  const DATA_SINK: string := "DataSink"

  predicate StartsWith(s: string, prefix: string) {
    |prefix| <= |s| && s[..|prefix|] == prefix
  }

  // ---------------------------------------------------------------------------
  // The script path

  /** The path check at the head of `get_dataflow_graph`: a doubled "s3://"
      prefix (in any case) loses its first five characters, and a path that
      then does not start with "s3://" is rejected. */
  function NormaliseScriptPath(scriptPath: string): (r: Option<string>)
    ensures r.Some? ==> StartsWith(r.value, "s3://")
    ensures r.Some? ==> r.value == scriptPath || (5 <= |scriptPath| && r.value == scriptPath[5..])
    ensures StartsWith(GlueSource.Lower(scriptPath), "s3://s3://") ==>
              r == (if StartsWith(scriptPath[5..], "s3://") then Some(scriptPath[5..]) else None)
    ensures !StartsWith(GlueSource.Lower(scriptPath), "s3://s3://") ==>
              r == (if StartsWith(scriptPath, "s3://") then Some(scriptPath) else None)
  {
    var path := if StartsWith(GlueSource.Lower(scriptPath), "s3://s3://") then scriptPath[5..] else scriptPath;
    if StartsWith(path, "s3://") then Some(path) else None
  }

  /** A doubled lower-case prefix is repaired. */
  lemma DoubledPrefixRepaired(rest: string)
    ensures NormaliseScriptPath("s3://s3://" + rest) == Some("s3://" + rest)
  {
    var p := "s3://s3://" + rest;
    assert p[..10] == "s3://s3://";
    assert GlueSource.Lower(p)[..10] == GlueSource.Lower("s3://s3://");
    assert p[5..] == "s3://" + rest;
    assert (p[5..])[..5] == "s3://";
  }

  /** The doubled-prefix test ignores case but the validity test does not: a
      doubled upper-case prefix is cut and the rest is then rejected. */
  lemma DoubledUpperCasePrefixRejected(rest: string)
    ensures NormaliseScriptPath("S3://S3://" + rest) == None
  {
    var p := "S3://S3://" + rest;
    assert GlueSource.Lower(p)[..10] == GlueSource.Lower("S3://S3://");
    assert p[5..][0] == 'S';
  }

  // ---------------------------------------------------------------------------
  // Node arguments and the S3 location

  /** `connection_options`: a single `path`, or a list `paths`. */
  datatype ConnectionOptions = ConnectionOptions(path: Option<string>, paths: Option<seq<Option<string>>>)

  /** The parsed `Args` of a DAG node; None stands for a missing key. */
  datatype NodeArgs = NodeArgs(
    database: Option<string>,
    tableName: Option<string>,
    connectionType: Option<string>,
    connectionOptions: Option<ConnectionOptions>,
    format: Option<string>)

  datatype DataflowError =
    | PathsMissing             // neither `path` nor `paths`: subscripting None raises
    | PathsEmpty               // `paths` is an empty list: indexing raises
    | MissingKey(key: string)  // a dictionary lookup of an absent key raises
    | UnrecognizedDataObject   // an unsupported connector with `ignore_unsupported_connectors` off

  /** `get_s3_uri`: `path`, or else the first element of `paths`. */
  function GetS3Uri(args: NodeArgs): (r: Result<Option<string>, DataflowError>)
    ensures var opts := if args.connectionOptions.Some? then args.connectionOptions.value else ConnectionOptions(None, None);
            && (opts.path.Some? ==> r == Success(opts.path))
            && (opts.path.None? && opts.paths.None? ==> r == Failure(PathsMissing))
            && (opts.path.None? && opts.paths == Some([]) ==> r == Failure(PathsEmpty))
            && (opts.path.None? && opts.paths.Some? && opts.paths.value != [] ==> r == Success(opts.paths.value[0]))
  {
    var opts := if args.connectionOptions.Some? then args.connectionOptions.value else ConnectionOptions(None, None);
    if opts.path.Some? then Success(opts.path)
    else if opts.paths.None? then Failure(PathsMissing)
    else if opts.paths.value == [] then Failure(PathsEmpty)
    else Success(opts.paths.value[0])
  }

  /** How Python formats an optional string in an f-string. */
  function FormatText(format: Option<string>): string {
    if format.Some? then format.value else "None"
  }

  /** The urn of an S3 node: the format is appended to the location only when
      more than one format was seen for that location. */
  function S3NodeUrn(s3Uri: string, format: Option<string>, s3Formats: map<string, set<Option<string>>>,
                     makeS3Urn: string -> string): (r: string)
    ensures (s3Uri in s3Formats && |s3Formats[s3Uri]| > 1) ==> r == makeS3Urn(s3Uri + "." + FormatText(format))
    ensures !(s3Uri in s3Formats && |s3Formats[s3Uri]| > 1) ==> r == makeS3Urn(s3Uri)
  {
    if s3Uri in s3Formats && |s3Formats[s3Uri]| > 1 then makeS3Urn(s3Uri + "." + FormatText(format))
    else makeS3Urn(s3Uri)
  }

  /** With an injective urn builder, a location read in several formats gets
      one urn per format text, and a location read in one format keeps one urn. */
  lemma S3NodeUrnSeparatesFormats(s3Uri: string, f1: Option<string>, f2: Option<string>,
                                  s3Formats: map<string, set<Option<string>>>, makeS3Urn: string -> string)
    requires forall a, b :: makeS3Urn(a) == makeS3Urn(b) ==> a == b
    ensures (s3Uri in s3Formats && |s3Formats[s3Uri]| > 1) ==>
              (S3NodeUrn(s3Uri, f1, s3Formats, makeS3Urn) == S3NodeUrn(s3Uri, f2, s3Formats, makeS3Urn) <==> FormatText(f1) == FormatText(f2))
    ensures !(s3Uri in s3Formats && |s3Formats[s3Uri]| > 1) ==>
              S3NodeUrn(s3Uri, f1, s3Formats, makeS3Urn) == S3NodeUrn(s3Uri, f2, s3Formats, makeS3Urn)
  {
    var a, b := s3Uri + "." + FormatText(f1), s3Uri + "." + FormatText(f2);
    if a == b {
      assert a[|s3Uri| + 1..] == FormatText(f1);
      assert b[|s3Uri| + 1..] == FormatText(f2);
    }
  }

  // ---------------------------------------------------------------------------
  // Nodes

  datatype DagNode = DagNode(id: string, nodeType: string, args: NodeArgs)

  datatype DagEdge = DagEdge(source: string, target: string)

  datatype DataflowGraph = DataflowGraph(dagNodes: seq<DagNode>, dagEdges: seq<DagEdge>)

  /** A node with its urn and the three lists the edge pass fills. */
  datatype ProcessedNode = ProcessedNode(
    id: string,
    nodeType: string,
    urn: string,
    inputDatajobs: seq<string>,
    inputDatasets: seq<string>,
    outputDatasets: seq<string>)

  /** What processing one node yields: nothing, or the node and, for an S3
      dataset, the id appended to `new_dataset_ids`. */
  datatype NodeOutcome = Skipped | Processed(node: ProcessedNode, newDatasetId: Option<string>)

  /** The urn builders of the metadata emitter, with the environment and
      platform instance already bound: a dataset urn from a platform and a
      name, an S3 urn from a location, a data-job urn from a flow urn and a job id. */
  datatype UrnBuilders = UrnBuilders(
    datasetUrn: (string, string) -> string,
    s3Urn: string -> string,
    dataJobUrn: (string, string) -> string)

  /** Everything `process_dataflow_node` reads besides the node. */
  datatype FlowContext = FlowContext(
    flowUrn: string,
    s3Formats: map<string, set<Option<string>>>,
    platform: string,
    ignoreUnsupportedConnectors: bool,
    builders: UrnBuilders)

  predicate IsDataNode(node: DagNode) {
    node.nodeType == DATA_SOURCE || node.nodeType == DATA_SINK
  }

  predicate IsGlueTable(args: NodeArgs) {
    args.database.Some? && args.tableName.Some?
  }

  function NewNode(node: DagNode, urn: string): ProcessedNode {
    ProcessedNode(node.id, node.nodeType, urn, [], [], [])
  }

  /** A data node on S3 whose location turns out to be None. */
  predicate S3UriMissing(node: DagNode) {
    IsDataNode(node) && !IsGlueTable(node.args) && node.args.connectionType == Some("s3")
    && GetS3Uri(node.args) == Success(None)
  }

  /** `process_dataflow_node`, with a node whose S3 location is None skipped
      (see `ProcessDataflowNodeAsWritten` for the code as it stands). */
  function ProcessDataflowNode(node: DagNode, flow: FlowContext): (r: Result<NodeOutcome, DataflowError>)
    ensures r.Success? && r.value.Processed? ==>
              && r.value.node == NewNode(node, r.value.node.urn)
              && (r.value.newDatasetId.Some? <==> IsDataNode(node) && !IsGlueTable(node.args))
              && (r.value.newDatasetId.Some? ==> r.value.newDatasetId.value == node.nodeType + "-" + node.id)
    ensures !IsDataNode(node) ==> r == Success(Processed(NewNode(node, flow.builders.dataJobUrn(flow.flowUrn, node.nodeType + "-" + node.id)), None))
    ensures IsDataNode(node) && IsGlueTable(node.args) ==>
              r == Success(Processed(NewNode(node, flow.builders.datasetUrn(flow.platform, node.args.database.value + "." + node.args.tableName.value)), None))
    ensures S3UriMissing(node) ==> r == Success(Skipped)
    ensures IsDataNode(node) && !IsGlueTable(node.args) && node.args.connectionType == Some("s3")
            && GetS3Uri(node.args).Success? && GetS3Uri(node.args).value.Some? ==>
              r == Success(Processed(NewNode(node, S3NodeUrn(GetS3Uri(node.args).value.value, node.args.format, flow.s3Formats, flow.builders.s3Urn)),
                                     Some(node.nodeType + "-" + node.id)))
    ensures IsDataNode(node) && !IsGlueTable(node.args) && node.args.connectionType != Some("s3") && flow.ignoreUnsupportedConnectors ==>
              r == Success(Skipped)
    ensures r.Failure? <==>
              (IsDataNode(node) && !IsGlueTable(node.args) &&
               if node.args.connectionType == Some("s3") then GetS3Uri(node.args).Failure? else !flow.ignoreUnsupportedConnectors)
    ensures r.Failure? ==>
              r.error == (if node.args.connectionType == Some("s3") then GetS3Uri(node.args).error else UnrecognizedDataObject)
  {
    if IsDataNode(node) then
      if IsGlueTable(node.args) then
        var urn := flow.builders.datasetUrn(flow.platform, node.args.database.value + "." + node.args.tableName.value);
        Success(Processed(NewNode(node, urn), None))
      else if node.args.connectionType == Some("s3") then
        var s3Uri :- GetS3Uri(node.args);
        if s3Uri.None? then Success(Skipped)
        else
          var urn := S3NodeUrn(s3Uri.value, node.args.format, flow.s3Formats, flow.builders.s3Urn);
          Success(Processed(NewNode(node, urn), Some(node.nodeType + "-" + node.id)))
      else if flow.ignoreUnsupportedConnectors then Success(Skipped)
      else Failure(UnrecognizedDataObject)
    else
      Success(Processed(NewNode(node, flow.builders.dataJobUrn(flow.flowUrn, node.nodeType + "-" + node.id)), None))
  }

  /** `process_dataflow_node` as written: its skip branch for a missing S3
      location formats a warning from `node['Nodetype']`, a key the node does
      not have, so the lookup raises instead of skipping. */
  function ProcessDataflowNodeAsWritten(node: DagNode, flow: FlowContext): (r: Result<NodeOutcome, DataflowError>)
    ensures !S3UriMissing(node) ==> r == ProcessDataflowNode(node, flow)
    ensures S3UriMissing(node) ==> r == Failure(MissingKey("Nodetype"))
  {
    if S3UriMissing(node) then Failure(MissingKey("Nodetype")) else ProcessDataflowNode(node, flow)
  }

  /** An S3 source whose `paths` is [None]: the code raises where it means to skip. */
  lemma MissingS3UriRaisesInsteadOfSkipping(flow: FlowContext)
    ensures var node := DagNode("node-1", DATA_SOURCE, NodeArgs(None, None, Some("s3"), Some(ConnectionOptions(None, Some([None]))), Some("json")));
            && ProcessDataflowNodeAsWritten(node, flow) == Failure(MissingKey("Nodetype"))
            && ProcessDataflowNode(node, flow) == Success(Skipped)
  {
  }

  // ---------------------------------------------------------------------------
  // The graph

  /** The node loop of `process_dataflow_graph`: processed nodes keyed by id
      (a later node with the same id replaces an earlier one) and the new
      dataset ids in node order; the first error is raised. */
  function ProcessNodes(nodes: seq<DagNode>, flow: FlowContext): Result<(map<string, ProcessedNode>, seq<string>), DataflowError>
    decreases |nodes|
  {
    if nodes == [] then Success((map[], []))
    else
      var init, last := nodes[..|nodes| - 1], nodes[|nodes| - 1];
      var acc :- ProcessNodes(init, flow);
      var outcome :- ProcessDataflowNode(last, flow);
      if outcome.Skipped? then Success(acc)
      else Success((acc.0[last.id := outcome.node],
                    acc.1 + if outcome.newDatasetId.Some? then [outcome.newDatasetId.value] else []))
  }

  lemma ProcessNodesSnoc(nodes: seq<DagNode>, node: DagNode, flow: FlowContext)
    ensures ProcessNodes(nodes + [node], flow) ==
      match ProcessNodes(nodes, flow)
      case Failure(e) => Failure(e)
      case Success(acc) =>
        match ProcessDataflowNode(node, flow)
        case Failure(e) => Failure(e)
        case Success(Skipped) => Success(acc)
        case Success(Processed(n, newId)) =>
          Success((acc.0[node.id := n], acc.1 + if newId.Some? then [newId.value] else []))
  {
    assert (nodes + [node])[..|nodes|] == nodes;
  }

  /** Whether `node` is processed into `processed`. */
  predicate ProcessesTo(node: DagNode, flow: FlowContext, processed: ProcessedNode) {
    var r := ProcessDataflowNode(node, flow);
    r.Success? && r.value.Processed? && r.value.node == processed
  }

  /** Whether `node` is processed rather than skipped. */
  predicate IsProcessed(node: DagNode, flow: FlowContext) {
    var r := ProcessDataflowNode(node, flow);
    r.Success? && r.value.Processed?
  }

  /** The node loop raises exactly when some node raises; otherwise each key
      of the map is the id of a node that was processed into the key's value,
      and every processed node's id is a key. */
  lemma {:induction false} ProcessNodesKeepsProcessed(nodes: seq<DagNode>, flow: FlowContext)
    ensures ProcessNodes(nodes, flow).Failure? <==> exists i :: 0 <= i < |nodes| && ProcessDataflowNode(nodes[i], flow).Failure?
    ensures ProcessNodes(nodes, flow).Success? ==>
              var m := ProcessNodes(nodes, flow).value.0;
              && (forall k :: k in m ==>
                    (m[k].id == k && exists i :: 0 <= i < |nodes| && nodes[i].id == k && ProcessesTo(nodes[i], flow, m[k])))
              && (forall i :: 0 <= i < |nodes| && IsProcessed(nodes[i], flow) ==> nodes[i].id in m)
    decreases |nodes|
  {
    if nodes != [] {
      var init, last := nodes[..|nodes| - 1], nodes[|nodes| - 1];
      assert nodes == init + [last];
      ProcessNodesKeepsProcessed(init, flow);
      ProcessNodesSnoc(init, last, flow);
      if ProcessNodes(nodes, flow).Success? {
        var m := ProcessNodes(nodes, flow).value.0;
        var m0 := ProcessNodes(init, flow).value.0;
        forall k | k in m
          ensures m[k].id == k && exists i :: 0 <= i < |nodes| && nodes[i].id == k && ProcessesTo(nodes[i], flow, m[k])
        {
          if k in m0 && m[k] == m0[k] {
            var i :| 0 <= i < |init| && init[i].id == k && ProcessesTo(init[i], flow, m0[k]);
            assert nodes[i] == init[i];
          } else {
            assert nodes[|nodes| - 1].id == k;
          }
        }
      }
    }
  }

  /** A key holds the node processed LAST with that id: a later node with the
      same id replaces an earlier one, and a later skipped node does not. */
  lemma {:induction false} ProcessNodesLastWins(nodes: seq<DagNode>, flow: FlowContext)
    ensures ProcessNodes(nodes, flow).Success? ==>
              forall i :: 0 <= i < |nodes| && IsProcessed(nodes[i], flow)
                          && (forall j :: i < j < |nodes| && nodes[j].id == nodes[i].id ==> !IsProcessed(nodes[j], flow))
                          ==> nodes[i].id in ProcessNodes(nodes, flow).value.0
                              && ProcessesTo(nodes[i], flow, ProcessNodes(nodes, flow).value.0[nodes[i].id])
    decreases |nodes|
  {
    if nodes != [] && ProcessNodes(nodes, flow).Success? {
      var init, last := nodes[..|nodes| - 1], nodes[|nodes| - 1];
      assert nodes == init + [last];
      ProcessNodesSnoc(init, last, flow);
      ProcessNodesLastWins(init, flow);
      ProcessNodesKeepsProcessed(init, flow);
      ProcessNodesKeepsProcessed(nodes, flow);
      var m := ProcessNodes(nodes, flow).value.0;
      var m0 := ProcessNodes(init, flow).value.0;
      forall i | 0 <= i < |nodes| && IsProcessed(nodes[i], flow)
                 && (forall j :: i < j < |nodes| && nodes[j].id == nodes[i].id ==> !IsProcessed(nodes[j], flow))
        ensures nodes[i].id in m && ProcessesTo(nodes[i], flow, m[nodes[i].id])
      {
        if i < |init| {
          assert nodes[i] == init[i];
          assert forall j :: i < j < |init| && init[j].id == init[i].id ==> !IsProcessed(init[j], flow) by {
            forall j | i < j < |init| && init[j].id == init[i].id
              ensures !IsProcessed(init[j], flow)
            {
              assert init[j] == nodes[j];
            }
          }
          if last.id == nodes[i].id {
            assert !IsProcessed(nodes[|nodes| - 1], flow);
          }
        }
      }
    }
  }

  /** Whether `node` adds a new dataset id. */
  predicate AddsDataset(node: DagNode, flow: FlowContext) {
    var r := ProcessDataflowNode(node, flow);
    r.Success? && r.value.Processed? && r.value.newDatasetId.Some?
  }

  /** "NodeType-Id" of every node that adds a dataset, in node order. */
  function NewDatasetIds(nodes: seq<DagNode>, flow: FlowContext): seq<string>
    decreases |nodes|
  {
    if nodes == [] then []
    else (if AddsDataset(nodes[0], flow) then [nodes[0].nodeType + "-" + nodes[0].id] else []) + NewDatasetIds(nodes[1..], flow)
  }

  lemma {:induction false} NewDatasetIdsSnoc(nodes: seq<DagNode>, node: DagNode, flow: FlowContext)
    ensures NewDatasetIds(nodes + [node], flow)
            == NewDatasetIds(nodes, flow) + (if AddsDataset(node, flow) then [node.nodeType + "-" + node.id] else [])
    decreases |nodes|
  {
    if nodes == [] {
      assert [] + [node] == [node];
      assert [node][1..] == [];
    } else {
      assert (nodes + [node])[0] == nodes[0];
      assert (nodes + [node])[1..] == nodes[1..] + [node];
      NewDatasetIdsSnoc(nodes[1..], node, flow);
    }
  }

  /** The new dataset ids of the node loop are "NodeType-Id" of the nodes
      that add a dataset (the S3 nodes with a location), in node order. */
  lemma {:induction false} ProcessNodesNewDatasetIds(nodes: seq<DagNode>, flow: FlowContext)
    ensures ProcessNodes(nodes, flow).Success? ==> ProcessNodes(nodes, flow).value.1 == NewDatasetIds(nodes, flow)
    decreases |nodes|
  {
    if nodes != [] && ProcessNodes(nodes, flow).Success? {
      var init, last := nodes[..|nodes| - 1], nodes[|nodes| - 1];
      assert nodes == init + [last];
      ProcessNodesSnoc(init, last, flow);
      NewDatasetIdsSnoc(init, last, flow);
      ProcessNodesNewDatasetIds(init, flow);
      var ids0 := ProcessNodes(init, flow).value.1;
      if !AddsDataset(last, flow) {
        assert ids0 + [] == ids0;
      }
    }
  }

  /** Both endpoints of the edge are known nodes. */
  predicate Known(nodes: map<string, ProcessedNode>, edge: DagEdge) {
    edge.source in nodes && edge.target in nodes
  }

  /** One pass of the edge loop. */
  function WireEdge(nodes: map<string, ProcessedNode>, edge: DagEdge): map<string, ProcessedNode> {
    if !Known(nodes, edge) then nodes
    else
      var s, t := nodes[edge.source], nodes[edge.target];
      var wired := nodes[edge.target :=
        if s.nodeType == DATA_SOURCE then t.(inputDatasets := t.inputDatasets + [s.urn])
        else t.(inputDatajobs := t.inputDatajobs + [s.urn])];
      if t.nodeType == DATA_SINK then
        wired[edge.source := wired[edge.source].(outputDatasets := wired[edge.source].outputDatasets + [t.urn])]
      else wired
  }

  /** The edge loop over `edges`, in order. */
  function Wire(nodes: map<string, ProcessedNode>, edges: seq<DagEdge>): map<string, ProcessedNode>
    decreases |edges|
  {
    if edges == [] then nodes else WireEdge(Wire(nodes, edges[..|edges| - 1]), edges[|edges| - 1])
  }

  lemma WireSnoc(nodes: map<string, ProcessedNode>, edges: seq<DagEdge>, edge: DagEdge)
    ensures Wire(nodes, edges + [edge]) == WireEdge(Wire(nodes, edges), edge)
  {
    assert (edges + [edge])[..|edges|] == edges;
  }

  /** `process_dataflow_graph`: the processed nodes with their edges wired in,
      and the new dataset ids. */
  function ProcessedGraph(graph: DataflowGraph, flow: FlowContext): Result<(map<string, ProcessedNode>, seq<string>), DataflowError> {
    var acc :- ProcessNodes(graph.dagNodes, flow);
    Success((Wire(acc.0, graph.dagEdges), acc.1))
  }

  /** The edge pass changes only the three lists: keys, ids, types and urns stay. */
  lemma {:induction false} WireKeepsNodes(nodes: map<string, ProcessedNode>, edges: seq<DagEdge>)
    ensures Wire(nodes, edges).Keys == nodes.Keys
    ensures forall k :: k in nodes ==>
              && Wire(nodes, edges)[k].id == nodes[k].id
              && Wire(nodes, edges)[k].nodeType == nodes[k].nodeType
              && Wire(nodes, edges)[k].urn == nodes[k].urn
    decreases |edges|
  {
    if edges != [] {
      WireKeepsNodes(nodes, edges[..|edges| - 1]);
    }
  }

  /** Urns of the DataSource nodes that known edges lead into `k`, in edge order. */
  function DatasetInputs(nodes: map<string, ProcessedNode>, edges: seq<DagEdge>, k: string): seq<string>
    decreases |edges|
  {
    if edges == [] then []
    else
      var e := edges[|edges| - 1];
      DatasetInputs(nodes, edges[..|edges| - 1], k)
      + if Known(nodes, e) && e.target == k && nodes[e.source].nodeType == DATA_SOURCE then [nodes[e.source].urn] else []
  }

  /** Urns of the other nodes that known edges lead into `k`, in edge order. */
  function JobInputs(nodes: map<string, ProcessedNode>, edges: seq<DagEdge>, k: string): seq<string>
    decreases |edges|
  {
    if edges == [] then []
    else
      var e := edges[|edges| - 1];
      JobInputs(nodes, edges[..|edges| - 1], k)
      + if Known(nodes, e) && e.target == k && nodes[e.source].nodeType != DATA_SOURCE then [nodes[e.source].urn] else []
  }

  /** Urns of the DataSink nodes that known edges lead to from `k`, in edge order. */
  function SinkOutputs(nodes: map<string, ProcessedNode>, edges: seq<DagEdge>, k: string): seq<string>
    decreases |edges|
  {
    if edges == [] then []
    else
      var e := edges[|edges| - 1];
      SinkOutputs(nodes, edges[..|edges| - 1], k)
      + if Known(nodes, e) && e.source == k && nodes[e.target].nodeType == DATA_SINK then [nodes[e.target].urn] else []
  }

  /** The edge pass, node by node: each node's lists gain, in edge order, the
      urns of its DataSource predecessors, of its other predecessors, and of
      its DataSink successors; edges with an unknown endpoint add nothing. */
  lemma {:induction false} WireByNode(nodes: map<string, ProcessedNode>, edges: seq<DagEdge>, k: string)
    requires k in nodes
    ensures k in Wire(nodes, edges)
    ensures Wire(nodes, edges)[k].inputDatasets == nodes[k].inputDatasets + DatasetInputs(nodes, edges, k)
    ensures Wire(nodes, edges)[k].inputDatajobs == nodes[k].inputDatajobs + JobInputs(nodes, edges, k)
    ensures Wire(nodes, edges)[k].outputDatasets == nodes[k].outputDatasets + SinkOutputs(nodes, edges, k)
    decreases |edges|
  {
    WireKeepsNodes(nodes, edges);
    if edges != [] {
      var init, e := edges[..|edges| - 1], edges[|edges| - 1];
      WireByNode(nodes, init, k);
      WireKeepsNodes(nodes, init);
      var before := Wire(nodes, init);
      assert Known(before, e) <==> Known(nodes, e);
      assert nodes[k].inputDatasets + DatasetInputs(nodes, edges, k)
             == (nodes[k].inputDatasets + DatasetInputs(nodes, init, k))
                + (if Known(nodes, e) && e.target == k && nodes[e.source].nodeType == DATA_SOURCE then [nodes[e.source].urn] else []);
      assert nodes[k].inputDatajobs + JobInputs(nodes, edges, k)
             == (nodes[k].inputDatajobs + JobInputs(nodes, init, k))
                + (if Known(nodes, e) && e.target == k && nodes[e.source].nodeType != DATA_SOURCE then [nodes[e.source].urn] else []);
      assert nodes[k].outputDatasets + SinkOutputs(nodes, edges, k)
             == (nodes[k].outputDatasets + SinkOutputs(nodes, init, k))
                + (if Known(nodes, e) && e.source == k && nodes[e.target].nodeType == DATA_SINK then [nodes[e.target].urn] else []);
    }
  }

  /** `process_dataflow_graph`. */
  method ProcessDataflowGraph(graph: DataflowGraph, flow: FlowContext)
    returns (r: Result<(map<string, ProcessedNode>, seq<string>), DataflowError>)
    ensures r == ProcessedGraph(graph, flow)
  {
    var newDatasetIds: seq<string> := [];
    var nodes: map<string, ProcessedNode> := map[];

    var i := 0;
    while i < |graph.dagNodes|
      invariant 0 <= i <= |graph.dagNodes|
      invariant ProcessNodes(graph.dagNodes[..i], flow) == Success((nodes, newDatasetIds))
    {
      var node := graph.dagNodes[i];
      assert graph.dagNodes[..i + 1] == graph.dagNodes[..i] + [node];
      ProcessNodesSnoc(graph.dagNodes[..i], node, flow);
      var processedNode := ProcessDataflowNode(node, flow);
      if processedNode.Failure? {
        ProcessNodesPrefixFailure(graph.dagNodes, i + 1, flow);
        assert graph.dagNodes[..|graph.dagNodes|] == graph.dagNodes;
        return Failure(processedNode.error);
      }
      if processedNode.value.Processed? {
        var newId := processedNode.value.newDatasetId;
        assert ProcessNodes(graph.dagNodes[..i + 1], flow)
               == Success((nodes[node.id := processedNode.value.node], newDatasetIds + if newId.Some? then [newId.value] else []));
        nodes := nodes[node.id := processedNode.value.node];
        if newId.Some? {
          newDatasetIds := newDatasetIds + [newId.value];
        } else {
          assert newDatasetIds + [] == newDatasetIds;
        }
      }
      i := i + 1;
    }
    assert graph.dagNodes[..i] == graph.dagNodes;

    var j := 0;
    while j < |graph.dagEdges|
      invariant 0 <= j <= |graph.dagEdges|
      invariant nodes == Wire(ProcessNodes(graph.dagNodes, flow).value.0, graph.dagEdges[..j])
    {
      var edge := graph.dagEdges[j];
      assert graph.dagEdges[..j + 1] == graph.dagEdges[..j] + [edge];
      WireSnoc(ProcessNodes(graph.dagNodes, flow).value.0, graph.dagEdges[..j], edge);
      if edge.source in nodes && edge.target in nodes {
        var sourceNode := nodes[edge.source];
        var targetNode := nodes[edge.target];
        if sourceNode.nodeType == DATA_SOURCE {
          nodes := nodes[edge.target := targetNode.(inputDatasets := targetNode.inputDatasets + [sourceNode.urn])];
        } else {
          nodes := nodes[edge.target := targetNode.(inputDatajobs := targetNode.inputDatajobs + [sourceNode.urn])];
        }
        if targetNode.nodeType == DATA_SINK {
          var current := nodes[edge.source];
          nodes := nodes[edge.source := current.(outputDatasets := current.outputDatasets + [targetNode.urn])];
        }
      }
      j := j + 1;
    }
    assert graph.dagEdges[..j] == graph.dagEdges;
    r := Success((nodes, newDatasetIds));
  }

  /** Once a prefix of the nodes raises, so does every longer prefix. */
  lemma {:induction false} ProcessNodesPrefixFailure(nodes: seq<DagNode>, n: nat, flow: FlowContext)
    requires n <= |nodes| && ProcessNodes(nodes[..n], flow).Failure?
    ensures ProcessNodes(nodes, flow) == ProcessNodes(nodes[..n], flow)
    decreases |nodes| - n
  {
    if n < |nodes| {
      assert nodes[..n + 1] == nodes[..n] + [nodes[n]];
      ProcessNodesSnoc(nodes[..n], nodes[n], flow);
      ProcessNodesPrefixFailure(nodes, n + 1, flow);
    } else {
      assert nodes[..n] == nodes;
    }
  }
}
