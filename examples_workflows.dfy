/**
 * Concrete documents: the two-node workflow of the validator's unit tests,
 * the two ways the tests break it, and the six-node sample workflow of the
 * visualization example, whose connections name a source `4-1` that is not
 * a node id.
 */
module WorkflowExamples {
  import opened JsonValues
  import opened Draft7
  import opened WorkflowSchema
  import opened Validator

  function StartNode(): Json {
    Object(map[
      "id" := Str("1"),
      "name" := Str("Start"),
      "type" := Str("n8n-nodes-base.start"),
      "typeVersion" := Int(1),
      "position" := Array([Int(250), Int(300)]),
      "parameters" := Object(map[])
    ])
  }

  function HttpRequestNode(y: int): Json {
    Object(map[
      "id" := Str("2"),
      "name" := Str("HTTP Request"),
      "type" := Str("n8n-nodes-base.httpRequest"),
      "typeVersion" := Int(1),
      "position" := Array([Int(450), Int(y)]),
      "parameters" := Object(map["url" := Str("https://example.com"), "method" := Str("GET")])
    ])
  }

  /** An edge descriptor of the connections encoding. */
  function Edge(target: string): Json {
    Object(map["node" := Str(target), "type" := Str("main"), "index" := Int(0)])
  }

  /** `source` feeds `target` on its first `main` output. */
  function MainConnection(target: string): Json {
    Object(map["main" := Array([Array([Edge(target)])])])
  }

  /** The document the unit tests start from. */
  function TestWorkflow(): Json {
    Object(map[
      "name" := Str("Test Workflow"),
      "nodes" := Array([StartNode(), HttpRequestNode(300)]),
      "connections" := Object(map["1" := MainConnection("2")])
    ])
  }

  lemma TestWorkflowAccepted(select: Selector)
    ensures ValidateWorkflow(TestWorkflow(), select) == []
  {
    var xs := TestWorkflow().fields["nodes"].items;
    assert IsNode(xs[0]) && IsNode(xs[1]);
  }

  /** The test document with `id` deleted from its first node is reported as
      missing `id`, at that node, quoting the node. */
  lemma TestWithoutIdRejected(select: Selector)
    ensures ValidateWorkflow(WithNode(TestWorkflow(), 0, Object(StartNode().fields - {"id"})), select)
         == [SchemaViolation(Violation(MissingProperty("id"), [Key("nodes"), Index(0)]), Object(StartNode().fields - {"id"}))]
  {
    TestWorkflowAccepted(select);
    NodeMissingKeyRejected(TestWorkflow(), 0, "id", select);
  }

  /** The test document with the first node's position set to a string is
      reported as a type mismatch at `nodes.0.position`, and its text names
      `position`. */
  lemma TestStringPositionRejected(select: Selector, describe: (Kind, Json) -> string)
    ensures var r := ValidateWorkflow(
        WithNode(TestWorkflow(), 0, Object(StartNode().fields["position" := Str("not an array")])), select);
      && r == [SchemaViolation(Violation(WrongType([ArrayType]), [Key("nodes"), Index(0), Key("position")]), Str("not an array"))]
      && Contains(Render(r[0], describe), "position")
  {
    TestWorkflowAccepted(select);
    PositionNotArrayRejected(TestWorkflow(), 0, Str("not an array"), select, describe);
  }

  /** Without `nodes` the test document is rejected, and `nodes` is among the
      violations the schema finds. */
  lemma TestWithoutNodesRejected(select: Selector)
    ensures ValidateWorkflow(Object(TestWorkflow().fields - {"nodes"}), select) != []
    ensures Violation(MissingProperty("nodes"), []) in Errors(N8nWorkflowSchema, Object(TestWorkflow().fields - {"nodes"}), [])
  {
    MissingTopLevelReported(Object(TestWorkflow().fields - {"nodes"}), [], "nodes");
  }

  /** A node of the sample workflow; every one of them has the node shape. */
  function SampleNode(id: string, name: string, nodeType: string, x: int, y: int, parameters: map<string, Json>): (n: Json)
    ensures IsNode(n)
  {
    Object(map[
      "id" := Str(id),
      "name" := Str(name),
      "type" := Str(nodeType),
      "typeVersion" := Int(1),
      "position" := Array([Int(x), Int(y)]),
      "parameters" := Object(parameters)
    ])
  }

  /** The nodes of the sample workflow of the visualization example. */
  function SampleNodes(): seq<Json> {
    [
      SampleNode("1", "Start", "n8n-nodes-base.start", 250, 300, map[]),
      SampleNode("2", "HTTP Request", "n8n-nodes-base.httpRequest", 450, 200,
        map["url" := Str("https://api.example.com/data"), "method" := Str("GET")]),
      SampleNode("3", "Process Data", "n8n-nodes-base.function", 650, 300,
        map["functionCode" := Str("// Process the data here\nreturn items;")]),
      SampleNode("4", "Condition", "n8n-nodes-base.if", 850, 300,
        map["conditions" := Object(map["string" := Array([
          Object(map["value1" := Str("={{ $json.someField }}"), "operation" := Str("exists")])
        ])])]),
      SampleNode("5", "Send Email", "n8n-nodes-base.emailSend", 1050, 200,
        map["to" := Str("user@example.com"), "subject" := Str("Processing Complete"),
            "text" := Str("The data has been processed successfully.")]),
      SampleNode("6", "Log Error", "n8n-nodes-base.function", 1050, 400,
        map["functionCode" := Str("console.log('Error processing data:', items);\nreturn items;")])
    ]
  }

  /** The connections of the sample workflow. The last is keyed by `4-1`,
      which names no node. */
  function SampleConnections(): map<string, Json> {
    map[
      "1" := MainConnection("2"),
      "2" := MainConnection("3"),
      "3" := MainConnection("4"),
      "4" := MainConnection("5"),
      "4-1" := MainConnection("6")
    ]
  }

  function SampleWorkflow(): Json {
    Object(map[
      "name" := Str("Sample Workflow"),
      "nodes" := Array(SampleNodes()),
      "connections" := Object(SampleConnections())
    ])
  }

  /** The sample workflow passes: a connection from a source that is not a
      node is not the validator's concern. */
  lemma SampleWorkflowAccepted(select: Selector)
    ensures ValidateWorkflow(SampleWorkflow(), select) == []
  {
    SampleWorkflowIsWorkflow();
  }

  lemma SampleWorkflowIsWorkflow()
    ensures IsWorkflow(SampleWorkflow())
  {
    SampleNodesAreNodes();
    var doc := SampleWorkflow();
    assert HasWorkflowShape(doc);
    assert doc.fields["nodes"].items == SampleNodes();
  }

  lemma SampleNodesAreNodes()
    ensures forall j | 0 <= j < |SampleNodes()| :: IsNode(SampleNodes()[j])
  {
    var nodes := SampleNodes();
    assert IsNode(nodes[0]) && IsNode(nodes[1]) && IsNode(nodes[2]);
    assert IsNode(nodes[3]) && IsNode(nodes[4]) && IsNode(nodes[5]);
  }
}
