/**
 * The workflow validator: checking one decoded document against the workflow
 * schema, the errors of one workflow file, and the batch that collects the
 * errors of many files into a map from file path to error list.
 */
module Validator {
  import opened JsonValues
  import opened Draft7
  import opened WorkflowSchema

  /** One entry of an error list. A schema violation keeps the constraint, the
      instance path and the value found there; the other two keep the file
      path and the decoder's or the file system's own description. */
  datatype Error =
    | SchemaViolation(violation: Violation, instance: Json)
    | InvalidJson(file: string, detail: string)
    | ReadFailure(file: string, detail: string)

  /** Which of several violations the validator library reports is its own
      heuristic; the model leaves it as this parameter. */
  type Selector = seq<Violation> -> nat

  /** Validates a decoded document: no error, or exactly one violation of the
      workflow schema that really occurs in the document, with the value it
      occurs at. */
  function ValidateWorkflow(doc: Json, select: Selector): (r: seq<Error>)
    ensures |r| <= 1
    ensures r == [] <==> IsWorkflow(doc)
    ensures forall e | e in r ::
      && e.SchemaViolation?
      && e.violation in Errors(N8nWorkflowSchema, doc, [])
      && Occurs(doc, e.violation)
      && At(doc, e.violation.path) == Some(e.instance)
  {
    var violations := Errors(N8nWorkflowSchema, doc, []);
    WorkflowConforms(doc, []);
    ErrorsOccur(N8nWorkflowSchema, doc, doc, []);
    if violations == [] then []
    else
      var v := violations[select(violations) % |violations|];
      assert v in violations;
      [SchemaViolation(v, At(doc, v.path).value)]
  }

  /** The text of an error. `describe` stands for the library's message for
      a violated constraint and the value that breaks it, whose wording is not
      modelled. The three kinds of error are told apart by how the text
      starts, and a file error names the file and keeps the cause's text. */
  function Render(e: Error, describe: (Kind, Json) -> string): (r: string)
    ensures StartsWith(r, "Validation error: ") <==> e.SchemaViolation?
    ensures e.InvalidJson? ==> StartsWith(r, "Invalid JSON in ") && Contains(r, e.file) && Contains(r, e.detail)
    ensures e.ReadFailure? ==> StartsWith(r, "Error reading ") && Contains(r, e.file) && Contains(r, e.detail)
  {
    match e
    case SchemaViolation(v, instance) =>
      var r := "Validation error: " + describe(v.kind, instance) + " at " + JoinPath(v.path);
      assert r[..18] == "Validation error: ";
      r
    case InvalidJson(file, detail) =>
      var r := "Invalid JSON in " + file + ": " + detail;
      ContainsIn("Invalid JSON in ", file, ": " + detail);
      ContainsIn("Invalid JSON in " + file + ": ", detail, "");
      assert r == "Invalid JSON in " + file + (": " + detail) == "Invalid JSON in " + file + ": " + detail + "";
      assert r[..16] == "Invalid JSON in " && r[1] != "Validation error: "[1];
      r
    case ReadFailure(file, detail) =>
      var r := "Error reading " + file + ": " + detail;
      ContainsIn("Error reading ", file, ": " + detail);
      ContainsIn("Error reading " + file + ": ", detail, "");
      assert r == "Error reading " + file + (": " + detail) == "Error reading " + file + ": " + detail + "";
      assert r[..14] == "Error reading " && r[0] != "Validation error: "[0];
      r
  }

  /** Every step of a violation's path can be read in its text, whatever the
      library's message says. */
  lemma RenderShowsPath(v: Violation, instance: Json, describe: (Kind, Json) -> string, j: nat)
    requires j < |v.path|
    ensures Contains(Render(SchemaViolation(v, instance), describe), TokenText(v.path[j]))
  {
    JoinPathShowsTokens(v.path, j);
    ContainsExtend("Validation error: " + describe(v.kind, instance) + " at ", JoinPath(v.path), "", TokenText(v.path[j]));
    assert Render(SchemaViolation(v, instance), describe)
      == "Validation error: " + describe(v.kind, instance) + " at " + JoinPath(v.path) + "";
  }

  /** The document with its `i`th node replaced by `node`. */
  function WithNode(doc: Json, i: nat, node: Json): Json
    requires HasWorkflowShape(doc) && i < |doc.fields["nodes"].items|
  {
    Object(doc.fields["nodes" := Array(doc.fields["nodes"].items[i := node])])
  }

  /** In the document with node `i` replaced, that path leads to the new node. */
  lemma AtWithNode(doc: Json, i: nat, node: Json)
    requires HasWorkflowShape(doc) && i < |doc.fields["nodes"].items|
    ensures At(WithNode(doc, i, node), [Key("nodes"), Index(i)]) == Some(node)
  {
    var d := WithNode(doc, i, node);
    AtExtend(d, [], Key("nodes"), d);
    assert [] + [Key("nodes")] == [Key("nodes")];
    AtExtend(d, [Key("nodes")], Index(i), d.fields["nodes"]);
  }

  /** A workflow whose `i`th node loses one required key is reported with
      exactly that key missing, at that node, which is quoted as it now is. */
  lemma NodeMissingKeyRejected(doc: Json, i: nat, key: string, select: Selector)
    requires IsWorkflow(doc) && i < |doc.fields["nodes"].items| && key in NodeKeys
    ensures ValidateWorkflow(WithNode(doc, i, Object(doc.fields["nodes"].items[i].fields - {key})), select)
         == [SchemaViolation(Violation(MissingProperty(key), [Key("nodes"), Index(i)]),
                             Object(doc.fields["nodes"].items[i].fields - {key}))]
  {
    var xs := doc.fields["nodes"].items;
    var bad := WithNode(doc, i, Object(xs[i].fields - {key}));
    AtWithNode(doc, i, Object(xs[i].fields - {key}));
    OneBadNodeReported(bad, [], i);
    NodeMissingKeyReported(xs[i].fields, key, [Key("nodes"), Index(i)]);
    assert [] + [Key("nodes"), Index(i)] == [Key("nodes"), Index(i)];
  }

  /** A workflow whose `i`th node has a position that is not an array is
      reported with exactly that type mismatch, at that position and quoting
      the value found there, and the text of the error names `position`. */
  lemma PositionNotArrayRejected(doc: Json, i: nat, position: Json, select: Selector, describe: (Kind, Json) -> string)
    requires IsWorkflow(doc) && i < |doc.fields["nodes"].items| && !position.Array?
    ensures var r := ValidateWorkflow(WithNode(doc, i, Object(doc.fields["nodes"].items[i].fields["position" := position])), select);
      && r == [SchemaViolation(Violation(WrongType([ArrayType]), [Key("nodes"), Index(i), Key("position")]), position)]
      && Contains(Render(r[0], describe), "position")
  {
    var xs := doc.fields["nodes"].items;
    var node := Object(xs[i].fields["position" := position]);
    var bad := WithNode(doc, i, node);
    var path := [Key("nodes"), Index(i), Key("position")];
    AtWithNode(doc, i, node);
    AtExtend(bad, [Key("nodes"), Index(i)], Key("position"), node);
    OneBadNodeReported(bad, [], i);
    NodePositionReported(xs[i].fields, position, [Key("nodes"), Index(i)]);
    PositionNotArrayReported(position, path);
    assert [] + [Key("nodes"), Index(i)] == [Key("nodes"), Index(i)];
    assert [Key("nodes"), Index(i)] + [Key("position")] == path;
    RenderShowsPath(Violation(WrongType([ArrayType]), path), position, describe, 2);
  }

  /** What reading and decoding one file gave: the file could not be read, its
      text is not JSON, or the decoded document. */
  datatype Loaded =
    | Unreadable(detail: string)
    | Malformed(detail: string)
    | Decoded(doc: Json)

  datatype WorkflowFile = WorkflowFile(path: string, contents: Loaded)

  /** The errors of one file. A file passes exactly when it was read, decoded
      and is a workflow; every failure gives exactly one error. */
  function FileErrors(file: WorkflowFile, select: Selector): (r: seq<Error>)
    ensures |r| <= 1
    ensures r == [] <==> file.contents.Decoded? && IsWorkflow(file.contents.doc)
    ensures file.contents.Unreadable? ==> r == [ReadFailure(file.path, file.contents.detail)]
    ensures file.contents.Malformed? ==> r == [InvalidJson(file.path, file.contents.detail)]
    ensures file.contents.Decoded? ==> r == ValidateWorkflow(file.contents.doc, select)
  {
    match file.contents
    case Unreadable(detail) => [ReadFailure(file.path, detail)]
    case Malformed(detail) => [InvalidJson(file.path, detail)]
    case Decoded(doc) => ValidateWorkflow(doc, select)
  }

  /** The batch result for `files` taken in order: each file with errors is
      entered under its path, a later entry replacing an earlier one. */
  function Aggregate(files: seq<WorkflowFile>, select: Selector): map<string, seq<Error>>
    decreases |files|
  {
    if files == [] then map[]
    else
      var earlier := Aggregate(files[..|files| - 1], select);
      var last := files[|files| - 1];
      var errors := FileErrors(last, select);
      if errors != [] then earlier[last.path := errors] else earlier
  }

  /** Validates every file in turn and keeps the error lists that are not empty. */
  method ValidateAll(files: seq<WorkflowFile>, select: Selector) returns (results: map<string, seq<Error>>)
    ensures results == Aggregate(files, select)
  {
    results := map[];
    for i := 0 to |files|
      invariant results == Aggregate(files[..i], select)
    {
      var errors := FileErrors(files[i], select);
      if errors != [] {
        results := results[files[i].path := errors];
      }
      assert files[..i + 1][..i] == files[..i];
    }
    assert files[..|files|] == files;
  }

  /** A path is in the result exactly when some file with that path has errors. */
  lemma {:induction false} AggregateKeys(files: seq<WorkflowFile>, select: Selector, path: string)
    ensures path in Aggregate(files, select)
        <==> exists i | 0 <= i < |files| :: files[i].path == path && FileErrors(files[i], select) != []
    decreases |files|
  {
    if files != [] {
      var init := files[..|files| - 1];
      AggregateKeys(init, select, path);
      assert forall i | 0 <= i < |init| :: init[i] == files[i];
    }
  }

  /** Every stored list is the unchanged, non-empty error list of a file with that path. */
  lemma {:induction false} AggregateValues(files: seq<WorkflowFile>, select: Selector, path: string)
    requires path in Aggregate(files, select)
    ensures Aggregate(files, select)[path] != []
    ensures exists i | 0 <= i < |files| ::
      files[i].path == path && Aggregate(files, select)[path] == FileErrors(files[i], select)
    decreases |files|
  {
    var init := files[..|files| - 1];
    var last := files[|files| - 1];
    if path == last.path && FileErrors(last, select) != [] {
      assert files[|files| - 1] == last;
    } else {
      AggregateValues(init, select, path);
      var i :| 0 <= i < |init| && init[i].path == path
        && Aggregate(init, select)[path] == FileErrors(init[i], select);
      assert files[i] == init[i];
    }
  }

  /** When no two files share a path, a file with errors is stored with exactly its list. */
  lemma {:induction false} AggregateStoresFile(files: seq<WorkflowFile>, select: Selector, i: nat)
    requires forall a, b | 0 <= a < b < |files| :: files[a].path != files[b].path
    requires i < |files| && FileErrors(files[i], select) != []
    ensures files[i].path in Aggregate(files, select)
    ensures Aggregate(files, select)[files[i].path] == FileErrors(files[i], select)
    decreases |files|
  {
    var init := files[..|files| - 1];
    if i < |files| - 1 {
      assert init[i] == files[i];
      AggregateStoresFile(init, select, i);
    }
  }

  /** Every schema violation stored in the result really occurs in a document
      of a file with that path. */
  lemma {:induction false} AggregateViolationsOccur(files: seq<WorkflowFile>, select: Selector, path: string)
    requires path in Aggregate(files, select)
    ensures forall e | e in Aggregate(files, select)[path] && e.SchemaViolation? ::
      exists i | 0 <= i < |files| ::
        && files[i].path == path && files[i].contents.Decoded?
        && Occurs(files[i].contents.doc, e.violation)
  {
    AggregateValues(files, select, path);
    var i :| 0 <= i < |files| && files[i].path == path
      && Aggregate(files, select)[path] == FileErrors(files[i], select);
  }

  /** An empty result means that every file was read, decoded and is a workflow. */
  lemma {:induction false} AggregateEmptyIffAllValid(files: seq<WorkflowFile>, select: Selector)
    ensures Aggregate(files, select) == map[]
        <==> forall i | 0 <= i < |files| :: files[i].contents.Decoded? && IsWorkflow(files[i].contents.doc)
  {
    forall path
      ensures path in Aggregate(files, select)
          <==> exists i | 0 <= i < |files| :: files[i].path == path && FileErrors(files[i], select) != []
    {
      AggregateKeys(files, select, path);
    }
    if Aggregate(files, select) != map[] {
      var path :| path in Aggregate(files, select);
    } else {
      forall i | 0 <= i < |files|
        ensures files[i].contents.Decoded? && IsWorkflow(files[i].contents.doc)
      {
        assert files[i].path !in Aggregate(files, select);
      }
    }
  }
}
