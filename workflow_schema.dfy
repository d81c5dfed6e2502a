/**
 * The fixed structural schema of an n8n workflow document, as the validator
 * declares it for JSON Schema draft-07, and a direct statement of what a
 * conforming document is. The lemmas show the two agree: the evaluator finds
 * no violation of the schema exactly when the document is a workflow.
 */
module WorkflowSchema {
  import opened JsonValues
  import opened Draft7

  /** The keys every node must carry. */
  const NodeKeys: seq<string> := ["id", "name", "type", "typeVersion", "position", "parameters"]

  const StringSchema := Schema([Type([StringType])])
  const ObjectSchema := Schema([Type([ObjectType])])
  const NumberSchema := Schema([Type([NumberType])])
  const TypeVersionSchema := Schema([Type([NumberType, StringType])])

  /** A canvas position: an array of exactly two numbers. */
  const PositionSchema := Schema([Type([ArrayType]), Items(NumberSchema), MinItems(2), MaxItems(2)])

  const NodeProperties: seq<(string, Schema)> := [
    ("id", StringSchema),
    ("name", StringSchema),
    ("type", StringSchema),
    ("typeVersion", TypeVersionSchema),
    ("position", PositionSchema),
    ("parameters", ObjectSchema)
  ]

  const NodeSchema := Schema([
    Type([ObjectType]),
    Required(NodeKeys),
    Properties(NodeProperties)
  ])

  const NodesSchema := Schema([Type([ArrayType]), Items(NodeSchema)])

  /** The workflow schema. Nothing limits the keys a document or a node may
      carry besides the listed ones, and `connections` is only required to be
      an object. */
  const N8nWorkflowSchema := Schema([
    Type([ObjectType]),
    Required(["nodes", "connections"]),
    Properties([
      ("name", StringSchema),
      ("nodes", NodesSchema),
      ("connections", ObjectSchema)
    ])
  ])

  // What a conforming document is, said directly.

  predicate IsNumber(x: Json) {
    x.Int? || x.Float?
  }

  predicate IsPosition(x: Json) {
    x.Array? && |x.items| == 2 && IsNumber(x.items[0]) && IsNumber(x.items[1])
  }

  /** The object carries all six node keys. */
  predicate HasNodeKeys(f: map<string, Json>) {
    "id" in f && "name" in f && "type" in f && "typeVersion" in f && "position" in f && "parameters" in f
  }

  /** Each of the six node keys holds a value of its declared type. */
  predicate HasNodeFieldTypes(f: map<string, Json>)
    requires HasNodeKeys(f)
  {
    && f["id"].Str? && f["name"].Str? && f["type"].Str?
    && (IsNumber(f["typeVersion"]) || f["typeVersion"].Str?)
    && IsPosition(f["position"])
    && f["parameters"].Object?
  }

  predicate IsNode(x: Json) {
    x.Object? && HasNodeKeys(x.fields) && HasNodeFieldTypes(x.fields)
  }

  /** Everything the schema asks of a document except what it asks of each node. */
  predicate HasWorkflowShape(doc: Json) {
    && doc.Object?
    && ("name" in doc.fields ==> doc.fields["name"].Str?)
    && "nodes" in doc.fields && doc.fields["nodes"].Array?
    && "connections" in doc.fields && doc.fields["connections"].Object?
  }

  predicate IsWorkflow(doc: Json) {
    && HasWorkflowShape(doc)
    && forall j | 0 <= j < |doc.fields["nodes"].items| :: IsNode(doc.fields["nodes"].items[j])
  }

  // The schema and the direct statement agree, part by part.

  lemma TypeErrorsEmpty(types: seq<JsonType>, x: Json, path: seq<Token>)
    ensures Errors(Schema([Type(types)]), x, path) == [] <==> HasAnyType(x, types)
  {
    KeywordsErrorsEmpty(Schema([Type(types)]), 0, x, path);
  }

  lemma PositionConforms(x: Json, path: seq<Token>)
    ensures Errors(PositionSchema, x, path) == [] <==> IsPosition(x)
  {
    var s := PositionSchema;
    var typeErrors := KeywordErrors(Type([ArrayType]), x, path);
    var itemErrors := KeywordErrors(Items(NumberSchema), x, path);
    var minErrors := KeywordErrors(MinItems(2), x, path);
    var maxErrors := KeywordErrors(MaxItems(2), x, path);
    assert KeywordsErrors(s, 4, x, path) == [];
    assert KeywordsErrors(s, 3, x, path) == maxErrors;
    assert KeywordsErrors(s, 2, x, path) == minErrors + maxErrors;
    assert KeywordsErrors(s, 1, x, path) == itemErrors + (minErrors + maxErrors);
    assert Errors(s, x, path) == typeErrors + (itemErrors + (minErrors + maxErrors));
    if x.Array? {
      ItemsErrorsEmpty(NumberSchema, x.items, 0, path);
      forall j | 0 <= j < |x.items|
        ensures Errors(NumberSchema, x.items[j], path + [Index(j)]) == [] <==> IsNumber(x.items[j])
      {
        TypeErrorsEmpty([NumberType], x.items[j], path + [Index(j)]);
      }
      if |x.items| == 2 {
        assert IsPosition(x) <==> forall j | 0 <= j < 2 :: IsNumber(x.items[j]);
      }
    }
  }

  /** A node that carries every required key passes the `properties` keyword
      exactly when each of its six listed fields has its declared type. */
  lemma NodePropertiesConform(f: map<string, Json>, path: seq<Token>)
    requires HasNodeKeys(f)
    ensures PropertiesErrors(Properties(NodeProperties), 0, f, path) == [] <==> HasNodeFieldTypes(f)
  {
    var k := Properties(NodeProperties);
    TypeErrorsEmpty([StringType], f["id"], path + [Key("id")]);
    TypeErrorsEmpty([StringType], f["name"], path + [Key("name")]);
    TypeErrorsEmpty([StringType], f["type"], path + [Key("type")]);
    TypeErrorsEmpty([NumberType, StringType], f["typeVersion"], path + [Key("typeVersion")]);
    assert HasAnyType(f["typeVersion"], [StringType]) <==> f["typeVersion"].Str?;
    PositionConforms(f["position"], path + [Key("position")]);
    TypeErrorsEmpty([ObjectType], f["parameters"], path + [Key("parameters")]);
    assert PropertiesErrors(k, 0, f, path) == Errors(StringSchema, f["id"], path + [Key("id")]) + PropertiesErrors(k, 1, f, path);
    assert PropertiesErrors(k, 1, f, path) == Errors(StringSchema, f["name"], path + [Key("name")]) + PropertiesErrors(k, 2, f, path);
    assert PropertiesErrors(k, 2, f, path) == Errors(StringSchema, f["type"], path + [Key("type")]) + PropertiesErrors(k, 3, f, path);
    assert PropertiesErrors(k, 3, f, path) == Errors(TypeVersionSchema, f["typeVersion"], path + [Key("typeVersion")]) + PropertiesErrors(k, 4, f, path);
    assert PropertiesErrors(k, 4, f, path) == Errors(PositionSchema, f["position"], path + [Key("position")]) + PropertiesErrors(k, 5, f, path);
    assert PropertiesErrors(k, 5, f, path) == Errors(ObjectSchema, f["parameters"], path + [Key("parameters")]) + PropertiesErrors(k, 6, f, path);
    assert PropertiesErrors(k, 6, f, path) == [];
  }

  /** The node schema's three keywords, one after the other. */
  lemma NodeErrorsSplit(x: Json, path: seq<Token>)
    ensures Errors(NodeSchema, x, path) ==
      KeywordErrors(Type([ObjectType]), x, path)
      + (KeywordErrors(Required(NodeKeys), x, path)
      + KeywordErrors(Properties(NodeProperties), x, path))
  {
    var s := NodeSchema;
    assert KeywordsErrors(s, 3, x, path) == [];
    assert KeywordsErrors(s, 2, x, path) == KeywordErrors(Properties(NodeProperties), x, path);
    assert KeywordsErrors(s, 1, x, path) ==
      KeywordErrors(Required(NodeKeys), x, path) + KeywordErrors(Properties(NodeProperties), x, path);
  }

  /** An object carries every node key exactly when it carries each of the six. */
  lemma NodeKeysPresent(f: map<string, Json>)
    ensures (forall n | n in NodeKeys :: n in f) <==> HasNodeKeys(f)
  {
    assert NodeKeys[0] == "id" && NodeKeys[1] == "name" && NodeKeys[2] == "type";
    assert NodeKeys[3] == "typeVersion" && NodeKeys[4] == "position" && NodeKeys[5] == "parameters";
  }

  lemma NodeRequiredEmpty(f: map<string, Json>, path: seq<Token>)
    ensures RequiredErrors(NodeKeys, f, path) == [] <==> HasNodeKeys(f)
  {
    RequiredErrorsEmpty(NodeKeys, f, path);
    NodeKeysPresent(f);
  }

  lemma NodeConforms(x: Json, path: seq<Token>)
    ensures Errors(NodeSchema, x, path) == [] <==> IsNode(x)
  {
    NodeErrorsSplit(x, path);
    if x.Object? {
      assert KeywordErrors(Type([ObjectType]), x, path) == [] by {
        assert HasAnyType(x, [ObjectType]);
      }
      NodeRequiredEmpty(x.fields, path);
      if HasNodeKeys(x.fields) {
        NodePropertiesConform(x.fields, path);
      }
    } else {
      assert KeywordErrors(Type([ObjectType]), x, path) != [] by {
        assert !HasAnyType(x, [ObjectType]);
      }
    }
  }

  lemma NodesConform(x: Json, path: seq<Token>)
    ensures Errors(NodesSchema, x, path) == [] <==> x.Array? && forall j | 0 <= j < |x.items| :: IsNode(x.items[j])
  {
    var s := NodesSchema;
    assert KeywordsErrors(s, 2, x, path) == [];
    assert KeywordsErrors(s, 1, x, path) == KeywordErrors(Items(NodeSchema), x, path);
    assert Errors(s, x, path) == KeywordErrors(Type([ArrayType]), x, path) + KeywordErrors(Items(NodeSchema), x, path);
    if x.Array? {
      ItemsErrorsEmpty(NodeSchema, x.items, 0, path);
      forall j | 0 <= j < |x.items|
        ensures Errors(NodeSchema, x.items[j], path + [Index(j)]) == [] <==> IsNode(x.items[j])
      {
        NodeConforms(x.items[j], path + [Index(j)]);
      }
    }
  }

  /** The workflow schema's three keywords, with its `properties` keyword taken
      one property at a time. */
  lemma WorkflowErrorsSplit(x: Json, path: seq<Token>)
    requires x.Object?
    ensures Errors(N8nWorkflowSchema, x, path) ==
      RequiredErrors(["nodes", "connections"], x.fields, path)
      + (PropertyErrors("name", StringSchema, x.fields, path)
      + (PropertyErrors("nodes", NodesSchema, x.fields, path)
      + PropertyErrors("connections", ObjectSchema, x.fields, path)))
  {
    var s := N8nWorkflowSchema;
    var f := x.fields;
    var k := s.keywords[2];
    assert PropertiesErrors(k, 3, f, path) == [];
    assert PropertiesErrors(k, 2, f, path) == PropertyErrors("connections", ObjectSchema, f, path);
    assert PropertiesErrors(k, 1, f, path) ==
      PropertyErrors("nodes", NodesSchema, f, path) + PropertyErrors("connections", ObjectSchema, f, path);
    assert KeywordsErrors(s, 3, x, path) == [];
    assert KeywordsErrors(s, 2, x, path) == PropertiesErrors(k, 0, f, path);
    assert KeywordsErrors(s, 1, x, path) == RequiredErrors(["nodes", "connections"], f, path) + PropertiesErrors(k, 0, f, path);
    assert KeywordErrors(s.keywords[0], x, path) == [];
  }

  /** The schema finds no violation in a document exactly when it is a workflow. */
  lemma WorkflowConforms(doc: Json, path: seq<Token>)
    ensures Errors(N8nWorkflowSchema, doc, path) == [] <==> IsWorkflow(doc)
  {
    var s := N8nWorkflowSchema;
    if doc.Object? {
      var f := doc.fields;
      WorkflowErrorsSplit(doc, path);
      RequiredErrorsEmpty(["nodes", "connections"], f, path);
      if "name" in f { TypeErrorsEmpty([StringType], f["name"], path + [Key("name")]); }
      if "nodes" in f { NodesConform(f["nodes"], path + [Key("nodes")]); }
      if "connections" in f { TypeErrorsEmpty([ObjectType], f["connections"], path + [Key("connections")]); }
    } else {
      assert KeywordErrors(s.keywords[0], doc, path) == [Violation(WrongType([ObjectType]), path)];
      assert Errors(s, doc, path) == KeywordErrors(s.keywords[0], doc, path) + KeywordsErrors(s, 1, doc, path);
    }
  }

  // What the validator reports about documents that are not workflows.

  /** A value that is not an object draws exactly one violation, at the top. */
  lemma NotObjectReported(doc: Json, path: seq<Token>)
    requires !doc.Object?
    ensures Errors(N8nWorkflowSchema, doc, path) == [Violation(WrongType([ObjectType]), path)]
  {
    var s := N8nWorkflowSchema;
    assert KeywordsErrors(s, 3, doc, path) == [];
    assert KeywordsErrors(s, 2, doc, path) == [];
    assert KeywordsErrors(s, 1, doc, path) == [];
    assert !HasAnyType(doc, [ObjectType]);
    assert Errors(s, doc, path) == KeywordErrors(s.keywords[0], doc, path) + KeywordsErrors(s, 1, doc, path);
  }

  /** A document object without `nodes` or without `connections` draws a
      violation naming the missing key, at the top. */
  lemma MissingTopLevelReported(doc: Json, path: seq<Token>, key: string)
    requires doc.Object? && key in ["nodes", "connections"] && key !in doc.fields
    ensures Violation(MissingProperty(key), path) in Errors(N8nWorkflowSchema, doc, path)
  {
    WorkflowErrorsSplit(doc, path);
    RequiredErrorsReport(["nodes", "connections"], doc.fields, path, key);
  }

  /** A document that is right apart from its nodes is reported only through
      the one node that is wrong. */
  lemma OneBadNodeReported(doc: Json, path: seq<Token>, i: nat)
    requires HasWorkflowShape(doc)
    requires i < |doc.fields["nodes"].items|
    requires forall j | 0 <= j < |doc.fields["nodes"].items| && j != i :: IsNode(doc.fields["nodes"].items[j])
    ensures Errors(N8nWorkflowSchema, doc, path) ==
      Errors(NodeSchema, doc.fields["nodes"].items[i], path + [Key("nodes"), Index(i)])
  {
    var f := doc.fields;
    var xs := f["nodes"].items;
    var p := path + [Key("nodes")];
    WorkflowErrorsSplit(doc, path);
    RequiredErrorsEmpty(["nodes", "connections"], f, path);
    if "name" in f { TypeErrorsEmpty([StringType], f["name"], path + [Key("name")]); }
    TypeErrorsEmpty([ObjectType], f["connections"], path + [Key("connections")]);
    var s := NodesSchema;
    assert KeywordsErrors(s, 2, f["nodes"], p) == [];
    assert KeywordsErrors(s, 1, f["nodes"], p) == ItemsErrors(NodeSchema, xs, 0, p);
    assert HasAnyType(f["nodes"], [ArrayType]);
    assert Errors(s, f["nodes"], p) == KeywordErrors(s.keywords[0], f["nodes"], p) + KeywordsErrors(s, 1, f["nodes"], p);
    assert Errors(s, f["nodes"], p) == ItemsErrors(NodeSchema, xs, 0, p);
    forall j | 0 <= j < |xs| && j != i ensures Errors(NodeSchema, xs[j], p + [Index(j)]) == [] {
      NodeConforms(xs[j], p + [Index(j)]);
    }
    ItemsErrorsSingle(NodeSchema, xs, 0, i, p);
    assert p + [Index(i)] == path + [Key("nodes"), Index(i)];
  }

  lemma NodeKeysDistinct()
    ensures forall i, j | 0 <= i < j < |NodeKeys| :: NodeKeys[i] != NodeKeys[j]
  {
    var ks := NodeKeys;
    assert ks[0][0] == 'i' && ks[1][0] == 'n' && ks[2][0] == 't' && ks[3][0] == 't';
    assert ks[4][0] == 'p' && ks[5][0] == 'p' && ks[2][1] == 'y' && ks[3][4] == 'V';
    assert ks[4][1] == 'o' && ks[5][1] == 'a' && |ks[2]| == 4;
  }

  /** Removing one required key from a node draws exactly one violation: that
      key is missing, reported at the node. */
  lemma NodeMissingKeyReported(f: map<string, Json>, key: string, path: seq<Token>)
    requires IsNode(Object(f)) && key in NodeKeys
    ensures Errors(NodeSchema, Object(f - {key}), path) == [Violation(MissingProperty(key), path)]
  {
    var g := f - {key};
    var k := Properties(NodeProperties);
    NodeErrorsSplit(Object(g), path);
    assert HasAnyType(Object(g), [ObjectType]);
    NodeKeysDistinct();
    NodeKeysPresent(f);
    NodeKeysPresent(g);
    assert forall n | n in NodeKeys && n != key :: n in g;
    RequiredErrorsOneMissing(NodeKeys, g, path, key);
    NodePropertiesConform(f, path);
    PropertiesErrorsRemoveKey(k, 0, f, key, path);
  }

  /** The violations of a node whose position is replaced by any value are
      exactly the violations of that value as a position. */
  lemma NodePositionReported(f: map<string, Json>, v: Json, path: seq<Token>)
    requires IsNode(Object(f))
    ensures Errors(NodeSchema, Object(f["position" := v]), path) ==
      Errors(PositionSchema, v, path + [Key("position")])
  {
    var g := f["position" := v];
    NodeErrorsSplit(Object(g), path);
    assert HasAnyType(Object(g), [ObjectType]);
    assert HasNodeKeys(g);
    NodeRequiredEmpty(g, path);
    NodePropertiesConform(f, path);
    NodeKeysDistinct();
    assert forall j | 0 <= j < |NodeProperties| :: NodeProperties[j].0 == NodeKeys[j];
    PropertiesErrorsReplaceKey(Properties(NodeProperties), 0, 4, f, v, path);
  }

  /** A position that is not an array draws exactly one violation, its type. */
  lemma PositionNotArrayReported(v: Json, path: seq<Token>)
    requires !v.Array?
    ensures Errors(PositionSchema, v, path) == [Violation(WrongType([ArrayType]), path)]
  {
    var s := PositionSchema;
    assert KeywordsErrors(s, 4, v, path) == [];
    assert KeywordsErrors(s, 3, v, path) == [];
    assert KeywordsErrors(s, 2, v, path) == [];
    assert KeywordsErrors(s, 1, v, path) == [];
    assert !HasAnyType(v, [ArrayType]);
    assert Errors(s, v, path) == KeywordErrors(s.keywords[0], v, path) + KeywordsErrors(s, 1, v, path);
  }

  // What the validator does not look at.

  /** A key the schema does not list may be added to a document with any value:
      the violations stay the same. */
  lemma ExtraDocumentKeyIgnored(f: map<string, Json>, key: string, value: Json, path: seq<Token>)
    requires key !in {"name", "nodes", "connections"}
    ensures Errors(N8nWorkflowSchema, Object(f[key := value]), path) == Errors(N8nWorkflowSchema, Object(f), path)
  {
    var ks := N8nWorkflowSchema.keywords;
    assert NamedBy(ks[1]) == {"nodes", "connections"};
    assert NamedBy(ks[2]) == {"name", "nodes", "connections"} by {
      var ps := ks[2].props;
      assert ps[0].0 == "name" && ps[1].0 == "nodes" && ps[2].0 == "connections";
    }
    UnlistedKeyIgnored(N8nWorkflowSchema, f, key, value, path);
  }

  /** A key the schema does not list may be added to a node with any value:
      the node's violations stay the same. */
  lemma ExtraNodeKeyIgnored(f: map<string, Json>, key: string, value: Json, path: seq<Token>)
    requires key !in NodeKeys
    ensures Errors(NodeSchema, Object(f[key := value]), path) == Errors(NodeSchema, Object(f), path)
  {
    var ks := NodeSchema.keywords;
    assert NamedBy(ks[1]) == set n | n in NodeKeys;
    assert NamedBy(ks[2]) == set n | n in NodeKeys by {
      var ps := ks[2].props;
      assert forall j | 0 <= j < 6 :: ps[j].0 == NodeKeys[j];
    }
    UnlistedKeyIgnored(NodeSchema, f, key, value, path);
  }

  /** `connections` is only required to be an object: whatever it holds, dangling
      node ids included, the document draws the same violations as with an
      empty `connections`. */
  lemma ConnectionsContentIgnored(f: map<string, Json>, m: map<string, Json>, path: seq<Token>)
    ensures Errors(N8nWorkflowSchema, Object(f["connections" := Object(m)]), path)
         == Errors(N8nWorkflowSchema, Object(f["connections" := Object(map[])]), path)
  {
    var g := f["connections" := Object(m)];
    var h := f["connections" := Object(map[])];
    WorkflowErrorsSplit(Object(g), path);
    WorkflowErrorsSplit(Object(h), path);
    RequiredErrorsSameKeys(["nodes", "connections"], g, h, path);
    TypeErrorsEmpty([ObjectType], Object(m), path + [Key("connections")]);
    TypeErrorsEmpty([ObjectType], Object(map[]), path + [Key("connections")]);
    assert PropertyErrors("name", StringSchema, g, path) == PropertyErrors("name", StringSchema, h, path);
    assert PropertyErrors("nodes", NodesSchema, g, path) == PropertyErrors("nodes", NodesSchema, h, path);
  }
}
