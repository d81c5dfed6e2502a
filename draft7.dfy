/**
 * The part of JSON Schema draft-07 validation that the workflow schema uses
 * (draft-handrews-json-schema-validation-01): the keywords `type` (section
 * 6.1.1), `items` (6.4.1), `maxItems` (6.4.3), `minItems` (6.4.4), `required`
 * (6.5.3) and `properties` (6.5.4), and an evaluator that lists every
 * violation of a schema by an instance, each with the instance path it occurs
 * at, in the order the schema states its keywords.
 *
 * The annotation keyword `$schema` names the draft and constrains nothing, so
 * it has no counterpart here. A keyword that applies to one JSON type only
 * (`items`, `maxItems`, `minItems`, `required`, `properties`) says nothing
 * about an instance of another type: only `type` reports a mismatch.
 */
module Draft7 {
  import opened JsonValues

  datatype Keyword =
    | Type(types: seq<JsonType>)
    | Items(item: Schema)
    | MaxItems(max: nat)
    | MinItems(min: nat)
    | Required(names: seq<string>)
    | Properties(props: seq<(string, Schema)>)

  datatype Schema = Schema(keywords: seq<Keyword>)

  /** The constraint a violation breaks. The wording of the message the
      validator library attaches to it is not modelled. */
  datatype Kind =
    | WrongType(expected: seq<JsonType>)
    | TooLong(max: nat)
    | TooShort(min: nat)
    | MissingProperty(name: string)

  /** A violation: which constraint, and where in the instance. */
  datatype Violation = Violation(kind: Kind, path: seq<Token>)

  /** All violations of `s` by the instance `x`, found at `path` in the whole
      document. */
  function Errors(s: Schema, x: Json, path: seq<Token>): seq<Violation>
    decreases s, 2
  {
    KeywordsErrors(s, 0, x, path)
  }

  function KeywordsErrors(s: Schema, i: nat, x: Json, path: seq<Token>): seq<Violation>
    requires i <= |s.keywords|
    decreases s, 1, |s.keywords| - i
  {
    if i == |s.keywords| then []
    else KeywordErrors(s.keywords[i], x, path) + KeywordsErrors(s, i + 1, x, path)
  }

  /** The violations of one keyword; a keyword for another JSON type than
      that of `x` finds none. */
  function KeywordErrors(k: Keyword, x: Json, path: seq<Token>): seq<Violation>
    decreases k, 4
  {
    match k
    case Type(types) =>
      if HasAnyType(x, types) then [] else [Violation(WrongType(types), path)]
    case Items(item) =>
      if x.Array? then ItemsErrors(item, x.items, 0, path) else []
    case MaxItems(max) =>
      if x.Array? && |x.items| > max then [Violation(TooLong(max), path)] else []
    case MinItems(min) =>
      if x.Array? && |x.items| < min then [Violation(TooShort(min), path)] else []
    case Required(names) =>
      if x.Object? then RequiredErrors(names, x.fields, path) else []
    case Properties(_) =>
      if x.Object? then PropertiesErrors(k, 0, x.fields, path) else []
  }

  /** One violation per required name the object lacks, in the order of `names`. */
  function RequiredErrors(names: seq<string>, fields: map<string, Json>, path: seq<Token>): seq<Violation>
    decreases |names|
  {
    if names == [] then []
    else
      (if names[0] in fields then [] else [Violation(MissingProperty(names[0]), path)])
      + RequiredErrors(names[1..], fields, path)
  }

  /** The violations inside the properties the object has, from the `i`th
      entry of `k` on; a property the object lacks is not checked. */
  function PropertiesErrors(k: Keyword, i: nat, fields: map<string, Json>, path: seq<Token>): seq<Violation>
    requires k.Properties? && i <= |k.props|
    decreases k, 0, |k.props| - i
  {
    if i == |k.props| then []
    else PropertyErrors(k.props[i].0, k.props[i].1, fields, path) + PropertiesErrors(k, i + 1, fields, path)
  }

  /** The violations of `sub` by the property `name`, if the object has it. */
  function PropertyErrors(name: string, sub: Schema, fields: map<string, Json>, path: seq<Token>): seq<Violation>
    decreases sub, 5
  {
    if name in fields then Errors(sub, fields[name], path + [Key(name)]) else []
  }

  /** The violations of `item` by the elements of `xs` from index `i` on. */
  function ItemsErrors(item: Schema, xs: seq<Json>, i: nat, path: seq<Token>): seq<Violation>
    requires i <= |xs|
    decreases item, 3, |xs| - i
  {
    if i == |xs| then []
    else Errors(item, xs[i], path + [Index(i)]) + ItemsErrors(item, xs, i + 1, path)
  }

  /** What it means for `y` to break the constraint `k`. */
  ghost predicate Fails(k: Kind, y: Json) {
    match k
    case WrongType(expected) => !HasAnyType(y, expected)
    case TooLong(max) => y.Array? && |y.items| > max
    case TooShort(min) => y.Array? && |y.items| < min
    case MissingProperty(name) => y.Object? && name !in y.fields
  }

  /** The violation really occurs in `root`: its path exists and the value
      there breaks its constraint. */
  ghost predicate Occurs(root: Json, v: Violation) {
    At(root, v.path).Some? && Fails(v.kind, At(root, v.path).value)
  }

  // Soundness: every violation the evaluator lists really occurs in the document.

  lemma {:induction false} ErrorsOccur(s: Schema, root: Json, x: Json, path: seq<Token>)
    requires At(root, path) == Some(x)
    ensures forall v | v in Errors(s, x, path) :: Occurs(root, v)
    decreases s, 2
  {
    KeywordsErrorsOccur(s, 0, root, x, path);
  }

  lemma {:induction false} KeywordsErrorsOccur(s: Schema, i: nat, root: Json, x: Json, path: seq<Token>)
    requires i <= |s.keywords|
    requires At(root, path) == Some(x)
    ensures forall v | v in KeywordsErrors(s, i, x, path) :: Occurs(root, v)
    decreases s, 1, |s.keywords| - i
  {
    if i < |s.keywords| {
      KeywordErrorsOccur(s.keywords[i], root, x, path);
      KeywordsErrorsOccur(s, i + 1, root, x, path);
    }
  }

  lemma {:induction false} KeywordErrorsOccur(k: Keyword, root: Json, x: Json, path: seq<Token>)
    requires At(root, path) == Some(x)
    ensures forall v | v in KeywordErrors(k, x, path) :: Occurs(root, v)
    decreases k, 4
  {
    match k
    case Type(types) =>
    case Items(item) =>
      if x.Array? {
        ItemsErrorsOccur(item, x.items, 0, root, path);
      }
    case MaxItems(_) =>
    case MinItems(_) =>
    case Required(names) =>
      if x.Object? {
        RequiredErrorsOccur(names, root, x, path);
      }
    case Properties(_) =>
      if x.Object? {
        PropertiesErrorsOccur(k, 0, root, x, path);
      }
  }

  lemma {:induction false} RequiredErrorsOccur(names: seq<string>, root: Json, x: Json, path: seq<Token>)
    requires x.Object? && At(root, path) == Some(x)
    ensures forall v | v in RequiredErrors(names, x.fields, path) :: Occurs(root, v)
    decreases |names|
  {
    if names != [] {
      RequiredErrorsOccur(names[1..], root, x, path);
    }
  }

  lemma {:induction false} PropertiesErrorsOccur(k: Keyword, i: nat, root: Json, x: Json, path: seq<Token>)
    requires k.Properties? && i <= |k.props|
    requires x.Object? && At(root, path) == Some(x)
    ensures forall v | v in PropertiesErrors(k, i, x.fields, path) :: Occurs(root, v)
    decreases k, 0, |k.props| - i
  {
    if i < |k.props| {
      var (name, sub) := k.props[i];
      if name in x.fields {
        AtExtend(root, path, Key(name), x);
        ErrorsOccur(sub, root, x.fields[name], path + [Key(name)]);
      }
      PropertiesErrorsOccur(k, i + 1, root, x, path);
    }
  }

  lemma {:induction false} ItemsErrorsOccur(item: Schema, xs: seq<Json>, i: nat, root: Json, path: seq<Token>)
    requires i <= |xs|
    requires At(root, path) == Some(Array(xs))
    ensures forall v | v in ItemsErrors(item, xs, i, path) :: Occurs(root, v)
    decreases item, 3, |xs| - i
  {
    if i < |xs| {
      AtExtend(root, path, Index(i), Array(xs));
      ErrorsOccur(item, root, xs[i], path + [Index(i)]);
      ItemsErrorsOccur(item, xs, i + 1, root, path);
    }
  }

  // When the evaluator finds nothing: each list is empty exactly when every part of it is.

  lemma {:induction false} KeywordsErrorsEmpty(s: Schema, i: nat, x: Json, path: seq<Token>)
    requires i <= |s.keywords|
    ensures KeywordsErrors(s, i, x, path) == []
        <==> forall j | i <= j < |s.keywords| :: KeywordErrors(s.keywords[j], x, path) == []
    decreases |s.keywords| - i
  {
    if i < |s.keywords| {
      KeywordsErrorsEmpty(s, i + 1, x, path);
    }
  }

  lemma {:induction false} RequiredErrorsEmpty(names: seq<string>, fields: map<string, Json>, path: seq<Token>)
    ensures RequiredErrors(names, fields, path) == [] <==> forall n | n in names :: n in fields
    decreases |names|
  {
    if names != [] {
      RequiredErrorsEmpty(names[1..], fields, path);
      assert forall n | n in names :: n == names[0] || n in names[1..];
    }
  }

  lemma {:induction false} PropertiesErrorsEmpty(k: Keyword, i: nat, fields: map<string, Json>, path: seq<Token>)
    requires k.Properties? && i <= |k.props|
    ensures PropertiesErrors(k, i, fields, path) == []
        <==> forall j | i <= j < |k.props| && k.props[j].0 in fields ::
               Errors(k.props[j].1, fields[k.props[j].0], path + [Key(k.props[j].0)]) == []
    decreases |k.props| - i
  {
    if i < |k.props| {
      PropertiesErrorsEmpty(k, i + 1, fields, path);
    }
  }

  lemma {:induction false} ItemsErrorsEmpty(item: Schema, xs: seq<Json>, i: nat, path: seq<Token>)
    requires i <= |xs|
    ensures ItemsErrors(item, xs, i, path) == []
        <==> forall j | i <= j < |xs| :: Errors(item, xs[j], path + [Index(j)]) == []
    decreases |xs| - i
  {
    if i < |xs| {
      ItemsErrorsEmpty(item, xs, i + 1, path);
    }
  }

  /** A required name the object lacks is reported at the object. */
  lemma {:induction false} RequiredErrorsReport(names: seq<string>, fields: map<string, Json>, path: seq<Token>, name: string)
    requires name in names && name !in fields
    ensures Violation(MissingProperty(name), path) in RequiredErrors(names, fields, path)
    decreases |names|
  {
    if names[0] != name {
      RequiredErrorsReport(names[1..], fields, path, name);
    }
  }

  /** `required` looks at which keys are present, not at their values. */
  lemma {:induction false} RequiredErrorsSameKeys(names: seq<string>, f: map<string, Json>, g: map<string, Json>, path: seq<Token>)
    requires f.Keys == g.Keys
    ensures RequiredErrors(names, f, path) == RequiredErrors(names, g, path)
    decreases |names|
  {
    if names != [] {
      RequiredErrorsSameKeys(names[1..], f, g, path);
    }
  }

  /** When the names are distinct and the object lacks exactly one of them,
      `required` reports that one name and nothing else. */
  lemma {:induction false} RequiredErrorsOneMissing(names: seq<string>, fields: map<string, Json>, path: seq<Token>, name: string)
    requires forall i, j | 0 <= i < j < |names| :: names[i] != names[j]
    requires name in names && name !in fields
    requires forall n | n in names && n != name :: n in fields
    ensures RequiredErrors(names, fields, path) == [Violation(MissingProperty(name), path)]
    decreases |names|
  {
    if names[0] == name {
      assert forall n | n in names[1..] :: n != name by {
        forall n | n in names[1..] ensures n != name {
          var j :| 0 <= j < |names[1..]| && names[1..][j] == n;
          assert names[0] != names[j + 1];
        }
      }
      RequiredErrorsEmpty(names[1..], fields, path);
    } else {
      RequiredErrorsOneMissing(names[1..], fields, path, name);
    }
  }

  /** When every other element passes, the items' violations are those of element `i`. */
  lemma {:induction false} ItemsErrorsSingle(item: Schema, xs: seq<Json>, j: nat, i: nat, path: seq<Token>)
    requires j <= i < |xs|
    requires forall q | j <= q < |xs| && q != i :: Errors(item, xs[q], path + [Index(q)]) == []
    ensures ItemsErrors(item, xs, j, path) == Errors(item, xs[i], path + [Index(i)])
    decreases i - j
  {
    if j < i {
      ItemsErrorsSingle(item, xs, j + 1, i, path);
    } else {
      ItemsErrorsEmpty(item, xs, i + 1, path);
    }
  }

  /** Giving a property that the keyword lists exactly once at `q` a new value
      `v`, in an object with no `properties` violation, leaves exactly the
      violations of `v` against that property's subschema. */
  lemma {:induction false} PropertiesErrorsReplaceKey(k: Keyword, i: nat, q: nat, fields: map<string, Json>, v: Json, path: seq<Token>)
    requires k.Properties? && i <= q < |k.props|
    requires forall j | i <= j < |k.props| && j != q :: k.props[j].0 != k.props[q].0
    requires PropertiesErrors(k, i, fields, path) == []
    ensures PropertiesErrors(k, i, fields[k.props[q].0 := v], path)
         == Errors(k.props[q].1, v, path + [Key(k.props[q].0)])
    decreases |k.props| - i
  {
    var key := k.props[q].0;
    var g := fields[key := v];
    if i == q {
      PropertiesErrorsOtherKey(k, i + 1, fields, key, v, path);
      assert PropertiesErrors(k, i, g, path) == Errors(k.props[q].1, v, path + [Key(key)]) + [];
    } else {
      PropertiesErrorsReplaceKey(k, i + 1, q, fields, v, path);
      var name := k.props[i].0;
      if name in fields {
        assert g[name] == fields[name];
      }
    }
  }

  /** Changing a property the keyword does not list from `i` on changes none
      of its violations. */
  lemma {:induction false} PropertiesErrorsOtherKey(k: Keyword, i: nat, fields: map<string, Json>, key: string, v: Json, path: seq<Token>)
    requires k.Properties? && i <= |k.props|
    requires forall j | i <= j < |k.props| :: k.props[j].0 != key
    ensures PropertiesErrors(k, i, fields[key := v], path) == PropertiesErrors(k, i, fields, path)
    decreases |k.props| - i
  {
    if i < |k.props| {
      PropertiesErrorsOtherKey(k, i + 1, fields, key, v, path);
      var name := k.props[i].0;
      if name in fields {
        assert fields[key := v][name] == fields[name];
      }
    }
  }

  /** Removing a property never adds a `properties` violation. */
  lemma {:induction false} PropertiesErrorsRemoveKey(k: Keyword, i: nat, fields: map<string, Json>, key: string, path: seq<Token>)
    requires k.Properties? && i <= |k.props|
    requires PropertiesErrors(k, i, fields, path) == []
    ensures PropertiesErrors(k, i, fields - {key}, path) == []
    decreases |k.props| - i
  {
    if i < |k.props| {
      PropertiesErrorsRemoveKey(k, i + 1, fields, key, path);
      var name := k.props[i].0;
      if name in fields - {key} {
        assert (fields - {key})[name] == fields[name];
      }
    }
  }

  // No `additionalProperties`: a key that no keyword of a schema names does not
  // change what that schema reports about an object.

  /** The property names a keyword mentions. */
  function NamedBy(k: Keyword): set<string> {
    match k
    case Required(names) => set n | n in names
    case Properties(props) => set p | p in props :: p.0
    case _ => {}
  }

  lemma {:induction false} UnlistedKeyIgnored(s: Schema, fields: map<string, Json>, key: string, value: Json, path: seq<Token>)
    requires forall j | 0 <= j < |s.keywords| :: key !in NamedBy(s.keywords[j])
    ensures Errors(s, Object(fields[key := value]), path) == Errors(s, Object(fields), path)
  {
    KeywordsUnlistedKeyIgnored(s, 0, fields, key, value, path);
  }

  lemma {:induction false} KeywordsUnlistedKeyIgnored(s: Schema, i: nat, fields: map<string, Json>, key: string, value: Json, path: seq<Token>)
    requires i <= |s.keywords|
    requires forall j | 0 <= j < |s.keywords| :: key !in NamedBy(s.keywords[j])
    ensures KeywordsErrors(s, i, Object(fields[key := value]), path) == KeywordsErrors(s, i, Object(fields), path)
    decreases |s.keywords| - i
  {
    if i < |s.keywords| {
      var k := s.keywords[i];
      assert key !in NamedBy(k);
      KeywordsUnlistedKeyIgnored(s, i + 1, fields, key, value, path);
      match k
      case Required(names) =>
        RequiredUnlistedKeyIgnored(names, fields, key, value, path);
      case Properties(props) =>
        PropertiesUnlistedKeyIgnored(k, 0, fields, key, value, path);
      case Type(types) =>
        HasAnyTypeAgrees(Object(fields[key := value]), Object(fields), types);
      case _ =>
    }
  }

  lemma {:induction false} RequiredUnlistedKeyIgnored(names: seq<string>, fields: map<string, Json>, key: string, value: Json, path: seq<Token>)
    requires key !in names
    ensures RequiredErrors(names, fields[key := value], path) == RequiredErrors(names, fields, path)
    decreases |names|
  {
    if names != [] {
      RequiredUnlistedKeyIgnored(names[1..], fields, key, value, path);
    }
  }

  lemma {:induction false} PropertiesUnlistedKeyIgnored(k: Keyword, i: nat, fields: map<string, Json>, key: string, value: Json, path: seq<Token>)
    requires k.Properties? && i <= |k.props|
    requires key !in NamedBy(k)
    ensures PropertiesErrors(k, i, fields[key := value], path) == PropertiesErrors(k, i, fields, path)
    decreases |k.props| - i
  {
    if i < |k.props| {
      assert k.props[i] in k.props;
      PropertiesUnlistedKeyIgnored(k, i + 1, fields, key, value, path);
    }
  }
}
