/**
 * Decoded JSON values, as the workflow validator receives them from the JSON
 * decoder, and the instance paths that locate a part of such a value.
 */
module JsonValues {

  datatype Option<+T> = None | Some(value: T)

  /** A decoded JSON document. Integers and non-integers are kept apart, as the
      decoder keeps them apart; a boolean is never a number. An object is a map
      because the decoder keeps one value per key and the validator never looks
      at the order of an object's keys. */
  datatype Json =
    | Null
    | Bool(b: bool)
    | Int(i: int)
    | Float(r: real)
    | Str(s: string)
    | Array(items: seq<Json>)
    | Object(fields: map<string, Json>)

  /** The seven primitive types of JSON Schema draft-07. */
  datatype JsonType =
    | NullType | BooleanType | IntegerType | NumberType | StringType | ArrayType | ObjectType

  /** The `type` test of JSON Schema draft-07: "number" takes integers and
      non-integers alike, "integer" also takes a `Float` whose fraction is zero,
      and a boolean is of type "boolean" only. */
  predicate HasType(x: Json, t: JsonType) {
    match t
    case NullType => x.Null?
    case BooleanType => x.Bool?
    case IntegerType => x.Int? || (x.Float? && x.r == x.r.Floor as real)
    case NumberType => x.Int? || x.Float?
    case StringType => x.Str?
    case ArrayType => x.Array?
    case ObjectType => x.Object?
  }

  /** `x` has one of `types`, as a `type` keyword listing several types asks. */
  predicate HasAnyType(x: Json, types: seq<JsonType>)
    decreases |types|
  {
    types != [] && (HasType(x, types[0]) || HasAnyType(x, types[1..]))
  }

  /** Two values of the same JSON types pass the same type lists. */
  lemma {:induction false} HasAnyTypeAgrees(x: Json, y: Json, types: seq<JsonType>)
    requires forall t :: HasType(x, t) == HasType(y, t)
    ensures HasAnyType(x, types) == HasAnyType(y, types)
    decreases |types|
  {
    if types != [] {
      HasAnyTypeAgrees(x, y, types[1..]);
    }
  }

  /** One step of an instance path: a property name or an array index. */
  datatype Token = Key(name: string) | Index(i: nat)

  /** The part of `x` one token below it, if there is one. */
  function Child(x: Json, t: Token): Option<Json> {
    match t
    case Key(k) => if x.Object? && k in x.fields then Some(x.fields[k]) else None
    case Index(i) => if x.Array? && i < |x.items| then Some(x.items[i]) else None
  }

  /** The part of `root` that `path` leads to, if the path exists in `root`. */
  function At(root: Json, path: seq<Token>): Option<Json>
    decreases |path|
  {
    if path == [] then Some(root)
    else
      match At(root, path[..|path| - 1])
      case None => None
      case Some(parent) => Child(parent, path[|path| - 1])
  }

  lemma AtExtend(root: Json, path: seq<Token>, t: Token, x: Json)
    requires At(root, path) == Some(x)
    ensures At(root, path + [t]) == Child(x, t)
  {
    assert (path + [t])[..|path|] == path;
  }

  /** The decimal digits of `n`, as the source language prints an integer. */
  function Decimal(n: nat): (r: string)
    ensures |r| >= 1
    ensures forall c | c in r :: '0' <= c <= '9'
    decreases n
  {
    var digit := ['0' + (n % 10) as char];
    if n < 10 then digit else Decimal(n / 10) + digit
  }

  /** The number a string of decimal digits denotes. */
  function DecimalValue(s: string): nat
    decreases |s|
  {
    if s == [] then 0
    else
      var c := s[|s| - 1];
      DecimalValue(s[..|s| - 1]) * 10 + (if '0' <= c <= '9' then (c - '0') as nat else 0)
  }

  /** Printing an index loses nothing: the digits read back as the index. */
  lemma {:induction false} DecimalRoundTrip(n: nat)
    ensures DecimalValue(Decimal(n)) == n
  {
    var s := Decimal(n);
    if n >= 10 {
      DecimalRoundTrip(n / 10);
      assert s[..|s| - 1] == Decimal(n / 10);
    }
  }

  /** `s` begins with `prefix`. */
  predicate StartsWith(s: string, prefix: string) {
    |prefix| <= |s| && s[..|prefix|] == prefix
  }

  /** `sub` occurs somewhere in `s`. */
  ghost predicate Contains(s: string, sub: string) {
    exists i :: OccursAt(s, sub, i)
  }

  /** `sub` occurs in `s` starting at position `i`. */
  predicate OccursAt(s: string, sub: string, i: int) {
    0 <= i <= |s| - |sub| && s[i..i + |sub|] == sub
  }

  lemma ContainsIn(prefix: string, sub: string, suffix: string)
    ensures Contains(prefix + sub + suffix, sub)
  {
    var s := prefix + sub + suffix;
    assert OccursAt(s, sub, |prefix|);
  }

  lemma ContainsExtend(prefix: string, s: string, suffix: string, sub: string)
    requires Contains(s, sub)
    ensures Contains(prefix + s + suffix, sub)
  {
    var i :| OccursAt(s, sub, i);
    var t := prefix + s + suffix;
    assert t[|prefix| + i..|prefix| + i + |sub|] == s[i..i + |sub|];
    assert OccursAt(t, sub, |prefix| + i);
  }

  /** A path token as the source prints it: a key as itself, an index in decimal. */
  function TokenText(t: Token): string {
    match t
    case Key(k) => k
    case Index(i) => Decimal(i)
  }

  /** The tokens of a path printed and joined with '.', the empty path as "". */
  function JoinPath(path: seq<Token>): string
    decreases |path|
  {
    if path == [] then ""
    else if |path| == 1 then TokenText(path[0])
    else TokenText(path[0]) + "." + JoinPath(path[1..])
  }

  /** Every token of a path is legible in the joined path. */
  lemma {:induction false} JoinPathShowsTokens(path: seq<Token>, j: nat)
    requires j < |path|
    ensures Contains(JoinPath(path), TokenText(path[j]))
    decreases |path|
  {
    if |path| == 1 {
      ContainsIn("", TokenText(path[0]), "");
      assert JoinPath(path) == "" + TokenText(path[0]) + "";
    } else if j == 0 {
      ContainsIn("", TokenText(path[0]), "." + JoinPath(path[1..]));
      assert JoinPath(path) == "" + TokenText(path[0]) + ("." + JoinPath(path[1..]));
    } else {
      JoinPathShowsTokens(path[1..], j - 1);
      ContainsExtend(TokenText(path[0]) + ".", JoinPath(path[1..]), "", TokenText(path[j]));
      assert JoinPath(path) == TokenText(path[0]) + "." + JoinPath(path[1..]) + "";
    }
  }
}
