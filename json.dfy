/**
 * JSON tokens as Json.NET presents a document to the core: a closed union of
 * the JTokenType kinds the core distinguishes. Scalar kinds carry no payload:
 * the schema builder only looks at a value's kind, and the converter turns
 * every scalar into null. `Other` stands for the JValue kinds that have no CLR
 * counterpart in the type mapper (Undefined, Uri, Raw, Comment); `Property` is
 * a JProperty seen as a token, which is what enumerating a JObject yields.
 */
module Json {
  import opened Wrappers

  datatype Token =
    | Null
    | String
    | Boolean
    | Bytes
    | Date
    | Float
    | Guid
    | Integer
    | TimeSpan
    | Other
    | Array(items: seq<Token>)
    | Object(members: seq<Field>)
    | Property(field: Field)

  /** A JProperty: a member name and its value. */
  datatype Field = Field(name: string, value: Token)

  /** Nesting depth, the measure that the mutually recursive builder methods decrease. */
  function Depth(t: Token): nat
  {
    match t
    case Array(items) => 1 + ItemsDepth(items)
    case Object(members) => 2 + MembersDepth(members)
    case Property(f) => 1 + Depth(f.value)
    case _ => 0
  }

  function ItemsDepth(items: seq<Token>): (d: nat)
    ensures forall t | t in items :: Depth(t) <= d
  {
    if items == [] then 0
    else
      var d0 := Depth(items[0]);
      var d1 := ItemsDepth(items[1..]);
      assert forall t | t in items :: t == items[0] || t in items[1..];
      if d0 < d1 then d1 else d0
  }

  function MembersDepth(members: seq<Field>): (d: nat)
    ensures forall f | f in members :: Depth(f.value) <= d
  {
    if members == [] then 0
    else
      var d0 := Depth(members[0].value);
      var d1 := MembersDepth(members[1..]);
      assert forall f | f in members :: f == members[0] || f in members[1..];
      if d0 < d1 then d1 else d0
  }

  /**
   * `foreach (var element in token) ... element as JProperty`: the members of
   * an object. A value token has no children; an array's children are not
   * properties, so a non-empty array (or a lone property, whose child is its
   * value) yields a null JProperty and the caller dereferences it: None.
   */
  function PropertyChildren(t: Token): (r: Option<seq<Field>>)
    ensures r.Some? ==> forall f | f in r.value :: Depth(f.value) < Depth(t)
    ensures t.Object? ==> r == Some(t.members)
    ensures r.None? <==> (t.Array? && |t.items| > 0) || t.Property?
  {
    match t
    case Object(members) => Some(members)
    case Array(items) => if |items| == 0 then Some([]) else None
    case Property(_) => None
    case _ => Some([])
  }

  /**
   * `foreach (var arrayValue in token)`: the child tokens of an array, the
   * JProperty children of an object, the value of a property, nothing for a
   * value.
   */
  function ChildTokens(t: Token): (r: seq<Token>)
    ensures forall c | c in r :: Depth(c) < Depth(t)
    ensures t.Array? ==> r == t.items
  {
    match t
    case Array(items) => items
    case Object(members) =>
      var r := seq(|members|, i requires 0 <= i < |members| => Property(members[i]));
      assert forall c | c in r :: exists i :: 0 <= i < |members| && c == Property(members[i]);
      assert forall i | 0 <= i < |members| :: members[i] in members;
      r
    case Property(f) => [f.value]
    case _ => []
  }
}
