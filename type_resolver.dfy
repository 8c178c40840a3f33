/**
 * The static helpers of DocumentDbMetadata: the mapping of JSON token kinds to
 * CLR types, and the naming rules for properties, complex types and
 * provider-type keys. All of them are pure.
 */
module TypeResolver {
  import opened Wrappers
  import opened Strings
  import opened Json

  /** The CLR types the mapper produces for scalar tokens. */
  datatype Primitive =
    | StringType    // string
    | BooleanType   // bool
    | BytesType     // byte[]
    | DateTimeType  // DateTime
    | DoubleType    // double
    | GuidType      // Guid
    | Int32Type     // int
    | TimeSpanType  // TimeSpan

  /**
   * A System.Type as far as the core distinguishes them: a primitive, a
   * Nullable<T> around a primitive, the Json.NET container types recorded
   * for objects and arrays, and the MongoDB-era Document type the
   * materialiser still checks for.
   */
  datatype ClrType = Plain(p: Primitive) | NullableOf(inner: Primitive) | JObjectType | JArrayType | DocumentType

  /** Type.IsValueType for the primitives: everything except string and byte[]. */
  predicate IsValueType(p: Primitive) {
    !(p.StringType? || p.BytesType?)
  }

  datatype TypeKind = EntityType | ComplexType

  const ProviderObjectIdName: string := "id"
  const MappedObjectIdName: string := "id"
  const MappedObjectIdType: ClrType := Plain(StringType)
  const RootNamespace: string := "DocumentDB"
  const UseGlobalComplexTypeNames: bool := false
  const WordSeparator: string := "__"
  const PrefixForInvalidLeadingChar: string := "x"

  /** The token kinds that carry a scalar the mapper knows. */
  predicate IsMappedScalar(t: Token) {
    t.String? || t.Boolean? || t.Bytes? || t.Date? || t.Float? || t.Guid? || t.Integer? || t.TimeSpan?
  }

  /** MapToDotNetType: the CLR type of a scalar token, None (null) for every other kind. */
  function MapToDotNetType(t: Token): (r: Option<Primitive>)
    ensures r.Some? <==> IsMappedScalar(t)
    ensures r.Some? ==> (IsValueType(r.value) <==> !(t.String? || t.Bytes?))
    ensures t.String? ==> r == Some(StringType)
    ensures t.Integer? ==> r == Some(Int32Type)
  {
    match t
    case String => Some(StringType)
    case Boolean => Some(BooleanType)
    case Bytes => Some(BytesType)
    case Date => Some(DateTimeType)
    case Float => Some(DoubleType)
    case Guid => Some(GuidType)
    case Integer => Some(Int32Type)
    case TimeSpan => Some(TimeSpanType)
    case _ => None
  }

  /**
   * GetRawValueType: the mapped type, wrapped as Nullable<T> for value types
   * unless it is a key. None stands for the NullReferenceException raised
   * when the token has no mapped type.
   */
  function GetRawValueType(t: Token, isKey: bool): (r: Option<ClrType>)
    ensures r.Some? <==> MapToDotNetType(t).Some?
    ensures r.Some? ==> var p := MapToDotNetType(t).value;
      if !isKey && IsValueType(p) then r.value == NullableOf(p) else r.value == Plain(p)
  {
    match MapToDotNetType(t)
    case None => None
    case Some(p) => if !isKey && IsValueType(p) then Some(NullableOf(p)) else Some(Plain(p))
  }

  /** string and byte[] are never wrapped; a key is never wrapped. */
  lemma RawValueTypeWrapping(t: Token, isKey: bool)
    requires IsMappedScalar(t)
    ensures t.String? || t.Bytes? || isKey ==> GetRawValueType(t, isKey).value.Plain?
    ensures !(t.String? || t.Bytes? || isKey) ==> GetRawValueType(t, isKey).value.NullableOf?
  {
  }

  /**
   * ResolveProviderType: the type recorded in ProviderTypes for a field;
   * None is the null that marks a value that cannot be typed yet.
   */
  function ResolveProviderType(f: Field, isKey: bool): (r: Option<ClrType>)
    ensures r.None? <==> !(f.value.Array? || f.value.Object? || IsMappedScalar(f.value))
    ensures f.value.Array? ==> r == Some(JArrayType)
    ensures f.value.Object? ==> r == Some(JObjectType)
    ensures IsMappedScalar(f.value) ==> r == GetRawValueType(f.value, isKey)
    ensures r != Some(DocumentType)
  {
    if f.value.Array? then Some(JArrayType)
    else if f.value.Object? then Some(JObjectType)
    else if MapToDotNetType(f.value).Some? then GetRawValueType(f.value, isKey)
    else None
  }

  /** ASCII case folding, the model of the invariant-culture case-insensitive comparison. */
  function ToLower(ch: char): (r: char)
    ensures 'A' <= ch <= 'Z' ==> r as int == ch as int + 32
    ensures !('A' <= ch <= 'Z') ==> r == ch
  {
    if 'A' <= ch <= 'Z' then (ch as int + 32) as char else ch
  }

  /** IsObjectId: the field name equals "id" ignoring case. */
  predicate IsObjectId(name: string) {
    |name| == |ProviderObjectIdName|
    && ToLower(name[0]) == ProviderObjectIdName[0] && ToLower(name[1]) == ProviderObjectIdName[1]
  }

  /** Exactly the four spellings id, iD, Id and ID name the object id. */
  lemma ObjectIdSpellings(name: string)
    ensures IsObjectId(name) <==> name in {"id", "iD", "Id", "ID"}
  {
    if IsObjectId(name) {
      assert ToLower(name[0]) == 'i' && ToLower(name[1]) == 'd';
      assert name == [name[0], name[1]];
    }
  }

  /**
   * GetElementType: the CLR type a new property is declared with. None is
   * the NullReferenceException GetRawValueType raises for an id-named field
   * of a complex owner whose value has no mapped type.
   */
  function GetElementType(f: Field, treatObjectIdAsKey: bool): (r: Option<ClrType>)
    ensures IsObjectId(f.name) && treatObjectIdAsKey ==> r == Some(MappedObjectIdType)
    ensures IsObjectId(f.name) && !treatObjectIdAsKey ==> r == GetRawValueType(f.value, false)
    ensures !IsObjectId(f.name) ==> r.Some?
    ensures !IsObjectId(f.name) && f.value.Array? ==> r == Some(JArrayType)
    ensures !IsObjectId(f.name) && f.value.Object? ==> r == Some(JObjectType)
    ensures !IsObjectId(f.name) && !IsMappedScalar(f.value) && !f.value.Array? && !f.value.Object?
      ==> r == Some(Plain(StringType))
    ensures !IsObjectId(f.name) && IsMappedScalar(f.value) ==> r == GetRawValueType(f.value, false)
  {
    if IsObjectId(f.name) then
      if treatObjectIdAsKey then Some(MappedObjectIdType) else GetRawValueType(f.value, false)
    else if f.value.Array? then Some(JArrayType)
    else if f.value.Object? then Some(JObjectType)
    else if MapToDotNetType(f.value).Some? then GetRawValueType(f.value, false)
    else Some(Plain(StringType))
  }

  /** NormalizeResourcePropertyName: trim, then prefix "x" when the name starts with '_'. */
  function NormalizeResourcePropertyName(name: string): (r: string)
    ensures r == Trim(name) || r == PrefixForInvalidLeadingChar + Trim(name)
    ensures r == PrefixForInvalidLeadingChar + Trim(name) <==> StartsWith(Trim(name), "_")
    ensures !StartsWith(r, "_")
    ensures r == [] || (!IsWhiteSpace(r[0]) && !IsWhiteSpace(r[|r| - 1]))
  {
    var trimmed := Trim(name);
    TrimEnds(name);
    if StartsWith(trimmed, "_") then PrefixForInvalidLeadingChar + trimmed else trimmed
  }

  /** Normalising a normalised name changes nothing. */
  lemma NormalizeIdempotent(name: string)
    ensures NormalizeResourcePropertyName(NormalizeResourcePropertyName(name))
         == NormalizeResourcePropertyName(name)
  {
    var r := NormalizeResourcePropertyName(name);
    TrimOfTrimmed(r);
  }

  /** GetResourcePropertyName: "id" for an id-named field of an entity, else the normalised name. */
  function GetResourcePropertyName(name: string, kind: TypeKind): (r: string)
    ensures IsObjectId(name) && kind == EntityType ==> r == MappedObjectIdName
    ensures !(IsObjectId(name) && kind == EntityType) ==> r == NormalizeResourcePropertyName(name)
  {
    if IsObjectId(name) && !kind.ComplexType? then MappedObjectIdName else NormalizeResourcePropertyName(name)
  }

  /** An id-named field keeps its own spelling inside a complex type. */
  lemma ComplexIdKeepsSpelling(name: string)
    requires IsObjectId(name)
    ensures GetResourcePropertyName(name, ComplexType) == name
  {
    var a, b := name[0], name[1];
    assert a == 'i' || a == 'I';
    assert b == 'd' || b == 'D';
    assert !IsWhiteSpace(a) && !IsWhiteSpace(b);
    TrimOfTrimmed(name);
    assert !StartsWith(name, "_");
  }

  /** GetQualifiedTypeName: the complex type owned by `owner` for property `name`. */
  function GetQualifiedTypeName(owner: string, name: string): (r: string)
    ensures !UseGlobalComplexTypeNames ==> r == owner + WordSeparator + name
    ensures |r| >= |owner| + 2
  {
    if UseGlobalComplexTypeNames then name
    else
      assert [owner, name][1..] == [name];
      assert Join(WordSeparator, [name]) == name;
      Join(WordSeparator, [owner, name])
  }

  /** GetQualifiedTypePrefix: the owner's name, since complex type names are not global. */
  function GetQualifiedTypePrefix(owner: string): (r: string)
    ensures !UseGlobalComplexTypeNames ==> r == owner
  {
    if UseGlobalComplexTypeNames then "" else owner
  }

  /** GetQualifiedPropertyName: "type.property", the key of ProviderTypes. */
  function GetQualifiedPropertyName(typeName: string, propertyName: string): (r: string)
    ensures r == typeName + "." + propertyName
  {
    assert [typeName, propertyName][1..] == [propertyName];
    assert Join(".", [propertyName]) == propertyName;
    Join(".", [typeName, propertyName])
  }

  /** The full name under which the store files a type named `name`. */
  function FullName(name: string): (r: string)
    ensures StartsWith(r, RootNamespace + ".")
    ensures r[|RootNamespace| + 1..] == name
  {
    GetQualifiedPropertyName(RootNamespace, name)
  }

  /** Distinct type names have distinct full names. */
  lemma FullNameInjective(a: string, b: string)
    requires FullName(a) == FullName(b)
    ensures a == b
  {
    assert a == FullName(a)[|RootNamespace| + 1..];
  }

  /** The field name of a provider key whose property name has no '.' is that property name. */
  lemma FieldOfQualifiedName(typeName: string, propertyName: string)
    requires '.' !in propertyName
    ensures LastPiece(GetQualifiedPropertyName(typeName, propertyName), '.') == propertyName
  {
    var key := GetQualifiedPropertyName(typeName, propertyName);
    LastPieceSuffix(key, '.');
    assert key[|key| - |propertyName| - 1] == '.';
    assert key[|key| - |propertyName|..] == propertyName;
    LastPieceUnique(key, '.', propertyName);
  }
}
