/**
 * The metadata store the schema builder writes into: the resource types and
 * resource sets of the OData metadata, the ProviderTypes dictionary, and the
 * GeneratedTypes memo of the materialiser. The store itself is not part of
 * the repository; each of its operations is modelled as a function that
 * returns the new schema, or None when the store rejects the call with an
 * exception.
 */
module MetadataStore {
  import opened Wrappers
  import opened TypeResolver

  datatype PropertyKind = Key | Primitive | ComplexTypeProperty | Collection

  /** A primitive property carries its CLR type; a complex property or collection of complex items names its type. */
  datatype PropertyType = PrimitiveOf(clr: ClrType) | TypeRef(typeName: string)

  datatype ResourceProperty = ResourceProperty(name: string, kind: PropertyKind, propertyType: PropertyType)

  /** A resource type: its name (its full name is FullName(name)), its kind and its properties in declaration order. */
  datatype ResourceType = ResourceType(name: string, kind: TypeKind, properties: seq<ResourceProperty>)

  /** Resource types keyed by name, and resource sets mapping a set name to the name of its entity type. */
  datatype Schema = Schema(types: map<string, ResourceType>, sets: map<string, string>)

  const EmptySchema := Schema(map[], map[])

  /** The CLR types a primitive property may have: a primitive or a nullable primitive. */
  predicate IsPrimitiveClr(c: ClrType) {
    c.Plain? || c.NullableOf?
  }

  predicate IsComplex(types: map<string, ResourceType>, name: string) {
    name in types && types[name].kind.ComplexType?
  }

  /** What the store accepts as a property of a type of kind `owner`. */
  predicate PropertyAccepted(types: map<string, ResourceType>, owner: TypeKind, p: ResourceProperty) {
    p.name != ""
    && match p.kind
       case Key => owner.EntityType? && p.propertyType.PrimitiveOf? && IsPrimitiveClr(p.propertyType.clr)
       case Primitive => p.propertyType.PrimitiveOf? && IsPrimitiveClr(p.propertyType.clr)
       case ComplexTypeProperty => p.propertyType.TypeRef? && IsComplex(types, p.propertyType.typeName)
       case Collection =>
         (p.propertyType.PrimitiveOf? && p.propertyType.clr.Plain?)
         || (p.propertyType.TypeRef? && IsComplex(types, p.propertyType.typeName))
  }

  predicate DistinctNames(props: seq<ResourceProperty>) {
    forall i, j | 0 <= i < j < |props| :: props[i].name != props[j].name
  }

  /** The consistency the store maintains between types, properties and sets. */
  predicate WellFormed(s: Schema) {
    (forall n | n in s.types :: n != "" && s.types[n].name == n)
    && (forall n | n in s.types :: DistinctNames(s.types[n].properties))
    && (forall n, p | n in s.types && p in s.types[n].properties :: PropertyAccepted(s.types, s.types[n].kind, p))
    && (forall n | n in s.sets :: s.sets[n] in s.types && s.types[s.sets[n]].kind.EntityType?)
  }

  /** Monotone growth: no type, kind, property or set is removed or changed; properties are only appended. */
  predicate Grows(a: Schema, b: Schema) {
    (forall n | n in a.types ::
       n in b.types && b.types[n].name == a.types[n].name && b.types[n].kind == a.types[n].kind
       && a.types[n].properties <= b.types[n].properties)
    && (forall n | n in a.sets :: n in b.sets && b.sets[n] == a.sets[n])
  }

  lemma GrowsReflexive(a: Schema)
    ensures Grows(a, a)
  {
  }

  lemma GrowsTransitive(a: Schema, b: Schema, c: Schema)
    requires Grows(a, b) && Grows(b, c)
    ensures Grows(a, c)
  {
  }

  /** A property accepted against some types stays accepted when the types grow. */
  lemma AcceptedGrows(a: Schema, b: Schema, owner: TypeKind, p: ResourceProperty)
    requires Grows(a, b) && PropertyAccepted(a.types, owner, p)
    ensures PropertyAccepted(b.types, owner, p)
  {
  }

  /** ResolveResourceSet: the name of the set's entity type. */
  function ResolveResourceSet(s: Schema, name: string): (r: Option<string>)
    ensures r.Some? <==> name in s.sets
    ensures r.Some? ==> r.value == s.sets[name]
  {
    if name in s.sets then Some(s.sets[name]) else None
  }

  /** TryResolveResourceType: the type whose full name is `fullName`. */
  function TryResolveResourceType(s: Schema, fullName: string): (r: Option<string>)
    ensures r.Some? ==> r.value in s.types && FullName(r.value) == fullName
    ensures r.None? ==> forall n | n in s.types :: FullName(n) != fullName
  {
    var prefix := RootNamespace + ".";
    if |prefix| <= |fullName| && fullName[..|prefix|] == prefix && fullName[|prefix|..] in s.types then
      var n := fullName[|prefix|..];
      assert FullName(n) == prefix + n;
      assert fullName == prefix + n;
      Some(n)
    else
      assert forall n | n in s.types :: FullName(n)[|prefix|..] == n;
      None
  }

  /** ResolveResourceProperty: the property of that name (SingleOrDefault, names being distinct). */
  function FindProperty(props: seq<ResourceProperty>, name: string): (r: Option<ResourceProperty>)
    ensures r.Some? ==> r.value in props && r.value.name == name
    ensures r.None? <==> forall p | p in props :: p.name != name
  {
    if props == [] then None
    else if props[0].name == name then Some(props[0])
    else FindProperty(props[1..], name)
  }

  /** A property found in a prefix of the list is found, unchanged, in the whole list. */
  lemma {:induction false} FindPropertyPrefix(a: seq<ResourceProperty>, b: seq<ResourceProperty>, name: string)
    requires a <= b && FindProperty(a, name).Some?
    ensures FindProperty(b, name) == FindProperty(a, name)
  {
    if a[0].name != name {
      assert a[1..] <= b[1..];
      FindPropertyPrefix(a[1..], b[1..], name);
    }
  }

  /** Appending a property under a new name makes it the one found under that name. */
  lemma {:induction false} FindPropertyAppend(props: seq<ResourceProperty>, p: ResourceProperty)
    requires FindProperty(props, p.name).None?
    ensures FindProperty(props + [p], p.name) == Some(p)
  {
    if props != [] {
      assert (props + [p])[1..] == props[1..] + [p];
      FindPropertyAppend(props[1..], p);
    }
  }

  function AddType(s: Schema, name: string, kind: TypeKind): (r: Option<Schema>)
    ensures r.Some? <==> name != "" && name !in s.types
    ensures r.Some? ==> r.value.types == s.types[name := ResourceType(name, kind, [])] && r.value.sets == s.sets
    ensures r.Some? ==> Grows(s, r.value)
    ensures r.Some? && WellFormed(s) ==> WellFormed(r.value)
  {
    if name == "" || name in s.types then None
    else
      var r := Schema(s.types[name := ResourceType(name, kind, [])], s.sets);
      assert Grows(s, r);
      assert forall n, p | n in s.types && p in s.types[n].properties ::
        PropertyAccepted(s.types, s.types[n].kind, p) ==> PropertyAccepted(r.types, s.types[n].kind, p);
      Some(r)
  }

  /** AddEntityType: a new, empty entity type; an empty name or a name already in use is rejected. */
  function AddEntityType(s: Schema, name: string): (r: Option<Schema>)
    ensures r == AddType(s, name, EntityType)
  {
    AddType(s, name, EntityType)
  }

  /** AddComplexType: a new, empty complex type; an empty name or a name already in use is rejected. */
  function AddComplexType(s: Schema, name: string): (r: Option<Schema>)
    ensures r == AddType(s, name, ComplexType)
  {
    AddType(s, name, ComplexType)
  }

  /**
   * Appends a property to a type. The store rejects an unknown type, an empty
   * or duplicate name, a key on a complex type, a complex type reference that
   * is not a complex type and a primitive type that is not primitive.
   */
  function AddProperty(s: Schema, typeName: string, p: ResourceProperty): (r: Option<Schema>)
    ensures r.Some? <==> typeName in s.types && FindProperty(s.types[typeName].properties, p.name).None?
                         && PropertyAccepted(s.types, s.types[typeName].kind, p)
    ensures r.Some? ==> var t := s.types[typeName];
      r.value.types == s.types[typeName := t.(properties := t.properties + [p])] && r.value.sets == s.sets
    ensures r.Some? ==> Grows(s, r.value)
    ensures r.Some? && WellFormed(s) ==> WellFormed(r.value)
  {
    if typeName !in s.types then None
    else
      var t := s.types[typeName];
      if FindProperty(t.properties, p.name).Some? || !PropertyAccepted(s.types, t.kind, p) then None
      else
        var r := Schema(s.types[typeName := t.(properties := t.properties + [p])], s.sets);
        assert Grows(s, r);
        AppendPreservesWellFormed(s, r, typeName, p);
        Some(r)
  }

  lemma AppendPreservesWellFormed(s: Schema, r: Schema, typeName: string, p: ResourceProperty)
    requires typeName in s.types
    requires var t := s.types[typeName];
      FindProperty(t.properties, p.name).None? && PropertyAccepted(s.types, t.kind, p)
      && r == Schema(s.types[typeName := t.(properties := t.properties + [p])], s.sets)
    requires Grows(s, r)
    ensures WellFormed(s) ==> WellFormed(r)
  {
    if WellFormed(s) {
      var t := s.types[typeName];
      var props := t.properties + [p];
      assert DistinctNames(props) by {
        forall i, j | 0 <= i < j < |props| ensures props[i].name != props[j].name {
          if j == |t.properties| {
            assert props[i] in t.properties;
          } else {
            assert props[i] == t.properties[i] && props[j] == t.properties[j];
          }
        }
      }
      forall n, q | n in r.types && q in r.types[n].properties
        ensures PropertyAccepted(r.types, r.types[n].kind, q)
      {
        if n == typeName && q == p {
          AcceptedGrows(s, r, t.kind, p);
        } else {
          assert q in s.types[n].properties by {
            if n == typeName {
              assert q in t.properties || q == p;
            }
          }
          AcceptedGrows(s, r, s.types[n].kind, q);
        }
      }
    }
  }

  function AddKeyProperty(s: Schema, typeName: string, name: string, clr: ClrType): (r: Option<Schema>)
    ensures r == AddProperty(s, typeName, ResourceProperty(name, Key, PrimitiveOf(clr)))
  {
    AddProperty(s, typeName, ResourceProperty(name, Key, PrimitiveOf(clr)))
  }

  function AddPrimitiveProperty(s: Schema, typeName: string, name: string, clr: ClrType): (r: Option<Schema>)
    ensures r == AddProperty(s, typeName, ResourceProperty(name, Primitive, PrimitiveOf(clr)))
  {
    AddProperty(s, typeName, ResourceProperty(name, Primitive, PrimitiveOf(clr)))
  }

  function AddComplexProperty(s: Schema, typeName: string, name: string, complexType: string): (r: Option<Schema>)
    ensures r == AddProperty(s, typeName, ResourceProperty(name, ComplexTypeProperty, TypeRef(complexType)))
  {
    AddProperty(s, typeName, ResourceProperty(name, ComplexTypeProperty, TypeRef(complexType)))
  }

  /** A collection of complex items. */
  function AddComplexCollectionProperty(s: Schema, typeName: string, name: string, itemType: string): (r: Option<Schema>)
    ensures r == AddProperty(s, typeName, ResourceProperty(name, Collection, TypeRef(itemType)))
  {
    AddProperty(s, typeName, ResourceProperty(name, Collection, TypeRef(itemType)))
  }

  /** A collection of primitive items; a null item type is rejected. */
  function AddPrimitiveCollectionProperty(s: Schema, typeName: string, name: string, itemType: Option<Primitive>): (r: Option<Schema>)
    ensures itemType.None? ==> r.None?
    ensures itemType.Some? ==> r == AddProperty(s, typeName, ResourceProperty(name, Collection, PrimitiveOf(Plain(itemType.value))))
  {
    match itemType
    case None => None
    case Some(p) => AddProperty(s, typeName, ResourceProperty(name, Collection, PrimitiveOf(Plain(p))))
  }

  /** AddResourceSet: a new set over an entity type; a set name in use or a non-entity type is rejected. */
  function AddResourceSet(s: Schema, name: string, typeName: string): (r: Option<Schema>)
    ensures r.Some? <==> name !in s.sets && typeName in s.types && s.types[typeName].kind.EntityType?
    ensures r.Some? ==> r.value == s.(sets := s.sets[name := typeName])
    ensures r.Some? ==> Grows(s, r.value)
    ensures r.Some? && WellFormed(s) ==> WellFormed(r.value)
  {
    if name in s.sets || typeName !in s.types || !s.types[typeName].kind.EntityType? then None
    else Some(s.(sets := s.sets[name := typeName]))
  }

  /** One entry of the ProviderTypes dictionary, which is only ever added to, so it keeps insertion order. */
  datatype ProviderEntry = ProviderEntry(key: string, clr: ClrType)

  predicate HasKey(entries: seq<ProviderEntry>, key: string) {
    exists e | e in entries :: e.key == key
  }

  predicate DistinctKeys(entries: seq<ProviderEntry>) {
    forall i, j | 0 <= i < j < |entries| :: entries[i].key != entries[j].key
  }

  /** No entry carries the Document tag the materialiser compiles nested types for. */
  predicate NoDocumentTags(entries: seq<ProviderEntry>) {
    forall e | e in entries :: e.clr != DocumentType
  }

  /** ProviderTypes[key], None when the key is absent. */
  function Lookup(entries: seq<ProviderEntry>, key: string): (r: Option<ClrType>)
    ensures r.Some? <==> HasKey(entries, key)
    ensures r.Some? ==> ProviderEntry(key, r.value) in entries
  {
    if entries == [] then None
    else if entries[0].key == key then Some(entries[0].clr)
    else
      assert forall e | e in entries :: e == entries[0] || e in entries[1..];
      Lookup(entries[1..], key)
  }

  /** A key added to the dictionary maps to the value it was added with. */
  lemma {:induction false} LookupAppend(a: seq<ProviderEntry>, e: ProviderEntry)
    requires !HasKey(a, e.key)
    ensures Lookup(a + [e], e.key) == Some(e.clr)
  {
    if a != [] {
      assert (a + [e])[1..] == a[1..] + [e];
      assert forall x | x in a[1..] :: x in a;
      LookupAppend(a[1..], e);
    }
  }

  /** Appending to the dictionary never changes the value of a key already present. */
  lemma {:induction false} LookupPrefix(a: seq<ProviderEntry>, b: seq<ProviderEntry>, key: string)
    requires a <= b && HasKey(a, key)
    ensures Lookup(b, key) == Lookup(a, key)
  {
    if a[0].key != key {
      assert a[1..] <= b[1..];
      assert forall e | e in a :: e == a[0] || e in a[1..];
      LookupPrefix(a[1..], b[1..], key);
    }
  }

  /** A type compiled for a document: the field names and their types it was compiled from. */
  datatype DynamicType = Provided(clr: ClrType) | Generated(shape: Shape)
  datatype Shape = Shape(fields: map<string, DynamicType>)

  /**
   * DocumentDbMetadataCache: the per-connection-string metadata, the
   * ProviderTypes dictionary and the GeneratedTypes memo.
   */
  class MetadataCache {
    var schema: Schema
    var providerTypes: seq<ProviderEntry>
    var generatedTypes: map<string, Shape>

    constructor ()
      ensures schema == EmptySchema && providerTypes == [] && generatedTypes == map[]
    {
      schema := EmptySchema;
      providerTypes := [];
      generatedTypes := map[];
    }
  }
}
