/**
 * DocumentDbMetadata: infers an OData schema from sampled documents. Each
 * collection becomes an entity type and a set; every property of a sampled
 * document becomes a property of that type (a nested object becomes a complex
 * type named `Owner__property`, an array a collection property), and every
 * property whose type is known is recorded in ProviderTypes under
 * `Type.property`. A property seen only with values whose type cannot be told
 * (null, say) is remembered as unresolved and declared as a string at the end.
 *
 * The store behind the cache rejects inconsistent calls by throwing; every
 * method here returns `ok == false` where the source would propagate such an
 * exception (or a NullReferenceException), leaving the cache as the calls
 * made so far have left it.
 */
module SchemaBuilder {
  import opened Wrappers
  import opened Strings
  import opened Json
  import opened TypeResolver
  import opened MetadataStore
  import opened Unresolved

  /** DocumentDbConfiguration.Metadata: how many documents of each collection are sampled (negative: all). */
  datatype MetadataConfiguration = MetadataConfiguration(prefetchRows: int)

  /** A collection of the database: its id and its documents, in the order the query returns them. */
  datatype DocumentCollection = DocumentCollection(id: string, documents: seq<seq<Field>>)

  /** A document the schema pass has read, with the collection it belongs to. */
  datatype SampledDocument = SampledDocument(collection: string, document: seq<Field>)

  /** The key of every entity type: "id", a string. */
  const KeyProperty := ResourceProperty(MappedObjectIdName, Key, PrimitiveOf(MappedObjectIdType))

  /** What the builder keeps true of the store beyond its own consistency: sets are named after their types and every key is KeyProperty. */
  predicate BuilderShaped(s: Schema) {
    (forall n | n in s.sets :: s.sets[n] == n)
    && (forall n, p | n in s.types && p in s.types[n].properties && p.kind.Key? :: p == KeyProperty)
  }

  predicate CacheValid(c: MetadataCache)
    reads c
  {
    WellFormed(c.schema) && BuilderShaped(c.schema)
    && DistinctKeys(c.providerTypes) && NoDocumentTags(c.providerTypes)
  }

  /** The name ResolveResourceType looks up: the resource name, qualified by its owner when there is one. */
  function QualifiedResourceName(resourceName: string, ownerPrefix: string): string {
    if ownerPrefix == "" then resourceName else GetQualifiedTypeName(ownerPrefix, resourceName)
  }

  /** ResolveResourceType: the type of that (qualified) name, looked up by its namespace-qualified full name. */
  function ResolveResourceType(s: Schema, resourceName: string, ownerPrefix: string): (r: Option<string>)
    ensures r.Some? <==> QualifiedResourceName(resourceName, ownerPrefix) in s.types
    ensures r.Some? ==> r.value == QualifiedResourceName(resourceName, ownerPrefix)
  {
    var q := QualifiedResourceName(resourceName, ownerPrefix);
    var found := TryResolveResourceType(s, FullName(q));
    if found.Some? then FullNameInjective(found.value, q); found else found
  }

  /**
   * ResolveResourceProperty(type, element): the property the field maps to in
   * that type. SingleOrDefault cannot throw: property names are distinct.
   */
  function ResolveResourceProperty(t: ResourceType, fieldName: string): (r: Option<ResourceProperty>)
    requires DistinctNames(t.properties)
    ensures var name := GetResourcePropertyName(fieldName, t.kind);
      && (r.None? <==> forall p | p in t.properties :: p.name != name)
      && (r.Some? ==> r.value in t.properties && r.value.name == name)
      && (r.Some? ==> forall p | p in t.properties && p.name == name :: p == r.value)
  {
    var r := FindProperty(t.properties, GetResourcePropertyName(fieldName, t.kind));
    if r.Some? then
      var k :| 0 <= k < |t.properties| && t.properties[k] == r.value;
      assert forall j | 0 <= j < |t.properties| && t.properties[j].name == r.value.name :: j == k;
      r
    else r
  }

  /** GetCollectionNames: the collections whose id does not start with "system.", in order. */
  function GetCollectionNames(collections: seq<DocumentCollection>): (r: seq<DocumentCollection>)
    ensures |r| <= |collections|
    ensures forall c :: c in r <==> c in collections && !StartsWith(c.id, "system.")
  {
    if collections == [] then []
    else
      var rest := GetCollectionNames(collections[1..]);
      assert forall c :: c in collections <==> c == collections[0] || c in collections[1..];
      if StartsWith(collections[0].id, "system.") then rest else [collections[0]] + rest
  }

  /**
   * How many documents of a collection of `available` documents the sampling
   * loop reads: all when PrefetchRows is negative, otherwise PrefetchRows, but
   * at least one (the count is compared after a document is read).
   */
  function SampleSize(prefetchRows: int, available: nat): (n: nat)
    ensures n <= available
    ensures prefetchRows < 0 || prefetchRows >= available ==> n == available
    ensures 0 < prefetchRows <= available ==> n == prefetchRows
    ensures prefetchRows == 0 ==> n == if available == 0 then 0 else 1
  {
    if prefetchRows < 0 || prefetchRows >= available then available
    else if prefetchRows == 0 then (if available == 0 then 0 else 1)
    else prefetchRows
  }

  /** The documents tagged with the collection they were read from. */
  ghost function Tagged(collection: string, documents: seq<seq<Field>>): (r: seq<SampledDocument>)
  {
    seq(|documents|, k requires 0 <= k < |documents| => SampledDocument(collection, documents[k]))
  }

  /** The documents the schema pass reads from the listed collections, in order: none when PrefetchRows is 0. */
  ghost function SamplePlan(collections: seq<DocumentCollection>, prefetchRows: int): seq<SampledDocument>
  {
    if collections == [] || prefetchRows == 0 then []
    else
      var c := collections[|collections| - 1];
      SamplePlan(collections[..|collections| - 1], prefetchRows)
      + Tagged(c.id, c.documents[..SampleSize(prefetchRows, |c.documents|)])
  }

  lemma TaggedSnoc(collection: string, documents: seq<seq<Field>>, i: nat)
    requires i < |documents|
    ensures Tagged(collection, documents[..i + 1]) == Tagged(collection, documents[..i]) + [SampledDocument(collection, documents[i])]
  {
  }

  /**
   * Whether the schema pass gives a listed collection its set: always when
   * PrefetchRows is 0, otherwise when it has a document to read.
   */
  predicate GetsResourceSet(c: DocumentCollection, prefetchRows: int) {
    prefetchRows == 0 || |c.documents| > 0
  }

  lemma AppendAssoc<T>(a: seq<T>, b: seq<T>, c: seq<T>)
    ensures (a + b) + c == a + (b + c)
  {
  }

  /** `b` extends `a`, and the only set it adds, if any, is `name`'s. */
  ghost predicate GrowsBySet(a: Schema, b: Schema, name: string) {
    Grows(a, b) && forall n | n in b.sets && n !in a.sets :: n == name
  }

  lemma GrowsBySetTransitive(a: Schema, b: Schema, c: Schema, name: string)
    requires GrowsBySet(a, b, name) && GrowsBySet(b, c, name)
    ensures GrowsBySet(a, c, name)
  {
    GrowsTransitive(a, b, c);
  }

  /** The first `i` listed collections that get a set have one in `s`. */
  ghost predicate SetsCreated(names: seq<DocumentCollection>, i: nat, prefetchRows: int, s: Schema)
    requires i <= |names|
  {
    forall k | 0 <= k < i && GetsResourceSet(names[k], prefetchRows) :: names[k].id in s.sets
  }

  lemma SetsCreatedStep(names: seq<DocumentCollection>, i: nat, prefetchRows: int, a: Schema, b: Schema)
    requires i < |names| && SetsCreated(names, i, prefetchRows, a) && Grows(a, b)
    requires GetsResourceSet(names[i], prefetchRows) ==> names[i].id in b.sets
    ensures SetsCreated(names, i + 1, prefetchRows, b)
  {
  }

  /** Every set in `b` but not in `a` belongs to one of the first `i` listed collections that gets one. */
  ghost predicate SetsOnlyFor(names: seq<DocumentCollection>, i: nat, prefetchRows: int, a: Schema, b: Schema)
    requires i <= |names|
  {
    forall n | n in b.sets && n !in a.sets ::
      exists k | 0 <= k < i :: names[k].id == n && GetsResourceSet(names[k], prefetchRows)
  }

  lemma SetsOnlyForStep(names: seq<DocumentCollection>, i: nat, prefetchRows: int, a: Schema, b: Schema, c: Schema)
    requires i < |names| && SetsOnlyFor(names, i, prefetchRows, a, b) && Grows(a, b)
    requires forall n | n in c.sets && n !in b.sets :: n == names[i].id && GetsResourceSet(names[i], prefetchRows)
    ensures SetsOnlyFor(names, i + 1, prefetchRows, a, c)
  {
    forall n | n in c.sets && n !in a.sets
      ensures exists k | 0 <= k < i + 1 :: names[k].id == n && GetsResourceSet(names[k], prefetchRows)
    {
      if n !in b.sets {
        assert names[i].id == n && GetsResourceSet(names[i], prefetchRows);
      }
    }
  }

  /**
   * What scanning the first `i` items of an array without objects has done to
   * the schema `s0`: nothing until the first item that is neither null nor an
   * array, which declares the still undeclared property a collection of its
   * type.
   */
  ghost predicate ArrayScanned(typeName: string, name: string, items: seq<Token>, i: nat, s0: Schema, s: Schema)
    requires i <= |items|
  {
    var k := FirstElementIndex(items);
    var declaredBefore := typeName in s0.types && FindProperty(s0.types[typeName].properties, name).Some?;
    if k == -1 || i <= k || declaredBefore then s == s0
    else
      AddPrimitiveCollectionProperty(s0, typeName, name, MapToDotNetType(items[k])).Some?
      && MapToDotNetType(items[k]).Some?
      && typeName in s.types
      && FindProperty(s.types[typeName].properties, name)
         == Some(ResourceProperty(name, Collection, PrimitiveOf(Plain(MapToDotNetType(items[k]).value))))
  }

  /** One item of the scan: `s1` is what DeclareCollection (or nothing, for a null item) made of `s`. */
  lemma ArrayScannedStep(typeName: string, name: string, items: seq<Token>, i: nat, s0: Schema, s: Schema, s1: Schema, ok: bool)
    requires i < |items| && !items[i].Object? && typeName in s0.types && Grows(s0, s)
    requires ArrayScanned(typeName, name, items, i, s0, s)
    requires items[i].Null? ==> ok && s1 == s
    requires !items[i].Null? && (FindProperty(s.types[typeName].properties, name).Some? || items[i].Array?) ==>
      ok && s1 == s
    requires !items[i].Null? && FindProperty(s.types[typeName].properties, name).None? && !items[i].Array? ==>
      (ok <==> AddPrimitiveCollectionProperty(s, typeName, name, MapToDotNetType(items[i])).Some?)
      && (ok ==> MapToDotNetType(items[i]).Some? && typeName in s1.types
                 && FindProperty(s1.types[typeName].properties, name)
                    == Some(ResourceProperty(name, Collection, PrimitiveOf(Plain(MapToDotNetType(items[i]).value)))))
      && (!ok ==> s1 == s)
    ensures ok ==> ArrayScanned(typeName, name, items, i + 1, s0, s1)
    ensures !ok ==>
      i == FirstElementIndex(items) && s == s0
      && FindProperty(s0.types[typeName].properties, name).None?
      && AddPrimitiveCollectionProperty(s0, typeName, name, MapToDotNetType(items[i])).None?
  {
    var k := FirstElementIndex(items);
    var declaredBefore := FindProperty(s0.types[typeName].properties, name).Some?;
    if declaredBefore {
      FindPropertyPrefix(s0.types[typeName].properties, s.types[typeName].properties, name);
    }
  }

  /** The sampling loop stops, after a document is read, at SampleSize documents. */
  lemma SampleSizeReached(prefetchRows: int, available: nat, rowCount: nat)
    requires rowCount <= available
    requires (rowCount == available && (rowCount == 0 || prefetchRows < 0 || rowCount < prefetchRows))
          || (prefetchRows >= 0 && rowCount >= prefetchRows && rowCount >= 1 && (rowCount == 1 || rowCount - 1 < prefetchRows))
    ensures SampleSize(prefetchRows, available) == rowCount
  {
  }

  lemma SamplePlanSnoc(collections: seq<DocumentCollection>, i: nat, prefetchRows: int)
    requires i < |collections|
    ensures var c := collections[i];
      SamplePlan(collections[..i + 1], prefetchRows)
      == SamplePlan(collections[..i], prefetchRows)
         + if prefetchRows == 0 then [] else Tagged(c.id, c.documents[..SampleSize(prefetchRows, |c.documents|)])
  {
    assert collections[..i + 1][..i] == collections[..i];
  }

  /** The string property the schema pass ends with for a member whose values were never typed. */
  function StringProperty(name: string): (p: ResourceProperty)
    ensures p.name == name && p.kind.Primitive?
  {
    ResourceProperty(name, Primitive, PrimitiveOf(Plain(StringType)))
  }

  /**
   * An unresolved member has been declared: a string property under its
   * normalised name, and the provider type string under "type.name".
   */
  ghost predicate DeclaredAsString(s: Schema, providerTypes: seq<ProviderEntry>, u: UnresolvedProperty) {
    var name := NormalizeResourcePropertyName(u.propertyName);
    u.typeName in s.types
    && StringProperty(name) in s.types[u.typeName].properties
    && ProviderEntry(GetQualifiedPropertyName(u.typeName, name), Plain(StringType)) in providerTypes
  }

  /** Once declared, an unresolved member stays declared as the schema and the provider types grow. */
  lemma DeclaredAsStringGrows(a: Schema, b: Schema, pa: seq<ProviderEntry>, pb: seq<ProviderEntry>, u: UnresolvedProperty)
    requires DeclaredAsString(a, pa, u) && Grows(a, b) && pa <= pb
    ensures DeclaredAsString(b, pb, u)
  {
    var name := NormalizeResourcePropertyName(u.propertyName);
    FindPropertyPrefix(a.types[u.typeName].properties, b.types[u.typeName].properties, name);
    LookupPrefix(pa, pb, GetQualifiedPropertyName(u.typeName, name));
  }

  /** The first i unresolved members are all declared as strings. */
  ghost predicate DeclaredAsStrings(s: Schema, providerTypes: seq<ProviderEntry>, us: seq<UnresolvedProperty>, i: nat)
    requires i <= |us|
  {
    i == 0 || (DeclaredAsStrings(s, providerTypes, us, i - 1) && DeclaredAsString(s, providerTypes, us[i - 1]))
  }

  /** DeclaredAsStrings survives growth of the schema and the provider types. */
  lemma {:induction false} DeclaredAsStringsGrows(a: Schema, b: Schema, pa: seq<ProviderEntry>, pb: seq<ProviderEntry>,
                                                  us: seq<UnresolvedProperty>, i: nat)
    requires i <= |us| && DeclaredAsStrings(a, pa, us, i) && Grows(a, b) && pa <= pb
    ensures DeclaredAsStrings(b, pb, us, i)
  {
    if i > 0 {
      DeclaredAsStringsGrows(a, b, pa, pb, us, i - 1);
      DeclaredAsStringGrows(a, b, pa, pb, us[i - 1]);
    }
  }

  /** DeclaredAsStrings says what it means: each of the first i members is declared. */
  lemma {:induction false} DeclaredAsStringsAll(s: Schema, providerTypes: seq<ProviderEntry>, us: seq<UnresolvedProperty>, i: nat)
    requires i <= |us| && DeclaredAsStrings(s, providerTypes, us, i)
    ensures forall k | 0 <= k < i :: DeclaredAsString(s, providerTypes, us[k])
  {
    if i > 0 {
      DeclaredAsStringsAll(s, providerTypes, us, i - 1);
    }
  }

  /** The index of the first item that is neither null nor an array, or -1. */
  function FirstElementIndex(items: seq<Token>): (k: int)
    ensures -1 <= k < |items|
    ensures k == -1 <==> forall i | 0 <= i < |items| :: items[i].Null? || items[i].Array?
    ensures k >= 0 ==> !items[k].Null? && !items[k].Array?
    ensures k >= 0 ==> forall i | 0 <= i < k :: items[i].Null? || items[i].Array?
  {
    if items == [] then -1
    else if !items[0].Null? && !items[0].Array? then 0
    else
      var k := FirstElementIndex(items[1..]);
      assert forall i | 1 <= i < |items| :: items[i] == items[1..][i - 1];
      if k == -1 then -1 else k + 1
  }

  /** Whether the document has an id-named member (the loop's hasObjectId). */
  predicate HasIdMember(document: Option<Token>) {
    document.Some? && PropertyChildren(document.value).Some?
    && exists f | f in PropertyChildren(document.value).value :: IsObjectId(f.name)
  }

  /** Whether one of the first `j` members is id-named: the flag the member loop keeps. */
  predicate IdNamedBefore(members: seq<Field>, j: nat)
    requires j <= |members|
  {
    j > 0 && (IdNamedBefore(members, j - 1) || IsObjectId(members[j - 1].name))
  }

  lemma {:induction false} IdNamedBeforeExists(members: seq<Field>, j: nat)
    requires j <= |members|
    ensures IdNamedBefore(members, j) <==> exists i | 0 <= i < j :: IsObjectId(members[i].name)
  {
    if j > 0 {
      IdNamedBeforeExists(members, j - 1);
    }
  }

  /** The flag the member loop ends with is HasIdMember. */
  lemma HasIdMemberAt(document: Token, members: seq<Field>)
    requires PropertyChildren(document) == Some(members)
    ensures HasIdMember(Some(document)) <==> IdNamedBefore(members, |members|)
  {
    IdNamedBeforeExists(members, |members|);
    if exists f | f in members :: IsObjectId(f.name) {
      var f :| f in members && IsObjectId(f.name);
      var i :| 0 <= i < |members| && members[i] == f;
    }
  }

  /** The members of a document have distinct names, as a JObject's always do. */
  predicate DistinctFieldNames(members: seq<Field>) {
    forall i, j | 0 <= i < j < |members| :: members[i].name != members[j].name
  }

  /**
   * What registering the member `f` in the type `typeName` leaves behind: a
   * property under the member's resource name, or an entry among the
   * unresolved members while its value has no type. A member whose resource
   * name is empty is skipped. An array that is not id-named declares nothing
   * when no item is anything but null or an array, and nothing in this type
   * when its items are objects of an item type `typeName__name` that exists.
   */
  ghost predicate MemberRegistered(s: Schema, unresolved: seq<UnresolvedProperty>, typeName: string, f: Field)
    requires typeName in s.types
  {
    var t := s.types[typeName];
    var name := GetResourcePropertyName(f.name, t.kind);
    || FindProperty(t.properties, name).Some?
    || (UnresolvedProperty(typeName, f.name) in unresolved && ResolveProviderType(f, IsObjectId(f.name)).None?)
    || name == ""
    || (f.value.Array? && !IsObjectId(f.name)
        && (|| FirstElementIndex(ChildTokens(f.value)) == -1
            || (NoScalarItems(ChildTokens(f.value)) && GetQualifiedTypeName(typeName, name) in s.types)))
  }

  /** The first `j` members are registered in `typeName`, when their names are distinct. */
  ghost predicate RegisteredUpTo(s: Schema, unresolved: seq<UnresolvedProperty>, typeName: string, members: seq<Field>, j: nat)
    requires typeName in s.types && j <= |members|
  {
    DistinctFieldNames(members) ==> forall k | 0 <= k < j :: MemberRegistered(s, unresolved, typeName, members[k])
  }

  /** Every member of the document `d` is registered in `typeName`, when their names are distinct. */
  ghost predicate MembersRegistered(s: Schema, unresolved: seq<UnresolvedProperty>, typeName: string, d: Token)
    requires typeName in s.types
  {
    var members := PropertyChildren(d);
    members.Some? && RegisteredUpTo(s, unresolved, typeName, members.value, |members.value|)
  }

  /** A registered member stays registered while the schema grows and its unresolved entry, if any, stays. */
  lemma MemberRegisteredKept(a: Schema, b: Schema, ua: seq<UnresolvedProperty>, ub: seq<UnresolvedProperty>,
                             typeName: string, f: Field)
    requires typeName in a.types && Grows(a, b) && MemberRegistered(a, ua, typeName, f)
    requires UnresolvedProperty(typeName, f.name) in ua ==> UnresolvedProperty(typeName, f.name) in ub
    ensures MemberRegistered(b, ub, typeName, f)
  {
    var name := GetResourcePropertyName(f.name, a.types[typeName].kind);
    var found := FindProperty(a.types[typeName].properties, name);
    if found.Some? {
      assert found.value in b.types[typeName].properties;
    }
  }

  /** The members before `j` stay registered when the j-th is registered. */
  lemma MembersRegisteredKept(a: Schema, b: Schema, ua: seq<UnresolvedProperty>, ub: seq<UnresolvedProperty>,
                              typeName: string, members: seq<Field>, j: nat)
    requires typeName in a.types && Grows(a, b) && j < |members| && RegisteredUpTo(a, ua, typeName, members, j)
    requires forall g | g != members[j].name ::
      UnresolvedProperty(typeName, g) in ua ==> UnresolvedProperty(typeName, g) in ub
    requires MemberRegistered(b, ub, typeName, members[j])
    ensures RegisteredUpTo(b, ub, typeName, members, j + 1)
  {
    if DistinctFieldNames(members) {
      forall k | 0 <= k < j ensures MemberRegistered(b, ub, typeName, members[k]) {
        MemberRegisteredKept(a, b, ua, ub, typeName, members[k]);
      }
    }
  }

  /** The registered members of a document stay registered while the schema grows. */
  lemma MembersRegisteredGrows(a: Schema, b: Schema, unresolved: seq<UnresolvedProperty>, typeName: string, d: Token)
    requires typeName in a.types && Grows(a, b) && MembersRegistered(a, unresolved, typeName, d)
    ensures MembersRegistered(b, unresolved, typeName, d)
  {
    var members := PropertyChildren(d).value;
    if DistinctFieldNames(members) {
      forall k | 0 <= k < |members| ensures MemberRegistered(b, unresolved, typeName, members[k]) {
        MemberRegisteredKept(a, b, unresolved, unresolved, typeName, members[k]);
      }
    }
  }

  /** The member names of a document are distinct (every JObject's are). */
  predicate DistinctMembers(d: Token) {
    PropertyChildren(d).Some? ==> DistinctFieldNames(PropertyChildren(d).value)
  }

  /** The document has an id-named member whose value can be typed (not null, say). */
  predicate HasTypedIdMember(d: Token) {
    PropertyChildren(d).Some?
    && exists f | f in PropertyChildren(d).value :: IsObjectId(f.name) && ResolveProviderType(f, true).Some?
  }

  /** An entity whose registered members include an id that can be typed has an "id" property. */
  lemma TypedIdRegistered(s: Schema, unresolved: seq<UnresolvedProperty>, typeName: string, d: Token)
    requires typeName in s.types && s.types[typeName].kind.EntityType? && MembersRegistered(s, unresolved, typeName, d)
    requires DistinctMembers(d) && HasTypedIdMember(d)
    ensures FindProperty(s.types[typeName].properties, MappedObjectIdName).Some?
  {
    var members := PropertyChildren(d).value;
    var f :| f in members && IsObjectId(f.name) && ResolveProviderType(f, true).Some?;
    var k :| 0 <= k < |members| && members[k] == f;
    assert MemberRegistered(s, unresolved, typeName, members[k]);
  }

  predicate NoObjects(items: seq<Token>) {
    forall i | 0 <= i < |items| :: !items[i].Object?
  }

  /** Every item of the array is null, an array or an object: none is a scalar. */
  predicate NoScalarItems(items: seq<Token>) {
    forall i | 0 <= i < |items| :: items[i].Null? || items[i].Array? || items[i].Object?
  }

  /**
   * What the item loop of RegisterArrayProperty has done after `i` items,
   * from the schema `s0`: nothing while every item read was null or an array;
   * and the property `name` is declared, unless every item read was null, an
   * array, or an object whose item type `itemType` already existed; and
   * objects of a new item type, with no scalar among them, declare the
   * property a collection of that type.
   */
  ghost predicate ArrayWalked(typeName: string, name: string, itemType: string, items: seq<Token>, i: nat, s0: Schema, s: Schema)
    requires i <= |items| && typeName in s.types
  {
    && ((forall k | 0 <= k < i :: items[k].Null? || items[k].Array?) ==> s == s0)
    && (|| FindProperty(s.types[typeName].properties, name).Some?
        || forall k | 0 <= k < i :: items[k].Null? || items[k].Array? || (items[k].Object? && itemType in s0.types))
    && ((forall k | 0 <= k < i :: items[k].Null? || items[k].Array? || items[k].Object?)
        && (exists k | 0 <= k < i :: items[k].Object?) && itemType !in s0.types ==>
          FindProperty(s.types[typeName].properties, name) == Some(ResourceProperty(name, Collection, TypeRef(itemType))))
  }

  /**
   * One item of the walk: a null or array item changes nothing, an object
   * item declares the property when its item type is new, and a scalar item
   * leaves the property declared.
   */
  lemma ArrayWalkedStep(typeName: string, name: string, itemType: string, items: seq<Token>, i: nat,
                        s0: Schema, s: Schema, s1: Schema, ok: bool)
    requires i < |items| && typeName in s0.types && Grows(s0, s) && Grows(s, s1)
    requires ArrayWalked(typeName, name, itemType, items, i, s0, s)
    requires items[i].Null? || items[i].Array? ==> s1 == s
    requires items[i].Object? && ok && itemType !in s.types ==>
      FindProperty(s1.types[typeName].properties, name) == Some(ResourceProperty(name, Collection, TypeRef(itemType)))
    requires !items[i].Null? && !items[i].Array? && !items[i].Object? && ok ==>
      FindProperty(s1.types[typeName].properties, name).Some?
    ensures ok ==> ArrayWalked(typeName, name, itemType, items, i + 1, s0, s1)
  {
    var found := FindProperty(s.types[typeName].properties, name);
    if found.Some? {
      FindPropertyPrefix(s.types[typeName].properties, s1.types[typeName].properties, name);
    }
    if items[i].Object? && itemType !in s0.types && !(exists k | 0 <= k < i :: items[k].Object?)
       && (forall k | 0 <= k < i :: items[k].Null? || items[k].Array? || items[k].Object?) {
      assert s == s0;
    }
    if found.None? && items[i].Object? && itemType in s.types {
      if forall k | 0 <= k < i :: items[k].Null? || items[k].Array? {
        assert s == s0;
      } else {
        var k :| 0 <= k < i && !(items[k].Null? || items[k].Array?);
        assert itemType in s0.types;
      }
    }
  }

  /** After the whole walk, an array with an item that is neither null nor an array declared its property, or holds only objects of an existing item type. */
  lemma ArrayWalkedEnd(typeName: string, name: string, itemType: string, items: seq<Token>, s0: Schema, s: Schema)
    requires typeName in s.types && ArrayWalked(typeName, name, itemType, items, |items|, s0, s)
    requires FirstElementIndex(items) != -1
    ensures FindProperty(s.types[typeName].properties, name).Some? || (NoScalarItems(items) && itemType in s0.types)
  {
    var k := FirstElementIndex(items);
    assert !items[k].Null? && !items[k].Array?;
  }

  lemma UpdateTwice(m: map<string, ResourceType>, k: string, a: ResourceType, b: ResourceType)
    ensures m[k := a][k := b] == m[k := b]
  {
  }

  /** Adding a type under a non-empty name keeps the builder's shape. */
  lemma AddTypeShaped(s: Schema, name: string, kind: TypeKind)
    requires BuilderShaped(s) && AddType(s, name, kind).Some?
    ensures BuilderShaped(AddType(s, name, kind).value)
  {
  }

  /** Adding a property keeps the builder's shape when a key it adds is KeyProperty. */
  lemma AddPropertyShaped(s: Schema, typeName: string, p: ResourceProperty)
    requires BuilderShaped(s) && AddProperty(s, typeName, p).Some? && (p.kind.Key? ==> p == KeyProperty)
    ensures BuilderShaped(AddProperty(s, typeName, p).value)
  {
    var r := AddProperty(s, typeName, p).value;
    forall n, q | n in r.types && q in r.types[n].properties && q.kind.Key? ensures q == KeyProperty {
      if n != typeName {
        assert q in s.types[n].properties;
      } else if q != p {
        assert q in s.types[typeName].properties;
      }
    }
  }

  /**
   * DocumentDbMetadataCache instances, one per connection string (the static
   * MetadataCache dictionary).
   */
  class CacheRegistry {
    var caches: map<string, MetadataCache>

    ghost predicate Valid()
      reads this, caches.Values
    {
      forall k | k in caches :: CacheValid(caches[k])
    }

    constructor ()
      ensures Valid() && caches == map[]
    {
      caches := map[];
    }

    /** GetOrCreateMetadataCache: the cache of that connection string, created empty and registered on first use. */
    method GetOrCreateMetadataCache(connectionString: string) returns (c: MetadataCache)
      requires Valid()
      modifies this
      ensures Valid()
      ensures caches == old(caches)[connectionString := c]
      ensures connectionString in old(caches) ==> c == old(caches)[connectionString]
      ensures connectionString !in old(caches) ==>
        fresh(c) && c.schema == EmptySchema && c.providerTypes == [] && c.generatedTypes == map[]
      ensures CacheValid(c)
    {
      if connectionString in caches {
        c := caches[connectionString];
      } else {
        c := new MetadataCache();
        caches := caches[connectionString := c];
      }
    }

    /** ResetDSPMetadata: forgets every cache. */
    method ResetDSPMetadata()
      modifies this
      ensures Valid() && caches == map[]
    {
      caches := map[];
    }
  }

  class DocumentDbMetadata {
    const connectionString: string
    const configuration: MetadataConfiguration
    const cache: MetadataCache
    /** The properties seen so far only with values of unknown type, as (type, raw property name). */
    var unresolved: seq<UnresolvedProperty>
    /** The documents this instance's schema pass has read. */
    ghost var sampled: seq<SampledDocument>

    ghost predicate Valid()
      reads this, cache
    {
      CacheValid(cache) && NoDuplicates(unresolved)
      && (forall u | u in unresolved :: u.typeName in cache.schema.types)
    }

    /** The constructor up to the schema pass: the configuration and the shared cache of the connection string. */
    constructor (connectionString: string, configuration: MetadataConfiguration, registry: CacheRegistry)
      requires registry.Valid()
      modifies registry
      ensures Valid() && registry.Valid()
      ensures this.connectionString == connectionString && this.configuration == configuration
      ensures unresolved == [] && sampled == []
      ensures registry.caches == old(registry.caches)[connectionString := cache]
      ensures connectionString in old(registry.caches) ==> cache == old(registry.caches)[connectionString]
      ensures connectionString !in old(registry.caches) ==> fresh(cache) && cache.schema == EmptySchema
    {
      this.connectionString := connectionString;
      this.configuration := configuration;
      var c := registry.GetOrCreateMetadataCache(connectionString);
      this.cache := c;
      unresolved := [];
      sampled := [];
    }

    /** A store call that adds a type, applied to the cache. */
    method StoreType(name: string, kind: TypeKind) returns (ok: bool)
      requires Valid()
      modifies cache
      ensures Valid() && Grows(old(cache.schema), cache.schema)
      ensures cache.providerTypes == old(cache.providerTypes) && cache.schema.sets == old(cache.schema.sets)
      ensures ok <==> AddType(old(cache.schema), name, kind).Some?
      ensures cache.schema == if ok then AddType(old(cache.schema), name, kind).value else old(cache.schema)
    {
      var r := AddType(cache.schema, name, kind);
      ok := r.Some?;
      if ok {
        AddTypeShaped(cache.schema, name, kind);
        cache.schema := r.value;
      }
    }

    /** A store call that adds a property, applied to the cache. */
    method StoreProperty(typeName: string, p: ResourceProperty) returns (ok: bool)
      requires Valid() && (p.kind.Key? ==> p == KeyProperty)
      modifies cache
      ensures Valid() && Grows(old(cache.schema), cache.schema)
      ensures cache.providerTypes == old(cache.providerTypes) && cache.schema.sets == old(cache.schema.sets)
      ensures ok <==> AddProperty(old(cache.schema), typeName, p).Some?
      ensures cache.schema == if ok then AddProperty(old(cache.schema), typeName, p).value else old(cache.schema)
      ensures ok ==> FindProperty(cache.schema.types[typeName].properties, p.name) == Some(p)
    {
      var r := AddProperty(cache.schema, typeName, p);
      ok := r.Some?;
      if ok {
        AddPropertyShaped(cache.schema, typeName, p);
        FindPropertyAppend(cache.schema.types[typeName].properties, p);
        cache.schema := r.value;
      }
    }

    /** A store call that adds the set of an entity type, named after it, applied to the cache. */
    method StoreResourceSet(name: string) returns (ok: bool)
      requires Valid()
      modifies cache
      ensures Valid() && Grows(old(cache.schema), cache.schema)
      ensures cache.providerTypes == old(cache.providerTypes) && cache.schema.types == old(cache.schema.types)
      ensures ok <==> MetadataStore.AddResourceSet(old(cache.schema), name, name).Some?
      ensures cache.schema.sets == if ok then old(cache.schema.sets)[name := name] else old(cache.schema.sets)
    {
      var r := MetadataStore.AddResourceSet(cache.schema, name, name);
      ok := r.Some?;
      if ok {
        cache.schema := r.value;
      }
    }

    /**
     * AddProviderType: records the field's provider type under
     * `collectionName.elementName`, unless its type is unknown or the key is
     * already there (the first type recorded for a key stays).
     */
    method AddProviderType(collectionName: string, elementName: string, f: Field, isKey: bool)
      requires Valid()
      modifies cache
      ensures Valid() && cache.schema == old(cache.schema)
      ensures var key := GetQualifiedPropertyName(collectionName, elementName);
        var t := ResolveProviderType(f, isKey);
        cache.providerTypes == if t.Some? && !HasKey(old(cache.providerTypes), key)
          then old(cache.providerTypes) + [ProviderEntry(key, t.value)] else old(cache.providerTypes)
      ensures var key := GetQualifiedPropertyName(collectionName, elementName);
        ResolveProviderType(f, isKey).Some? ==> HasKey(cache.providerTypes, key)
      ensures forall k | HasKey(old(cache.providerTypes), k) :: Lookup(cache.providerTypes, k) == Lookup(old(cache.providerTypes), k)
    {
      var providerType := ResolveProviderType(f, isKey);
      var qualifiedName := GetQualifiedPropertyName(collectionName, elementName);
      if providerType.Some? && !HasKey(cache.providerTypes, qualifiedName) {
        StoreProviderEntry(ProviderEntry(qualifiedName, providerType.value));
      }
    }

    /**
     * AddDocumentType: a new type of that kind whose properties come from the
     * document's members. Without an id-named member an entity type gets the
     * "id" key, and "name.id" is recorded as a string. An entity type gets a
     * set of its own name.
     */
    method AddDocumentType(name: string, document: Option<Token>, kind: TypeKind) returns (ok: bool)
      requires Valid()
      modifies this`unresolved, cache
      ensures Valid() && Grows(old(cache.schema), cache.schema) && old(cache.providerTypes) <= cache.providerTypes
      ensures cache.schema.sets == if ok && kind.EntityType? then old(cache.schema.sets)[name := name] else old(cache.schema.sets)
      ensures ok ==> name != "" && name !in old(cache.schema.types) && name in cache.schema.types
      ensures ok ==> cache.schema.types[name].kind == kind
      ensures ok && !HasIdMember(document) && kind.EntityType? ==> KeyProperty in cache.schema.types[name].properties
      ensures ok && !HasIdMember(document) ==>
        HasKey(cache.providerTypes, GetQualifiedPropertyName(name, ProviderObjectIdName))
      ensures ok && document.None? ==>
        cache.schema.types == old(cache.schema.types)[name := ResourceType(name, kind, if kind.EntityType? then [KeyProperty] else [])]
      ensures document.None? ==> unresolved == old(unresolved)
      ensures ok && document.Some? ==> MembersRegistered(cache.schema, unresolved, name, document.value)
      ensures ok && kind.EntityType? && document.Some? && DistinctMembers(document.value) && HasTypedIdMember(document.value)
        ==> FindProperty(cache.schema.types[name].properties, MappedObjectIdName).Some?
      ensures Below(unresolved, |name|) == Below(old(unresolved), |name|)
      decreases if document.Some? then Depth(document.value) else 0, 2
    {
      ok := StoreType(name, kind);
      if !ok {
        return;
      }
      ghost var stored := cache.schema;
      var hasObjectId := false;
      if document.Some? {
        ok, hasObjectId := RegisterMembers(name, document.value);
        GrowsTransitive(old(cache.schema), stored, cache.schema);
        if !ok {
          return;
        }
      }
      ghost var registered := cache.schema;
      ghost var created := cache.schema.types;
      ok := CompleteDocumentType(name, kind, hasObjectId);
      GrowsTransitive(old(cache.schema), registered, cache.schema);
      if ok && document.Some? {
        MembersRegisteredGrows(registered, cache.schema, unresolved, name, document.value);
        if kind.EntityType? && DistinctMembers(document.value) && HasTypedIdMember(document.value) {
          TypedIdRegistered(cache.schema, unresolved, name, document.value);
        }
      }
      if ok && document.None? {
        assert created == old(cache.schema.types)[name := ResourceType(name, kind, [])];
        UpdateTwice(old(cache.schema.types), name, ResourceType(name, kind, []),
          ResourceType(name, kind, if kind.EntityType? then [KeyProperty] else []));
      }
    }

    /**
     * The loop of AddDocumentType over the members of the document; tells
     * whether one is id-named.
     */
    method RegisterMembers(name: string, document: Token) returns (ok: bool, hasObjectId: bool)
      requires Valid() && name in cache.schema.types
      modifies this`unresolved, cache
      ensures Valid() && Grows(old(cache.schema), cache.schema) && old(cache.providerTypes) <= cache.providerTypes
      ensures cache.schema.sets == old(cache.schema.sets)
      ensures Below(unresolved, |name|) == Below(old(unresolved), |name|)
      ensures PropertyChildren(document).None? ==> !ok
      ensures ok ==> (hasObjectId <==> HasIdMember(Some(document)))
      ensures ok ==> MembersRegistered(cache.schema, unresolved, name, document)
      decreases Depth(document), 1
    {
      var children := PropertyChildren(document);
      if children.None? {
        return false, false;
      }
      ok, hasObjectId := RegisterMemberList(name, children.value, Depth(document));
      HasIdMemberAt(document, children.value);
    }

    /** Registers each member in turn, and tells whether one is id-named. */
    method RegisterMemberList(name: string, members: seq<Field>, ghost depth: nat) returns (ok: bool, hasObjectId: bool)
      requires Valid() && name in cache.schema.types
      requires forall f | f in members :: Depth(f.value) < depth
      modifies this`unresolved, cache
      ensures Valid() && Grows(old(cache.schema), cache.schema) && old(cache.providerTypes) <= cache.providerTypes
      ensures cache.schema.sets == old(cache.schema.sets)
      ensures Below(unresolved, |name|) == Below(old(unresolved), |name|)
      ensures ok ==> hasObjectId == IdNamedBefore(members, |members|)
      ensures ok ==> RegisteredUpTo(cache.schema, unresolved, name, members, |members|)
      decreases depth, 0, 1
    {
      hasObjectId := false;
      var j := 0;
      while j < |members|
        invariant 0 <= j <= |members|
        invariant Valid() && Grows(old(cache.schema), cache.schema) && old(cache.providerTypes) <= cache.providerTypes
        invariant cache.schema.sets == old(cache.schema.sets)
        invariant name in cache.schema.types
        invariant Below(unresolved, |name|) == Below(old(unresolved), |name|)
        invariant hasObjectId == IdNamedBefore(members, j)
        invariant RegisteredUpTo(cache.schema, unresolved, name, members, j)
      {
        ghost var before := cache.schema;
        ok, hasObjectId := RegisterMemberAt(name, members, j, hasObjectId, depth);
        GrowsTransitive(old(cache.schema), before, cache.schema);
        if !ok {
          return;
        }
        j := j + 1;
      }
      ok := true;
    }

    /**
     * The j-th step of RegisterMemberList: the j-th member joins those
     * registered, and hasObjectId notes whether it is id-named.
     */
    method RegisterMemberAt(name: string, members: seq<Field>, j: nat, hasObjectId: bool, ghost depth: nat)
      returns (ok: bool, hasObjectIdAfter: bool)
      requires Valid() && name in cache.schema.types && j < |members| && hasObjectId == IdNamedBefore(members, j)
      requires forall f | f in members :: Depth(f.value) < depth
      requires RegisteredUpTo(cache.schema, unresolved, name, members, j)
      modifies this`unresolved, cache
      ensures Valid() && Grows(old(cache.schema), cache.schema) && old(cache.providerTypes) <= cache.providerTypes
      ensures cache.schema.sets == old(cache.schema.sets) && name in cache.schema.types
      ensures Below(unresolved, |name|) == Below(old(unresolved), |name|)
      ensures ok ==> RegisteredUpTo(cache.schema, unresolved, name, members, j + 1)
      ensures ok ==> hasObjectIdAfter == IdNamedBefore(members, j + 1)
      decreases depth, 0, 0
    {
      assert members[j] in members;
      ok := RegisterMember(name, members[j]);
      hasObjectIdAfter := hasObjectId || IsObjectId(members[j].name);
      if ok {
        MembersRegisteredKept(old(cache.schema), cache.schema, old(unresolved), unresolved, name, members, j);
      }
    }

    /** The body of the member loop of AddDocumentType. */
    method RegisterMember(name: string, f: Field) returns (ok: bool)
      requires Valid() && name in cache.schema.types
      modifies this`unresolved, cache
      ensures Valid() && Grows(old(cache.schema), cache.schema) && old(cache.providerTypes) <= cache.providerTypes
      ensures cache.schema.sets == old(cache.schema.sets)
      ensures Below(unresolved, |name|) == Below(old(unresolved), |name|)
      ensures ResolveResourceProperty(old(cache.schema.types[name]), f.name).Some? ==>
        cache.schema == old(cache.schema) && cache.providerTypes == old(cache.providerTypes) && unresolved == old(unresolved)
      ensures ResolveResourceProperty(old(cache.schema.types[name]), f.name).None? ==>
        (UnresolvedProperty(name, f.name) in unresolved <==> ResolveProviderType(f, IsObjectId(f.name)).None?)
      ensures ok ==> MemberRegistered(cache.schema, unresolved, name, f)
      ensures forall g | g != f.name ::
        UnresolvedProperty(name, g) in unresolved <==> UnresolvedProperty(name, g) in old(unresolved)
      decreases Depth(f.value), 8
    {
      ok := RegisterResourceProperty(name, f);
    }

    /**
     * The end of AddDocumentType: without an id-named member, the "id" key
     * (entity types only) and the "name.id" provider type; then the set of an
     * entity type.
     */
    method CompleteDocumentType(name: string, kind: TypeKind, hasObjectId: bool) returns (ok: bool)
      requires Valid() && name in cache.schema.types && cache.schema.types[name].kind == kind
      modifies cache
      ensures Valid() && Grows(old(cache.schema), cache.schema) && old(cache.providerTypes) <= cache.providerTypes
      ensures cache.schema.sets == if ok && kind.EntityType? then old(cache.schema.sets)[name := name] else old(cache.schema.sets)
      ensures ok ==> cache.schema.types == if !hasObjectId && kind.EntityType?
        then old(cache.schema.types)[name := old(cache.schema.types)[name].(properties := old(cache.schema.types)[name].properties + [KeyProperty])]
        else old(cache.schema.types)
      ensures ok && !hasObjectId ==> HasKey(cache.providerTypes, GetQualifiedPropertyName(name, ProviderObjectIdName))
      ensures ok && !hasObjectId && old(cache.schema.types[name]) == ResourceType(name, kind, []) ==>
        cache.schema.types == old(cache.schema.types)[name := ResourceType(name, kind, if kind.EntityType? then [KeyProperty] else [])]
    {
      if !hasObjectId {
        assert [] + [KeyProperty] == [KeyProperty];
        if kind.EntityType? {
          ok := StoreProperty(name, KeyProperty);
          if !ok {
            return;
          }
        }
        AddProviderType(name, ProviderObjectIdName, Field(ProviderObjectIdName, String), true);
      }
      if kind.EntityType? {
        ok := StoreResourceSet(name);
      } else {
        ok := true;
      }
    }

    /**
     * RegisterResourceProperty: a member not yet declared in the type is
     * tracked as unresolved while its type is unknown (and no longer once it
     * is), and declared as soon as its type is known.
     */
    method RegisterResourceProperty(typeName: string, f: Field) returns (ok: bool)
      requires Valid() && typeName in cache.schema.types
      modifies this`unresolved, cache
      ensures Valid() && Grows(old(cache.schema), cache.schema) && old(cache.providerTypes) <= cache.providerTypes
      ensures cache.schema.sets == old(cache.schema.sets)
      ensures var t := old(cache.schema.types[typeName]);
        ResolveResourceProperty(t, f.name).Some? ==>
          cache.schema == old(cache.schema) && cache.providerTypes == old(cache.providerTypes) && unresolved == old(unresolved)
      ensures var t := old(cache.schema.types[typeName]);
        ResolveResourceProperty(t, f.name).None? ==>
          Below(unresolved, |typeName| + 1)
          == Track(Below(old(unresolved), |typeName| + 1), UnresolvedProperty(typeName, f.name),
                   ResolveProviderType(f, IsObjectId(f.name)).Some?)
      ensures var t := old(cache.schema.types[typeName]);
        ResolveResourceProperty(t, f.name).None? ==>
          (UnresolvedProperty(typeName, f.name) in unresolved <==> ResolveProviderType(f, IsObjectId(f.name)).None?)
      ensures var t := old(cache.schema.types[typeName]);
        var name := GetResourcePropertyName(f.name, t.kind);
        ResolveResourceProperty(t, f.name).None? && ResolveProviderType(f, IsObjectId(f.name)).Some?
        && ok && name != "" && (!f.value.Array? || IsObjectId(f.name)) ==>
          FindProperty(cache.schema.types[typeName].properties, name).Some?
      ensures var t := old(cache.schema.types[typeName]);
        var name := GetResourcePropertyName(f.name, t.kind);
        var items := ChildTokens(f.value);
        ResolveResourceProperty(t, f.name).None? && ok && name != "" && f.value.Array? && !IsObjectId(f.name)
        && FirstElementIndex(items) != -1 ==>
          || FindProperty(cache.schema.types[typeName].properties, name).Some?
          || (NoScalarItems(items) && GetQualifiedTypeName(typeName, name) in old(cache.schema.types))
      ensures ok ==> MemberRegistered(cache.schema, unresolved, typeName, f)
      ensures forall g | g != f.name ::
        UnresolvedProperty(typeName, g) in unresolved <==> UnresolvedProperty(typeName, g) in old(unresolved)
      ensures Below(unresolved, |typeName|) == Below(old(unresolved), |typeName|)
      decreases Depth(f.value), 7
    {
      var t := cache.schema.types[typeName];
      var existing := ResolveResourceProperty(t, f.name);
      ok := true;
      if existing.None? {
        var e := UnresolvedProperty(typeName, f.name);
        var resolvedNow := ResolveProviderType(f, IsObjectId(f.name)).Some?;
        TrackMembers(unresolved, e, resolvedNow);
        TrackUnresolved(typeName, f.name, resolvedNow);
        if resolvedNow {
          ghost var tracked := unresolved;
          ok := AddResourceProperty(typeName, f);
          BelowSameMember(tracked, unresolved, |typeName| + 1, e);
          forall g | g != f.name
            ensures UnresolvedProperty(typeName, g) in unresolved <==> UnresolvedProperty(typeName, g) in tracked
          {
            BelowSameMember(tracked, unresolved, |typeName| + 1, UnresolvedProperty(typeName, g));
          }
          BelowBelow(tracked, |typeName| + 1, |typeName|);
          BelowBelow(unresolved, |typeName| + 1, |typeName|);
        }
      }
    }

    /**
     * The unresolvedProperties update of RegisterResourceProperty: the entry
     * is added when it is new and still unresolved, and removed when it was
     * there and is now resolved.
     */
    method TrackUnresolved(typeName: string, propertyName: string, resolvedNow: bool)
      requires Valid() && typeName in cache.schema.types
      modifies this`unresolved
      ensures Valid()
      ensures unresolved == Track(old(unresolved), UnresolvedProperty(typeName, propertyName), resolvedNow)
      ensures UnresolvedProperty(typeName, propertyName) in unresolved <==> !resolvedNow
      ensures Below(unresolved, |typeName| + 1)
        == Track(Below(old(unresolved), |typeName| + 1), UnresolvedProperty(typeName, propertyName), resolvedNow)
      ensures Below(unresolved, |typeName|) == Below(old(unresolved), |typeName|)
    {
      var e := UnresolvedProperty(typeName, propertyName);
      TrackMembers(unresolved, e, resolvedNow);
      BelowTrack(unresolved, e, resolvedNow, |typeName| + 1);
      BelowTrackOut(unresolved, e, resolvedNow, |typeName|);
      unresolved := Track(unresolved, e, resolvedNow);
    }

    /**
     * AddResourceProperty: declares the member in the type (a key for an
     * entity type's id-named member) and records its provider type. An empty
     * name is skipped; an id-named member of a complex type whose value has no
     * CLR type makes GetRawValueType throw.
     */
    method AddResourceProperty(typeName: string, f: Field) returns (ok: bool)
      requires Valid() && typeName in cache.schema.types
      modifies this`unresolved, cache
      ensures Valid() && Grows(old(cache.schema), cache.schema) && old(cache.providerTypes) <= cache.providerTypes
      ensures cache.schema.sets == old(cache.schema.sets)
      ensures Below(unresolved, |typeName| + 1) == Below(old(unresolved), |typeName| + 1)
      ensures var t := old(cache.schema.types[typeName]);
        GetResourcePropertyName(f.name, t.kind) == "" ==>
          ok && cache.schema == old(cache.schema) && cache.providerTypes == old(cache.providerTypes) && unresolved == old(unresolved)
      ensures var t := old(cache.schema.types[typeName]);
        IsObjectId(f.name) && t.kind.ComplexType? && !IsMappedScalar(f.value) ==> !ok
      ensures var t := old(cache.schema.types[typeName]);
        var name := GetResourcePropertyName(f.name, t.kind);
        ok && name != "" && (!f.value.Array? || IsObjectId(f.name)) ==>
          FindProperty(cache.schema.types[typeName].properties, name).Some?
      ensures var t := old(cache.schema.types[typeName]);
        var name := GetResourcePropertyName(f.name, t.kind);
        var items := ChildTokens(f.value);
        ok && name != "" && f.value.Array? && !IsObjectId(f.name) && FirstElementIndex(items) != -1 ==>
          || FindProperty(cache.schema.types[typeName].properties, name).Some?
          || (NoScalarItems(items) && GetQualifiedTypeName(typeName, name) in old(cache.schema.types))
      ensures var t := old(cache.schema.types[typeName]);
        ok && IsObjectId(f.name) && t.kind.EntityType? ==>
          FindProperty(cache.schema.types[typeName].properties, MappedObjectIdName) == Some(KeyProperty)
      ensures var t := old(cache.schema.types[typeName]);
        var name := GetResourcePropertyName(f.name, t.kind);
        ok && name != "" && !(IsObjectId(f.name) && t.kind.EntityType?) && IsMappedScalar(f.value) ==>
          FindProperty(cache.schema.types[typeName].properties, name)
          == Some(ResourceProperty(name, Primitive, PrimitiveOf(GetRawValueType(f.value, false).value)))
      ensures var t := old(cache.schema.types[typeName]);
        var name := GetResourcePropertyName(f.name, t.kind);
        ok && name != "" && !IsObjectId(f.name) && f.value.Object? ==>
          FindProperty(cache.schema.types[typeName].properties, name)
          == Some(ResourceProperty(name, ComplexTypeProperty, TypeRef(GetQualifiedTypeName(typeName, name))))
      ensures var t := old(cache.schema.types[typeName]);
        var name := GetResourcePropertyName(f.name, t.kind);
        ok && name != "" && ResolveProviderType(f, false).Some? ==>
          HasKey(cache.providerTypes, GetQualifiedPropertyName(typeName, if IsObjectId(f.name) then ProviderObjectIdName else name))
      decreases Depth(f.value), 6
    {
      var t := cache.schema.types[typeName];
      var propertyName := GetResourcePropertyName(f.name, t.kind);
      if propertyName == "" {
        return true;
      }
      var isKey := DeclareProperty(typeName, f, propertyName);
      ok := isKey.Some?;
      if !ok {
        return;
      }
      AddProviderType(typeName, if IsObjectId(f.name) then ProviderObjectIdName else propertyName, f, isKey.value);
    }

    /**
     * The branch of AddResourceProperty that declares the member: a key or a
     * primitive for an id-named member, a complex property for an object, the
     * array walk for an array, a primitive otherwise. Some(isKey) on success.
     */
    method DeclareProperty(typeName: string, f: Field, propertyName: string) returns (isKey: Option<bool>)
      requires Valid() && typeName in cache.schema.types
      requires propertyName == GetResourcePropertyName(f.name, cache.schema.types[typeName].kind) && propertyName != ""
      modifies this`unresolved, cache
      ensures Valid() && Grows(old(cache.schema), cache.schema) && old(cache.providerTypes) <= cache.providerTypes
      ensures cache.schema.sets == old(cache.schema.sets)
      ensures Below(unresolved, |typeName| + 1) == Below(old(unresolved), |typeName| + 1)
      ensures isKey.Some? ==> (isKey.value <==> IsObjectId(f.name))
      ensures var t := old(cache.schema.types[typeName]);
        IsObjectId(f.name) && t.kind.ComplexType? && !IsMappedScalar(f.value) ==> isKey.None?
      ensures isKey.Some? && (!f.value.Array? || IsObjectId(f.name)) ==>
        FindProperty(cache.schema.types[typeName].properties, propertyName).Some?
      ensures var items := ChildTokens(f.value);
        isKey.Some? && f.value.Array? && !IsObjectId(f.name) && FirstElementIndex(items) != -1 ==>
          || FindProperty(cache.schema.types[typeName].properties, propertyName).Some?
          || (NoScalarItems(items) && GetQualifiedTypeName(typeName, propertyName) in old(cache.schema.types))
      ensures var t := old(cache.schema.types[typeName]);
        isKey.Some? && IsObjectId(f.name) && t.kind.EntityType? ==>
          FindProperty(cache.schema.types[typeName].properties, propertyName) == Some(KeyProperty)
      ensures var t := old(cache.schema.types[typeName]);
        isKey.Some? && !(IsObjectId(f.name) && t.kind.EntityType?) && IsMappedScalar(f.value) ==>
          FindProperty(cache.schema.types[typeName].properties, propertyName)
          == Some(ResourceProperty(propertyName, Primitive, PrimitiveOf(GetRawValueType(f.value, false).value)))
      ensures isKey.Some? && !IsObjectId(f.name) && f.value.Object? ==>
        FindProperty(cache.schema.types[typeName].properties, propertyName)
        == Some(ResourceProperty(propertyName, ComplexTypeProperty, TypeRef(GetQualifiedTypeName(typeName, propertyName))))
      decreases Depth(f.value), 5
    {
      var t := cache.schema.types[typeName];
      var treatObjectIdAsKey := t.kind.EntityType?;
      var elementType := GetElementType(f, treatObjectIdAsKey);
      var ok: bool;
      if IsObjectId(f.name) {
        ok := DeclareIdProperty(typeName, propertyName, elementType, treatObjectIdAsKey);
      } else if elementType == Some(JObjectType) {
        ok := AddDocumentProperty(typeName, propertyName, f, false);
        BelowBelow(unresolved, |typeName| + 2, |typeName| + 1);
        BelowBelow(old(unresolved), |typeName| + 2, |typeName| + 1);
      } else if elementType == Some(JArrayType) {
        ok := RegisterArrayProperty(typeName, f);
        BelowBelow(unresolved, |typeName| + 2, |typeName| + 1);
        BelowBelow(old(unresolved), |typeName| + 2, |typeName| + 1);
      } else {
        ok := StoreProperty(typeName, ResourceProperty(propertyName, Primitive, PrimitiveOf(elementType.value)));
      }
      isKey := if ok then Some(IsObjectId(f.name)) else None;
    }

    /**
     * The id-named branch of DeclareProperty: the key of an entity type, a
     * primitive property of a complex type; an element type that could not be
     * found is the exception GetRawValueType raises.
     */
    method DeclareIdProperty(typeName: string, propertyName: string, elementType: Option<ClrType>, treatObjectIdAsKey: bool)
      returns (ok: bool)
      requires Valid() && typeName in cache.schema.types && propertyName != ""
      requires treatObjectIdAsKey ==> propertyName == MappedObjectIdName && elementType == Some(MappedObjectIdType)
      modifies cache
      ensures Valid() && Grows(old(cache.schema), cache.schema)
      ensures cache.providerTypes == old(cache.providerTypes) && cache.schema.sets == old(cache.schema.sets)
      ensures elementType.None? ==> !ok
      ensures ok ==>
        FindProperty(cache.schema.types[typeName].properties, propertyName)
        == Some(ResourceProperty(propertyName, if treatObjectIdAsKey then Key else Primitive, PrimitiveOf(elementType.value)))
    {
      if elementType.None? {
        return false;
      }
      if treatObjectIdAsKey {
        ok := StoreProperty(typeName, ResourceProperty(propertyName, Key, PrimitiveOf(elementType.value)));
      } else {
        ok := StoreProperty(typeName, ResourceProperty(propertyName, Primitive, PrimitiveOf(elementType.value)));
      }
    }

    /** AddDocumentType for the complex type of a member holding a document. */
    method AddComplexType(name: string, value: Token) returns (ok: bool)
      requires Valid()
      modifies this`unresolved, cache
      ensures Valid() && Grows(old(cache.schema), cache.schema) && old(cache.providerTypes) <= cache.providerTypes
      ensures cache.schema.sets == old(cache.schema.sets)
      ensures ok ==> name !in old(cache.schema.types) && IsComplex(cache.schema.types, name)
      ensures ok ==> MembersRegistered(cache.schema, unresolved, name, value)
      ensures Below(unresolved, |name|) == Below(old(unresolved), |name|)
      decreases Depth(value), 3, 0
    {
      ok := AddDocumentType(name, Some(value), ComplexType);
    }

    /**
     * AddDocumentProperty: a complex property (or, for isCollection, a
     * collection of a complex type) whose type is the new complex type
     * `collectionName__propertyName` built from the member's value. When
     * `collectionName` names a set, its entity type is used instead, which the
     * store rejects as the type of a complex property.
     */
    method AddDocumentProperty(collectionName: string, propertyName: string, f: Field, isCollection: bool) returns (ok: bool)
      requires Valid() && collectionName in cache.schema.types
      modifies this`unresolved, cache
      ensures Valid() && Grows(old(cache.schema), cache.schema) && old(cache.providerTypes) <= cache.providerTypes
      ensures cache.schema.sets == old(cache.schema.sets)
      ensures Below(unresolved, |collectionName| + 2) == Below(old(unresolved), |collectionName| + 2)
      ensures collectionName in old(cache.schema.sets) ==> !ok
      ensures var q := GetQualifiedTypeName(collectionName, propertyName);
        ok ==> q !in old(cache.schema.types) && IsComplex(cache.schema.types, q)
      ensures ok ==> FindProperty(old(cache.schema.types[collectionName].properties), propertyName).None?
      ensures var q := GetQualifiedTypeName(collectionName, propertyName);
        ok ==>
          FindProperty(cache.schema.types[collectionName].properties, propertyName)
          == Some(ResourceProperty(propertyName, if isCollection then Collection else ComplexTypeProperty, TypeRef(q)))
      decreases Depth(f.value), 4
    {
      var resourceType: string;
      ok, resourceType := DocumentPropertyType(collectionName, propertyName, f);
      if !ok {
        return;
      }
      var props := cache.schema.types[collectionName].properties;
      if FindProperty(old(cache.schema.types[collectionName].properties), propertyName).Some? {
        FindPropertyPrefix(old(cache.schema.types[collectionName].properties), props, propertyName);
      }
      ghost var typed := cache.schema;
      ok := StoreDocumentProperty(collectionName, propertyName, resourceType, isCollection);
      GrowsTransitive(old(cache.schema), typed, cache.schema);
    }

    /**
     * The type of a document property: the entity type of the set named
     * `collectionName` when there is one, else the new complex type
     * `collectionName__propertyName`.
     */
    method DocumentPropertyType(collectionName: string, propertyName: string, f: Field) returns (ok: bool, resourceType: string)
      requires Valid() && collectionName in cache.schema.types
      modifies this`unresolved, cache
      ensures Valid() && Grows(old(cache.schema), cache.schema) && old(cache.providerTypes) <= cache.providerTypes
      ensures cache.schema.sets == old(cache.schema.sets)
      ensures Below(unresolved, |collectionName| + 2) == Below(old(unresolved), |collectionName| + 2)
      ensures collectionName in old(cache.schema.sets) ==>
        ok && resourceType == old(cache.schema.sets)[collectionName] && cache.schema == old(cache.schema)
      ensures collectionName !in old(cache.schema.sets) ==>
        resourceType == GetQualifiedTypeName(collectionName, propertyName)
        && (ok ==> resourceType !in old(cache.schema.types) && IsComplex(cache.schema.types, resourceType))
      decreases Depth(f.value), 3, 1
    {
      var resourceSet := ResolveResourceSet(cache.schema, collectionName);
      if resourceSet.Some? {
        return true, resourceSet.value;
      }
      resourceType := GetQualifiedTypeName(collectionName, propertyName);
      ok := AddComplexType(resourceType, f.value);
      BelowBelow(unresolved, |resourceType|, |collectionName| + 2);
      BelowBelow(old(unresolved), |resourceType|, |collectionName| + 2);
    }

    /**
     * The store call that ends AddDocumentProperty: a collection of the type
     * when asked for and the name is free, a complex property otherwise.
     */
    method StoreDocumentProperty(collectionName: string, propertyName: string, resourceType: string, isCollection: bool)
      returns (ok: bool)
      requires Valid() && collectionName in cache.schema.types
      modifies cache
      ensures Valid() && Grows(old(cache.schema), cache.schema)
      ensures cache.providerTypes == old(cache.providerTypes) && cache.schema.sets == old(cache.schema.sets)
      ensures ok ==> FindProperty(old(cache.schema.types[collectionName].properties), propertyName).None?
      ensures ok ==> IsComplex(old(cache.schema.types), resourceType)
      ensures ok ==>
        FindProperty(cache.schema.types[collectionName].properties, propertyName)
        == Some(ResourceProperty(propertyName, if isCollection then Collection else ComplexTypeProperty, TypeRef(resourceType)))
    {
      var props := cache.schema.types[collectionName].properties;
      if isCollection && FindProperty(props, propertyName).None? {
        ok := StoreProperty(collectionName, ResourceProperty(propertyName, Collection, TypeRef(resourceType)));
      } else {
        ok := StoreProperty(collectionName, ResourceProperty(propertyName, ComplexTypeProperty, TypeRef(resourceType)));
      }
    }

    /**
     * RegisterArrayProperty: object items extend the item complex type; the
     * first item that is neither null nor an array, while the property is
     * still undeclared, declares it as a collection of that item's type.
     */
    method RegisterArrayProperty(typeName: string, f: Field) returns (ok: bool)
      requires Valid() && typeName in cache.schema.types
      modifies this`unresolved, cache
      ensures Valid() && Grows(old(cache.schema), cache.schema) && old(cache.providerTypes) <= cache.providerTypes
      ensures cache.schema.sets == old(cache.schema.sets)
      ensures Below(unresolved, |typeName| + 2) == Below(old(unresolved), |typeName| + 2)
      ensures var items := ChildTokens(f.value);
        NoObjects(items) ==> cache.providerTypes == old(cache.providerTypes) && unresolved == old(unresolved)
      ensures var items := ChildTokens(f.value);
        var name := GetResourcePropertyName(f.name, EntityType);
        NoObjects(items) && (FirstElementIndex(items) == -1 || FindProperty(old(cache.schema.types[typeName].properties), name).Some?) ==>
          ok && cache.schema == old(cache.schema)
      ensures var items := ChildTokens(f.value);
        var name := GetResourcePropertyName(f.name, EntityType);
        var k := FirstElementIndex(items);
        NoObjects(items) && k >= 0 && FindProperty(old(cache.schema.types[typeName].properties), name).None? ==>
          (ok <==> AddPrimitiveCollectionProperty(old(cache.schema), typeName, name, MapToDotNetType(items[k])).Some?)
          && (ok ==> FindProperty(cache.schema.types[typeName].properties, name)
                     == Some(ResourceProperty(name, Collection, PrimitiveOf(Plain(MapToDotNetType(items[k]).value)))))
      ensures var items := ChildTokens(f.value);
        var name := GetResourcePropertyName(f.name, EntityType);
        ok && FirstElementIndex(items) != -1 ==>
          || FindProperty(cache.schema.types[typeName].properties, name).Some?
          || (NoScalarItems(items) && GetQualifiedTypeName(typeName, name) in old(cache.schema.types))
      ensures var items := ChildTokens(f.value);
        var name := GetResourcePropertyName(f.name, EntityType);
        var q := GetQualifiedTypeName(typeName, name);
        ok && NoScalarItems(items) && (exists k | 0 <= k < |items| :: items[k].Object?) && q !in old(cache.schema.types) ==>
          FindProperty(cache.schema.types[typeName].properties, name) == Some(ResourceProperty(name, Collection, TypeRef(q)))
      decreases Depth(f.value), 4
    {
      var propertyName := GetResourcePropertyName(f.name, EntityType);
      var items := ChildTokens(f.value);
      ghost var itemType := GetQualifiedTypeName(typeName, propertyName);
      ghost var noObjects := NoObjects(items);
      var i := 0;
      while i < |items|
        invariant 0 <= i <= |items|
        invariant Valid() && Grows(old(cache.schema), cache.schema) && old(cache.providerTypes) <= cache.providerTypes
        invariant cache.schema.sets == old(cache.schema.sets)
        invariant Below(unresolved, |typeName| + 2) == Below(old(unresolved), |typeName| + 2)
        invariant noObjects ==> cache.providerTypes == old(cache.providerTypes) && unresolved == old(unresolved)
        invariant noObjects ==> ArrayScanned(typeName, propertyName, items, i, old(cache.schema), cache.schema)
        invariant typeName in cache.schema.types
        invariant ArrayWalked(typeName, propertyName, itemType, items, i, old(cache.schema), cache.schema)
      {
        ghost var before := cache.schema;
        ok := RegisterArrayItem(typeName, f, propertyName, items, i, old(cache.schema), noObjects);
        GrowsTransitive(old(cache.schema), before, cache.schema);
        if !ok {
          return;
        }
        i := i + 1;
      }
      ok := true;
      if FirstElementIndex(items) != -1 {
        ArrayWalkedEnd(typeName, propertyName, itemType, items, old(cache.schema), cache.schema);
      }
    }

    /**
     * The body of the item loop of RegisterArrayProperty: an object item
     * extends the item complex type; any other item that is not null is given
     * to DeclareCollection.
     */
    method RegisterArrayItem(typeName: string, f: Field, propertyName: string, items: seq<Token>, i: nat,
                             ghost s0: Schema, ghost noObjects: bool)
      returns (ok: bool)
      requires Valid() && typeName in s0.types && Grows(s0, cache.schema)
      requires items == ChildTokens(f.value) && i < |items| && noObjects == NoObjects(items)
      requires noObjects ==> ArrayScanned(typeName, propertyName, items, i, s0, cache.schema)
      requires propertyName == GetResourcePropertyName(f.name, EntityType)
      requires ArrayWalked(typeName, propertyName, GetQualifiedTypeName(typeName, propertyName), items, i, s0, cache.schema)
      modifies this`unresolved, cache
      ensures Valid() && Grows(old(cache.schema), cache.schema) && old(cache.providerTypes) <= cache.providerTypes
      ensures cache.schema.sets == old(cache.schema.sets)
      ensures Below(unresolved, |typeName| + 2) == Below(old(unresolved), |typeName| + 2)
      ensures noObjects ==> cache.providerTypes == old(cache.providerTypes) && unresolved == old(unresolved)
      ensures noObjects && ok ==> ArrayScanned(typeName, propertyName, items, i + 1, s0, cache.schema)
      ensures noObjects && !ok ==>
        i == FirstElementIndex(items) && old(cache.schema) == s0
        && FindProperty(s0.types[typeName].properties, propertyName).None?
        && AddPrimitiveCollectionProperty(s0, typeName, propertyName, MapToDotNetType(items[i])).None?
      ensures ok ==> ArrayWalked(typeName, propertyName, GetQualifiedTypeName(typeName, propertyName), items, i + 1, s0, cache.schema)
      decreases Depth(f.value), 3
    {
      var item := items[i];
      ghost var before := cache.schema;
      if item.Object? {
        assert !noObjects;
        ok := RegisterItemDocument(typeName, Field(f.name, item));
      } else if !item.Null? {
        ok := DeclareCollection(typeName, propertyName, item);
        if noObjects {
          ArrayScannedStep(typeName, propertyName, items, i, s0, before, cache.schema, ok);
        }
      } else {
        ok := true;
        if noObjects {
          ArrayScannedStep(typeName, propertyName, items, i, s0, cache.schema, cache.schema, true);
        }
      }
      ArrayWalkedStep(typeName, propertyName, GetQualifiedTypeName(typeName, propertyName), items, i, s0, before, cache.schema, ok);
    }

    /** The branch of RegisterArrayProperty for an object item. */
    method RegisterItemDocument(typeName: string, f: Field) returns (ok: bool)
      requires Valid() && typeName in cache.schema.types
      modifies this`unresolved, cache
      ensures Valid() && Grows(old(cache.schema), cache.schema) && old(cache.providerTypes) <= cache.providerTypes
      ensures cache.schema.sets == old(cache.schema.sets)
      ensures Below(unresolved, |typeName| + 2) == Below(old(unresolved), |typeName| + 2)
      ensures var name := GetResourcePropertyName(f.name, EntityType);
        var q := GetQualifiedTypeName(typeName, name);
        ok && q !in old(cache.schema.types) ==>
          FindProperty(cache.schema.types[typeName].properties, name) == Some(ResourceProperty(name, Collection, TypeRef(q)))
      ensures var q := GetQualifiedTypeName(typeName, GetResourcePropertyName(f.name, EntityType));
        ok && q in old(cache.schema.types) ==> MembersRegistered(cache.schema, unresolved, q, f.value)
      decreases Depth(f.value), 9
    {
      ok := RegisterDocumentProperties(typeName, f);
    }

    /**
     * The branch of RegisterArrayProperty for an item that is neither null nor
     * an object: while the property is undeclared, an item that is not an
     * array declares it as a collection of the item's type.
     */
    method DeclareCollection(typeName: string, propertyName: string, item: Token) returns (ok: bool)
      requires Valid() && typeName in cache.schema.types
      modifies cache
      ensures Valid() && Grows(old(cache.schema), cache.schema)
      ensures cache.providerTypes == old(cache.providerTypes) && cache.schema.sets == old(cache.schema.sets)
      ensures FindProperty(old(cache.schema.types[typeName].properties), propertyName).Some? || item.Array? ==>
        ok && cache.schema == old(cache.schema)
      ensures !ok ==>
        cache.schema == old(cache.schema) && !item.Array?
        && FindProperty(old(cache.schema.types[typeName].properties), propertyName).None?
      ensures FindProperty(old(cache.schema.types[typeName].properties), propertyName).None? && !item.Array? ==>
        (ok <==> AddPrimitiveCollectionProperty(old(cache.schema), typeName, propertyName, MapToDotNetType(item)).Some?)
      ensures FindProperty(old(cache.schema.types[typeName].properties), propertyName).None? && !item.Array? && ok ==>
        MapToDotNetType(item).Some?
        && FindProperty(cache.schema.types[typeName].properties, propertyName)
           == Some(ResourceProperty(propertyName, Collection, PrimitiveOf(Plain(MapToDotNetType(item).value))))
    {
      ok := true;
      if FindProperty(cache.schema.types[typeName].properties, propertyName).None? {
        // OData has no collections of collections.
        if !item.Array? {
          var itemType := MapToDotNetType(item);
          if itemType.None? {
            return false;
          }
          ok := StoreProperty(typeName, ResourceProperty(propertyName, Collection, PrimitiveOf(Plain(itemType.value))));
        }
      }
    }

    /**
     * RegisterDocumentProperties: a member holding a document (or an array of
     * them): its members extend the complex type `typeName__name` when that
     * exists; otherwise that type is created and declared as a collection.
     */
    method RegisterDocumentProperties(typeName: string, f: Field) returns (ok: bool)
      requires Valid() && typeName in cache.schema.types
      modifies this`unresolved, cache
      ensures Valid() && Grows(old(cache.schema), cache.schema) && old(cache.providerTypes) <= cache.providerTypes
      ensures cache.schema.sets == old(cache.schema.sets)
      ensures Below(unresolved, |typeName| + 2) == Below(old(unresolved), |typeName| + 2)
      ensures var name := GetResourcePropertyName(f.name, EntityType);
        var q := GetQualifiedTypeName(typeName, name);
        ok && q !in old(cache.schema.types) ==>
          FindProperty(cache.schema.types[typeName].properties, name) == Some(ResourceProperty(name, Collection, TypeRef(q)))
      ensures var name := GetResourcePropertyName(f.name, EntityType);
        GetQualifiedTypeName(typeName, name) in old(cache.schema.types) && PropertyChildren(f.value).None? ==> !ok
      ensures var q := GetQualifiedTypeName(typeName, GetResourcePropertyName(f.name, EntityType));
        ok && q in old(cache.schema.types) ==> MembersRegistered(cache.schema, unresolved, q, f.value)
      decreases Depth(f.value), 8
    {
      var resourceName := GetResourcePropertyName(f.name, EntityType);
      var resourceType := ResolveResourceType(cache.schema, resourceName, typeName);
      if resourceType.None? {
        ok := AddDocumentProperty(typeName, resourceName, f, true);
      } else {
        var r := resourceType.value;
        var members := PropertyChildren(f.value);
        if members.None? {
          return false;
        }
        var j := 0;
        while j < |members.value|
          invariant 0 <= j <= |members.value|
          invariant Valid() && Grows(old(cache.schema), cache.schema) && old(cache.providerTypes) <= cache.providerTypes
          invariant cache.schema.sets == old(cache.schema.sets)
          invariant Below(unresolved, |typeName| + 2) == Below(old(unresolved), |typeName| + 2)
          invariant r in cache.schema.types
          invariant RegisteredUpTo(cache.schema, unresolved, r, members.value, j)
        {
          ghost var before, tracked := cache.schema, unresolved;
          ok := RegisterDocumentPropertyAt(r, members.value, j, Depth(f.value));
          GrowsTransitive(old(cache.schema), before, cache.schema);
          BelowBelow(unresolved, |r|, |typeName| + 2);
          BelowBelow(tracked, |r|, |typeName| + 2);
          if !ok {
            return;
          }
          j := j + 1;
        }
        ok := true;
      }
    }

    /**
     * RegisterDocumentProperty: a member of a later document. An undeclared
     * member is registered; a non-null value of a declared complex or
     * collection property is walked; anything else changes nothing.
     */
    method RegisterDocumentProperty(typeName: string, f: Field) returns (ok: bool)
      requires Valid() && typeName in cache.schema.types
      modifies this`unresolved, cache
      ensures Valid() && Grows(old(cache.schema), cache.schema) && old(cache.providerTypes) <= cache.providerTypes
      ensures cache.schema.sets == old(cache.schema.sets)
      ensures Below(unresolved, |typeName|) == Below(old(unresolved), |typeName|)
      ensures var p := ResolveResourceProperty(old(cache.schema.types[typeName]), f.name);
        p.Some? && (p.value.kind.Key? || p.value.kind.Primitive? || f.value.Null?) ==>
          ok && cache.schema == old(cache.schema) && cache.providerTypes == old(cache.providerTypes)
          && unresolved == old(unresolved)
      ensures var p := ResolveResourceProperty(old(cache.schema.types[typeName]), f.name);
        p.None? ==> (UnresolvedProperty(typeName, f.name) in unresolved <==> ResolveProviderType(f, IsObjectId(f.name)).None?)
      ensures ok ==> MemberRegistered(cache.schema, unresolved, typeName, f)
      ensures forall g | g != f.name ::
        UnresolvedProperty(typeName, g) in unresolved <==> UnresolvedProperty(typeName, g) in old(unresolved)
      decreases Depth(f.value), 9
    {
      var t := cache.schema.types[typeName];
      var p := ResolveResourceProperty(t, f.name);
      if p.None? {
        ok := RegisterResourceProperty(typeName, f);
        return;
      } else if p.value.kind.ComplexTypeProperty? && !f.value.Null? {
        ok := RegisterDocumentProperties(typeName, f);
        BelowBelow(unresolved, |typeName| + 2, |typeName|);
        BelowBelow(old(unresolved), |typeName| + 2, |typeName|);
      } else if p.value.kind.Collection? && !f.value.Null? {
        ok := RegisterArrayProperty(typeName, f);
        BelowBelow(unresolved, |typeName| + 2, |typeName|);
        BelowBelow(old(unresolved), |typeName| + 2, |typeName|);
      } else {
        ok := true;
        return;
      }
      // A declared member: its property stays, and a nested walk leaves this type's entries alone.
      assert p.value in t.properties;
      forall g ensures UnresolvedProperty(typeName, g) in unresolved <==> UnresolvedProperty(typeName, g) in old(unresolved) {
        BelowSameMember(old(unresolved), unresolved, |typeName| + 2, UnresolvedProperty(typeName, g));
      }
    }

    /**
     * The j-th step of the member loops over a later document
     * (RegisterDocumentProperties, UpdateResourceSet): the j-th member joins
     * those registered in `typeName`.
     */
    method RegisterDocumentPropertyAt(typeName: string, members: seq<Field>, j: nat, ghost depth: nat) returns (ok: bool)
      requires Valid() && typeName in cache.schema.types && j < |members|
      requires forall g | g in members :: Depth(g.value) < depth
      requires RegisteredUpTo(cache.schema, unresolved, typeName, members, j)
      modifies this`unresolved, cache
      ensures Valid() && Grows(old(cache.schema), cache.schema) && old(cache.providerTypes) <= cache.providerTypes
      ensures cache.schema.sets == old(cache.schema.sets)
      ensures Below(unresolved, |typeName|) == Below(old(unresolved), |typeName|)
      ensures ok ==> RegisteredUpTo(cache.schema, unresolved, typeName, members, j + 1)
      decreases depth, 0
    {
      assert members[j] in members;
      ok := RegisterDocumentProperty(typeName, members[j]);
      if ok {
        MembersRegisteredKept(old(cache.schema), cache.schema, old(unresolved), unresolved, typeName, members, j);
      }
    }

    /** UpdateResourceSet: registers each member of a later document of the collection. */
    method UpdateResourceSet(typeName: string, document: seq<Field>) returns (ok: bool)
      requires Valid() && typeName in cache.schema.types
      modifies this`unresolved, cache
      ensures Valid() && Grows(old(cache.schema), cache.schema) && old(cache.providerTypes) <= cache.providerTypes
      ensures cache.schema.sets == old(cache.schema.sets)
      ensures Below(unresolved, |typeName|) == Below(old(unresolved), |typeName|)
      ensures ok ==> RegisteredUpTo(cache.schema, unresolved, typeName, document, |document|)
    {
      var j := 0;
      while j < |document|
        invariant 0 <= j <= |document|
        invariant Valid() && Grows(old(cache.schema), cache.schema) && old(cache.providerTypes) <= cache.providerTypes
        invariant cache.schema.sets == old(cache.schema.sets) && typeName in cache.schema.types
        invariant Below(unresolved, |typeName|) == Below(old(unresolved), |typeName|)
        invariant RegisteredUpTo(cache.schema, unresolved, typeName, document, j)
      {
        ghost var before := cache.schema;
        ok := RegisterDocumentPropertyAt(typeName, document, j, Depth(Object(document)));
        GrowsTransitive(old(cache.schema), before, cache.schema);
        if !ok {
          return;
        }
        j := j + 1;
      }
      ok := true;
    }

    /**
     * AddResourceSet: the entity type of a collection, built from its first
     * document when there is one, and the set named after it.
     */
    method AddResourceSet(collectionName: string, document: Option<Token>) returns (ok: bool, resourceSet: Option<string>)
      requires Valid()
      modifies this`unresolved, cache
      ensures Valid() && Grows(old(cache.schema), cache.schema) && old(cache.providerTypes) <= cache.providerTypes
      ensures cache.schema.sets == if ok then old(cache.schema.sets)[collectionName := collectionName] else old(cache.schema.sets)
      ensures ok ==> collectionName !in old(cache.schema.types) && resourceSet == Some(collectionName)
      ensures ok ==> collectionName in cache.schema.types && cache.schema.types[collectionName].kind.EntityType?
      ensures ok && !HasIdMember(document) ==>
        collectionName in cache.schema.types && KeyProperty in cache.schema.types[collectionName].properties
      ensures ok && document.None? ==>
        cache.schema.types == old(cache.schema.types)[collectionName := ResourceType(collectionName, EntityType, [KeyProperty])]
      ensures document.None? ==> unresolved == old(unresolved)
    {
      ok := AddDocumentType(collectionName, document, EntityType);
      resourceSet := if ok then ResolveResourceSet(cache.schema, collectionName) else None;
    }

    /**
     * PopulateMetadataFromCollection: the first document read creates the
     * collection's set unless it exists; every later one extends its type.
     * Reading stops after PrefetchRows documents when that is not negative.
     */
    method PopulateMetadataFromCollection(collectionName: string, documents: seq<seq<Field>>, resourceSet: Option<string>)
      returns (ok: bool)
      requires Valid() && resourceSet == ResolveResourceSet(cache.schema, collectionName)
      modifies this`unresolved, this`sampled, cache
      ensures Valid() && GrowsBySet(old(cache.schema), cache.schema, collectionName)
      ensures old(cache.providerTypes) <= cache.providerTypes
      ensures ok ==>
        sampled == old(sampled) + Tagged(collectionName, documents[..SampleSize(configuration.prefetchRows, |documents|)])
      ensures ok && |documents| > 0 ==> collectionName in cache.schema.sets
      ensures |documents| == 0 ==> ok && cache.schema == old(cache.schema)
    {
      var prefetchRows := configuration.prefetchRows;
      var resolved := resourceSet;
      var rowCount := 0;
      while rowCount < |documents|
        invariant 0 <= rowCount <= |documents|
        invariant rowCount == 0 || prefetchRows < 0 || rowCount < prefetchRows
        invariant Valid() && GrowsBySet(old(cache.schema), cache.schema, collectionName)
        invariant old(cache.providerTypes) <= cache.providerTypes
        invariant resolved == ResolveResourceSet(cache.schema, collectionName)
        invariant sampled == old(sampled) + Tagged(collectionName, documents[..rowCount])
        invariant rowCount > 0 ==> resolved.Some?
        invariant rowCount == 0 ==> cache.schema == old(cache.schema)
      {
        TaggedSnoc(collectionName, documents, rowCount);
        ghost var before := cache.schema;
        ok, resolved := ReadDocument(collectionName, documents[rowCount], resolved);
        GrowsBySetTransitive(old(cache.schema), before, cache.schema, collectionName);
        if !ok {
          return;
        }
        AppendAssoc(old(sampled), Tagged(collectionName, documents[..rowCount]),
          [SampledDocument(collectionName, documents[rowCount])]);
        rowCount := rowCount + 1;
        if prefetchRows >= 0 && rowCount >= prefetchRows {
          break;
        }
      }
      SampleSizeReached(prefetchRows, |documents|, rowCount);
      ok := true;
    }

    /** The body of the reading loop of PopulateMetadataFromCollection, for one document. */
    method ReadDocument(collectionName: string, document: seq<Field>, resourceSet: Option<string>)
      returns (ok: bool, resolved: Option<string>)
      requires Valid() && resourceSet == ResolveResourceSet(cache.schema, collectionName)
      modifies this`unresolved, this`sampled, cache
      ensures Valid() && GrowsBySet(old(cache.schema), cache.schema, collectionName)
      ensures old(cache.providerTypes) <= cache.providerTypes
      ensures ok ==> resolved == ResolveResourceSet(cache.schema, collectionName) && resolved.Some?
      ensures ok ==> sampled == old(sampled) + [SampledDocument(collectionName, document)]
      ensures cache.schema.sets
        == if ok && resourceSet.None? then old(cache.schema.sets)[collectionName := collectionName] else old(cache.schema.sets)
    {
      if resourceSet.None? {
        ok, resolved := AddResourceSet(collectionName, Some(Object(document)));
      } else {
        resolved := resourceSet;
        ok := UpdateResourceSet(resourceSet.value, document);
      }
      if ok {
        sampled := sampled + [SampledDocument(collectionName, document)];
      }
    }

    /** The body of the collection loop of PopulateMetadata, for one collection. */
    method PopulateCollection(c: DocumentCollection) returns (ok: bool)
      requires Valid()
      modifies this`unresolved, this`sampled, cache
      ensures Valid() && Grows(old(cache.schema), cache.schema) && old(cache.providerTypes) <= cache.providerTypes
      ensures ok ==>
        sampled
        == old(sampled) + if configuration.prefetchRows == 0 then []
           else Tagged(c.id, c.documents[..SampleSize(configuration.prefetchRows, |c.documents|)])
      ensures ok && GetsResourceSet(c, configuration.prefetchRows) ==> c.id in cache.schema.sets
      ensures forall n | n in cache.schema.sets && n !in old(cache.schema.sets) ::
        n == c.id && GetsResourceSet(c, configuration.prefetchRows)
      ensures configuration.prefetchRows == 0 && c.id in old(cache.schema.sets) ==> ok && cache.schema == old(cache.schema)
      ensures ok && configuration.prefetchRows == 0 && c.id !in old(cache.schema.sets) ==>
        cache.schema.types == old(cache.schema.types)[c.id := ResourceType(c.id, EntityType, [KeyProperty])]
        && cache.schema.sets == old(cache.schema.sets)[c.id := c.id]
      ensures configuration.prefetchRows != 0 && |c.documents| == 0 ==> ok && cache.schema == old(cache.schema)
    {
      var resourceSet := ResolveResourceSet(cache.schema, c.id);
      if configuration.prefetchRows == 0 {
        ok := true;
        if resourceSet.None? {
          ok, resourceSet := AddResourceSet(c.id, None);
        }
      } else {
        ok := PopulateMetadataFromCollection(c.id, c.documents, resourceSet);
      }
    }

    /**
     * The second part of PopulateMetadata: every member whose values were
     * never typed becomes a string property under its normalised name, with
     * the provider type string; the dictionary rejects a key added twice.
     */
    method FlushUnresolved() returns (ok: bool)
      requires Valid()
      modifies cache
      ensures Valid() && Grows(old(cache.schema), cache.schema) && old(cache.providerTypes) <= cache.providerTypes
      ensures cache.schema.sets == old(cache.schema.sets)
      ensures ok ==> DeclaredAsStrings(cache.schema, cache.providerTypes, unresolved, |unresolved|)
    {
      ok := FlushFrom(0);
    }

    /** The flush from the i-th unresolved member on, the earlier ones being declared already. */
    method FlushFrom(i: nat) returns (ok: bool)
      requires Valid() && i <= |unresolved| && DeclaredAsStrings(cache.schema, cache.providerTypes, unresolved, i)
      modifies cache
      ensures Valid() && Grows(old(cache.schema), cache.schema) && old(cache.providerTypes) <= cache.providerTypes
      ensures cache.schema.sets == old(cache.schema.sets)
      ensures ok ==> DeclaredAsStrings(cache.schema, cache.providerTypes, unresolved, |unresolved|)
      decreases |unresolved| - i
    {
      if i == |unresolved| {
        return true;
      }
      ok := DeclareUnresolved(i);
      if ok {
        ghost var schema := cache.schema;
        ok := FlushFrom(i + 1);
        GrowsTransitive(old(cache.schema), schema, cache.schema);
      }
    }

    /** The loop body of FlushUnresolved: the i-th unresolved member joins those declared. */
    method DeclareUnresolved(i: nat) returns (ok: bool)
      requires Valid() && i < |unresolved| && DeclaredAsStrings(cache.schema, cache.providerTypes, unresolved, i)
      modifies cache
      ensures Valid() && Grows(old(cache.schema), cache.schema) && old(cache.providerTypes) <= cache.providerTypes
      ensures cache.schema.sets == old(cache.schema.sets)
      ensures ok ==> DeclaredAsStrings(cache.schema, cache.providerTypes, unresolved, i + 1)
    {
      ok := DeclareAsString(unresolved[i]);
      if ok {
        DeclaredAsStringsGrows(old(cache.schema), cache.schema, old(cache.providerTypes), cache.providerTypes, unresolved, i);
      }
    }

    /** One step of FlushUnresolved. */
    method DeclareAsString(u: UnresolvedProperty) returns (ok: bool)
      requires Valid() && u.typeName in cache.schema.types
      modifies cache
      ensures Valid() && Grows(old(cache.schema), cache.schema)
      ensures cache.schema.sets == old(cache.schema.sets) && cache.schema.types.Keys == old(cache.schema.types).Keys
      ensures var name := NormalizeResourcePropertyName(u.propertyName);
        ok <==> AddPrimitiveProperty(old(cache.schema), u.typeName, name, Plain(StringType)).Some?
                && !HasKey(old(cache.providerTypes), GetQualifiedPropertyName(u.typeName, name))
      ensures var name := NormalizeResourcePropertyName(u.propertyName);
        cache.providerTypes
        == if ok then old(cache.providerTypes) + [ProviderEntry(GetQualifiedPropertyName(u.typeName, name), Plain(StringType))]
           else old(cache.providerTypes)
      ensures ok ==> DeclaredAsString(cache.schema, cache.providerTypes, u)
    {
      var name := NormalizeResourcePropertyName(u.propertyName);
      ok := StoreProperty(u.typeName, StringProperty(name));
      if !ok {
        return;
      }
      var key := GetQualifiedPropertyName(u.typeName, name);
      if HasKey(cache.providerTypes, key) {
        return false;
      }
      StoreProviderEntry(ProviderEntry(key, Plain(StringType)));
    }

    /** A key added to the provider types dictionary, applied to the cache. */
    method StoreProviderEntry(e: ProviderEntry)
      requires Valid() && !HasKey(cache.providerTypes, e.key) && e.clr != DocumentType
      modifies cache
      ensures Valid() && cache.schema == old(cache.schema)
      ensures cache.providerTypes == old(cache.providerTypes) + [e]
      ensures Lookup(cache.providerTypes, e.key) == Some(e.clr)
      ensures forall k | HasKey(old(cache.providerTypes), k) :: Lookup(cache.providerTypes, k) == Lookup(old(cache.providerTypes), k)
    {
      var before := cache.providerTypes;
      LookupAppend(before, e);
      cache.providerTypes := before + [e];
      forall k | HasKey(before, k) ensures Lookup(cache.providerTypes, k) == Lookup(before, k) {
        LookupPrefix(before, cache.providerTypes, k);
      }
    }

    /**
     * PopulateMetadata: every collection not named "system.*" gets its set,
     * from its documents when PrefetchRows is not 0 (none, and no set, when
     * it has none); then the members never typed are declared as strings.
     */
    method PopulateMetadata(collections: seq<DocumentCollection>) returns (ok: bool)
      requires Valid()
      modifies this`unresolved, this`sampled, cache
      ensures Valid() && Grows(old(cache.schema), cache.schema) && old(cache.providerTypes) <= cache.providerTypes
      ensures ok ==> sampled == old(sampled) + SamplePlan(GetCollectionNames(collections), configuration.prefetchRows)
      ensures ok ==> var names := GetCollectionNames(collections);
        forall k | 0 <= k < |names| && GetsResourceSet(names[k], configuration.prefetchRows) :: names[k].id in cache.schema.sets
      ensures ok ==> var names := GetCollectionNames(collections);
        forall n | n in cache.schema.sets && n !in old(cache.schema.sets) ::
          exists k | 0 <= k < |names| :: names[k].id == n && GetsResourceSet(names[k], configuration.prefetchRows)
      ensures ok ==> forall k | 0 <= k < |unresolved| :: DeclaredAsString(cache.schema, cache.providerTypes, unresolved[k])
    {
      var names := GetCollectionNames(collections);
      ok := PopulateCollections(names);
      if !ok {
        return;
      }
      ghost var before := cache.schema;
      ok := FlushUnresolved();
      GrowsTransitive(old(cache.schema), before, cache.schema);
      if ok {
        DeclaredAsStringsAll(cache.schema, cache.providerTypes, unresolved, |unresolved|);
      }
      forall k | 0 <= k < |names| && GetsResourceSet(names[k], configuration.prefetchRows)
        ensures names[k].id in cache.schema.sets
      {
      }
    }

    /** The collection loop of PopulateMetadata. */
    method PopulateCollections(names: seq<DocumentCollection>) returns (ok: bool)
      requires Valid()
      modifies this`unresolved, this`sampled, cache
      ensures Valid() && Grows(old(cache.schema), cache.schema) && old(cache.providerTypes) <= cache.providerTypes
      ensures ok ==> sampled == old(sampled) + SamplePlan(names, configuration.prefetchRows)
      ensures ok ==>
        forall k | 0 <= k < |names| && GetsResourceSet(names[k], configuration.prefetchRows) :: names[k].id in cache.schema.sets
      ensures ok ==> SetsOnlyFor(names, |names|, configuration.prefetchRows, old(cache.schema), cache.schema)
    {
      var i := 0;
      while i < |names|
        invariant 0 <= i <= |names|
        invariant Valid() && Grows(old(cache.schema), cache.schema) && old(cache.providerTypes) <= cache.providerTypes
        invariant sampled == old(sampled) + SamplePlan(names[..i], configuration.prefetchRows)
        invariant SetsCreated(names, i, configuration.prefetchRows, cache.schema)
        invariant SetsOnlyFor(names, i, configuration.prefetchRows, old(cache.schema), cache.schema)
      {
        ok := PopulateNext(names, i, old(cache.schema), old(sampled));
        if !ok {
          return;
        }
        i := i + 1;
      }
      assert names[..i] == names;
      ok := true;
    }

    /** The body of the collection loop of PopulateMetadata: the i-th collection joins those populated. */
    method PopulateNext(names: seq<DocumentCollection>, i: nat, ghost start: Schema, ghost sampledBefore: seq<SampledDocument>)
      returns (ok: bool)
      requires Valid() && i < |names| && Grows(start, cache.schema)
      requires sampled == sampledBefore + SamplePlan(names[..i], configuration.prefetchRows)
      requires SetsCreated(names, i, configuration.prefetchRows, cache.schema)
      requires SetsOnlyFor(names, i, configuration.prefetchRows, start, cache.schema)
      modifies this`unresolved, this`sampled, cache
      ensures Valid() && Grows(start, cache.schema) && old(cache.providerTypes) <= cache.providerTypes
      ensures ok ==> sampled == sampledBefore + SamplePlan(names[..i + 1], configuration.prefetchRows)
      ensures ok ==> SetsCreated(names, i + 1, configuration.prefetchRows, cache.schema)
      ensures ok ==> SetsOnlyFor(names, i + 1, configuration.prefetchRows, start, cache.schema)
    {
      var prefetchRows := configuration.prefetchRows;
      SamplePlanSnoc(names, i, prefetchRows);
      ok := PopulateCollection(names[i]);
      GrowsTransitive(start, old(cache.schema), cache.schema);
      if ok {
        AppendAssoc(sampledBefore, SamplePlan(names[..i], prefetchRows),
          if prefetchRows == 0 then []
          else Tagged(names[i].id, names[i].documents[..SampleSize(prefetchRows, |names[i].documents|)]));
        SetsCreatedStep(names, i, prefetchRows, old(cache.schema), cache.schema);
        SetsOnlyForStep(names, i, prefetchRows, start, old(cache.schema), cache.schema);
      }
    }
  }
}
