/**
 * The dynamic-type materialiser of the queryable data service: for a
 * collection it selects the ProviderTypes entries of that collection, names
 * each field by the last segment of its key, and compiles a type from them;
 * provider types tagged as documents are compiled recursively and memoised in
 * GeneratedTypes. The compiled type is modelled by its field map (Shape).
 */
module Materializer {
  import opened Wrappers
  import opened Strings
  import opened TypeResolver
  import opened MetadataStore

  /** The key filter of CreateDynamicTypeForCollection. */
  predicate CollectionCriteria(collectionName: string, key: string) {
    StartsWith(key, collectionName + ".")
    || (UseGlobalComplexTypeNames && StartsWith(key, collectionName + WordSeparator))
  }

  /** With global complex type names off, a collection selects exactly the keys under "collectionName.". */
  lemma CollectionCriteriaIsPrefix(collectionName: string, key: string)
    ensures CollectionCriteria(collectionName, key) <==> StartsWith(key, collectionName + ".")
  {
  }

  /** The key filter for a nested document type: its name with '.' replaced by "__", then ".". */
  function NestedPrefix(typeName: string): (r: string)
    ensures |r| > |typeName|
    ensures r[|r| - 1] == '.'
  {
    JoinSplitLength(typeName, '.', WordSeparator);
    Join(WordSeparator, Split(typeName, '.')) + "."
  }

  /** providerTypes.Where(x => x.Key starts with prefix), in dictionary order. */
  function Selected(entries: seq<ProviderEntry>, prefix: string): seq<ProviderEntry>
  {
    if entries == [] then []
    else
      var last := entries[|entries| - 1];
      Selected(entries[..|entries| - 1], prefix) + (if StartsWith(last.key, prefix) then [last] else [])
  }

  /** The selection holds exactly the entries whose key starts with the prefix. */
  lemma {:induction false} SelectedMembers(entries: seq<ProviderEntry>, prefix: string)
    ensures forall e :: e in Selected(entries, prefix) <==> e in entries && StartsWith(e.key, prefix)
  {
    if entries != [] {
      var init := entries[..|entries| - 1];
      SelectedMembers(init, prefix);
      assert entries == init + [entries[|entries| - 1]];
    }
  }

  lemma {:induction false} SelectedPrefix(entries: seq<ProviderEntry>, i: nat, prefix: string)
    requires i <= |entries|
    ensures Selected(entries[..i], prefix) <= Selected(entries, prefix)
    decreases |entries| - i
  {
    if i < |entries| {
      SelectedPrefix(entries, i + 1, prefix);
      assert entries[..i + 1][..i] == entries[..i];
    } else {
      assert entries[..i] == entries;
    }
  }

  /** x.Key.Split('.').Last(): the name of the field a provider entry becomes. */
  function FieldName(key: string): (r: string)
  {
    LastPiece(key, '.')
  }

  /** The field name is the last piece of the key split at '.', and contains no '.'. */
  lemma FieldNameIsLastSegment(key: string)
    ensures FieldName(key) == Split(key, '.')[|Split(key, '.')| - 1]
    ensures '.' !in FieldName(key)
  {
    LastPieceOfSplit(key, '.');
    LastPieceSuffix(key, '.');
  }

  function FieldNames(entries: seq<ProviderEntry>): set<string> {
    set i | 0 <= i < |entries| :: FieldName(entries[i].key)
  }

  /** ToDictionary succeeds only when no two selected entries share a field name. */
  predicate DistinctFieldNames(entries: seq<ProviderEntry>) {
    forall i, j | 0 <= i < j < |entries| :: FieldName(entries[i].key) != FieldName(entries[j].key)
  }

  /** The memo only grows: no entry is removed or replaced. */
  predicate Extends(a: map<string, Shape>, b: map<string, Shape>) {
    forall k | k in a :: k in b && b[k] == a[k]
  }

  /** The memo grows from `a` to `b`, and only by keys at least `n` long. */
  predicate ExtendsBeyond(a: map<string, Shape>, b: map<string, Shape>, n: nat) {
    Extends(a, b) && forall k | k in b && k !in a :: |k| >= n
  }

  /** The type a selected entry contributes: the memoised compiled type for a document tag, the provider type otherwise. */
  predicate FieldTyped(e: ProviderEntry, fields: map<string, DynamicType>, memo: map<string, Shape>, createDynamicTypes: bool) {
    FieldName(e.key) in fields
    && if createDynamicTypes && e.clr == DocumentType
       then e.key in memo && fields[FieldName(e.key)] == Generated(memo[e.key])
       else fields[FieldName(e.key)] == Provided(e.clr)
  }

  function MaxKeyLength(entries: seq<ProviderEntry>): (r: nat)
    ensures forall e | e in entries :: |e.key| <= r
  {
    if entries == [] then 0
    else
      var m := MaxKeyLength(entries[1..]);
      assert forall e | e in entries :: e == entries[0] || e in entries[1..];
      if |entries[0].key| > m then |entries[0].key| else m
  }

  lemma SelectedStep(entries: seq<ProviderEntry>, i: nat, prefix: string)
    requires i < |entries|
    ensures Selected(entries[..i + 1], prefix)
         == Selected(entries[..i], prefix) + (if StartsWith(entries[i].key, prefix) then [entries[i]] else [])
  {
    assert entries[..i + 1][..i] == entries[..i];
  }

  /** The fields compiled from the selected entries `done`: one per field name, each typed by its entry. */
  predicate Compiled(done: seq<ProviderEntry>, fields: map<string, DynamicType>, memo: map<string, Shape>,
                     createDynamicTypes: bool) {
    DistinctFieldNames(done) && fields.Keys == FieldNames(done)
    && forall d | d in done :: FieldTyped(d, fields, memo, createDynamicTypes)
  }

  lemma FieldTypedExtends(entries: seq<ProviderEntry>, fields: map<string, DynamicType>, a: map<string, Shape>,
                          b: map<string, Shape>, createDynamicTypes: bool)
    requires Extends(a, b)
    requires forall e | e in entries :: FieldTyped(e, fields, a, createDynamicTypes)
    ensures forall e | e in entries :: FieldTyped(e, fields, b, createDynamicTypes)
  {
  }

  /** A selected entry whose field name an earlier selected entry already has makes the selection ambiguous. */
  lemma RepeatedFieldName(entries: seq<ProviderEntry>, i: nat, prefix: string)
    requires i < |entries| && StartsWith(entries[i].key, prefix)
    requires FieldName(entries[i].key) in FieldNames(Selected(entries[..i], prefix))
    ensures !DistinctFieldNames(Selected(entries, prefix))
  {
    SelectedStep(entries, i, prefix);
    SelectedPrefix(entries, i + 1, prefix);
    RepeatInPrefix(Selected(entries[..i], prefix), entries[i], Selected(entries, prefix));
  }

  lemma RepeatInPrefix(done: seq<ProviderEntry>, e: ProviderEntry, all: seq<ProviderEntry>)
    requires done + [e] <= all && FieldName(e.key) in FieldNames(done)
    ensures !DistinctFieldNames(all)
  {
    var j :| 0 <= j < |done| && FieldName(done[j].key) == FieldName(e.key);
    assert (done + [e])[j] == all[j] && (done + [e])[|done|] == all[|done|];
  }

  /** Adding a field under a new name keeps the names distinct and the earlier fields typed. */
  lemma AddField(done: seq<ProviderEntry>, e: ProviderEntry, fields: map<string, DynamicType>, v: DynamicType,
                 memo: map<string, Shape>, createDynamicTypes: bool)
    requires DistinctFieldNames(done) && fields.Keys == FieldNames(done) && FieldName(e.key) !in fields
    requires forall d | d in done :: FieldTyped(d, fields, memo, createDynamicTypes)
    requires if createDynamicTypes && e.clr == DocumentType then e.key in memo && v == Generated(memo[e.key])
             else v == Provided(e.clr)
    ensures DistinctFieldNames(done + [e])
    ensures fields[FieldName(e.key) := v].Keys == FieldNames(done + [e])
    ensures forall d | d in done + [e] :: FieldTyped(d, fields[FieldName(e.key) := v], memo, createDynamicTypes)
  {
    FieldNamesAppend(done, e);
    AppendDistinct(done, e);
    assert fields[FieldName(e.key) := v].Keys == fields.Keys + {FieldName(e.key)};
    forall d | d in done + [e] ensures FieldTyped(d, fields[FieldName(e.key) := v], memo, createDynamicTypes) {
      if d != e {
        assert d in done;
        assert FieldName(d.key) in fields;
      }
    }
  }

  lemma FieldNamesAppend(done: seq<ProviderEntry>, e: ProviderEntry)
    ensures FieldNames(done + [e]) == FieldNames(done) + {FieldName(e.key)}
  {
    var all := done + [e];
    forall x | x in FieldNames(all) ensures x in FieldNames(done) + {FieldName(e.key)} {
      var k :| 0 <= k < |all| && FieldName(all[k].key) == x;
      if k < |done| {
        assert all[k] == done[k];
      }
    }
    forall x | x in FieldNames(done) + {FieldName(e.key)} ensures x in FieldNames(all) {
      if x == FieldName(e.key) {
        assert FieldName(all[|done|].key) == x;
      } else {
        var k :| 0 <= k < |done| && FieldName(done[k].key) == x;
        assert all[k] == done[k];
      }
    }
  }

  lemma AppendDistinct(done: seq<ProviderEntry>, e: ProviderEntry)
    requires DistinctFieldNames(done) && FieldName(e.key) !in FieldNames(done)
    ensures DistinctFieldNames(done + [e])
  {
    var all := done + [e];
    forall i, j | 0 <= i < j < |all| ensures FieldName(all[i].key) != FieldName(all[j].key) {
      assert all[i] == done[i];
      if j < |done| {
        assert all[j] == done[j];
      } else {
        assert FieldName(done[i].key) in FieldNames(done);
      }
    }
  }

  /**
   * CreateDynamicTypes: compiles the type whose fields are the selected
   * entries. None is the exception ToDictionary raises on a repeated field
   * name (after the memo updates of the entries already visited).
   */
  method CreateDynamicTypes(prefix: string, providerTypes: seq<ProviderEntry>, cache: MetadataCache,
                            createDynamicTypes: bool) returns (r: Option<Shape>)
    modifies cache
    ensures cache.schema == old(cache.schema) && cache.providerTypes == old(cache.providerTypes)
    ensures Extends(old(cache.generatedTypes), cache.generatedTypes)
    ensures forall k | k in cache.generatedTypes && k !in old(cache.generatedTypes) :: |k| >= |prefix|
    ensures NoDocumentTags(providerTypes) || !createDynamicTypes ==> cache.generatedTypes == old(cache.generatedTypes)
    ensures r.Some? ==> DistinctFieldNames(Selected(providerTypes, prefix))
    ensures r.Some? ==> r.value.fields.Keys == FieldNames(Selected(providerTypes, prefix))
    ensures r.Some? ==> forall e | e in Selected(providerTypes, prefix) ::
      FieldTyped(e, r.value.fields, cache.generatedTypes, createDynamicTypes)
    ensures (NoDocumentTags(providerTypes) || !createDynamicTypes) && DistinctFieldNames(Selected(providerTypes, prefix))
      ==> r.Some?
    decreases MaxKeyLength(providerTypes) + 1 - |prefix|, 2
  {
    var fields: map<string, DynamicType> := map[];
    ghost var done: seq<ProviderEntry> := [];
    var i := 0;
    while i < |providerTypes|
      invariant 0 <= i <= |providerTypes|
      invariant done == Selected(providerTypes[..i], prefix)
      invariant cache.schema == old(cache.schema) && cache.providerTypes == old(cache.providerTypes)
      invariant ExtendsBeyond(old(cache.generatedTypes), cache.generatedTypes, |prefix|)
      invariant NoDocumentTags(providerTypes) || !createDynamicTypes ==> cache.generatedTypes == old(cache.generatedTypes)
      invariant Compiled(done, fields, cache.generatedTypes, createDynamicTypes)
    {
      var e := providerTypes[i];
      SelectedStep(providerTypes, i, prefix);
      if StartsWith(e.key, prefix) {
        ghost var memoBefore := cache.generatedTypes;
        var next := AddEntryField(prefix, e, providerTypes, cache, createDynamicTypes, done, fields);
        ExtendsBeyondTransitive(old(cache.generatedTypes), memoBefore, cache.generatedTypes, |prefix|);
        if next.None? {
          if FieldName(e.key) in FieldNames(done) {
            RepeatedFieldName(providerTypes, i, prefix);
          }
          return None;
        }
        fields := next.value;
        done := done + [e];
      }
      i := i + 1;
    }
    assert providerTypes[..i] == providerTypes;
    r := Some(Shape(fields));
  }

  lemma ExtendsBeyondTransitive(a: map<string, Shape>, b: map<string, Shape>, c: map<string, Shape>, n: nat)
    requires ExtendsBeyond(a, b, n) && ExtendsBeyond(b, c, n)
    ensures ExtendsBeyond(a, c, n)
  {
  }

  /**
   * One step of the ToDictionary in CreateDynamicTypes: the selected entry's
   * field, added under its name. None when its type fails to compile or when
   * the name is taken.
   */
  method AddEntryField(prefix: string, e: ProviderEntry, providerTypes: seq<ProviderEntry>, cache: MetadataCache,
                       createDynamicTypes: bool, ghost done: seq<ProviderEntry>, fields: map<string, DynamicType>)
    returns (r: Option<map<string, DynamicType>>)
    requires e in providerTypes && StartsWith(e.key, prefix)
    requires Compiled(done, fields, cache.generatedTypes, createDynamicTypes)
    modifies cache
    ensures cache.schema == old(cache.schema) && cache.providerTypes == old(cache.providerTypes)
    ensures ExtendsBeyond(old(cache.generatedTypes), cache.generatedTypes, |prefix|)
    ensures !(createDynamicTypes && e.clr == DocumentType) ==> cache.generatedTypes == old(cache.generatedTypes)
    ensures r.None? ==> FieldName(e.key) in FieldNames(done) || (createDynamicTypes && e.clr == DocumentType)
    ensures r.Some? ==> Compiled(done + [e], r.value, cache.generatedTypes, createDynamicTypes)
    decreases MaxKeyLength(providerTypes) + 1 - |prefix|, 1
  {
    var name := FieldName(e.key);
    var memoBefore := cache.generatedTypes;
    var v := GetDynamicTypeForProviderType(e.key, e.clr, providerTypes, cache, createDynamicTypes);
    if v.None? {
      return None;
    }
    FieldTypedExtends(done, fields, memoBefore, cache.generatedTypes, createDynamicTypes);
    if name in fields {
      return None;
    }
    AddField(done, e, fields, v.value, cache.generatedTypes, createDynamicTypes);
    r := Some(fields[name := v.value]);
  }

  /**
   * GetDynamicTypeForProviderType: a document-tagged provider type becomes a
   * compiled type, memoised under its key; any other type is returned as it is.
   */
  method GetDynamicTypeForProviderType(typeName: string, providerType: ClrType, providerTypes: seq<ProviderEntry>,
                                       cache: MetadataCache, createDynamicTypes: bool) returns (r: Option<DynamicType>)
    requires ProviderEntry(typeName, providerType) in providerTypes
    modifies cache
    ensures cache.schema == old(cache.schema) && cache.providerTypes == old(cache.providerTypes)
    ensures Extends(old(cache.generatedTypes), cache.generatedTypes)
    ensures forall k | k in cache.generatedTypes && k !in old(cache.generatedTypes) :: |k| >= |typeName|
    ensures !(createDynamicTypes && providerType == DocumentType) ==>
      r == Some(Provided(providerType)) && cache.generatedTypes == old(cache.generatedTypes)
    ensures createDynamicTypes && providerType == DocumentType && typeName in old(cache.generatedTypes) ==>
      r == Some(Generated(old(cache.generatedTypes)[typeName])) && cache.generatedTypes == old(cache.generatedTypes)
    ensures createDynamicTypes && providerType == DocumentType && r.Some? ==>
      typeName in cache.generatedTypes && r == Some(Generated(cache.generatedTypes[typeName]))
    decreases MaxKeyLength(providerTypes) + 1 - |typeName|, 0
  {
    if createDynamicTypes && providerType == DocumentType {
      if typeName in cache.generatedTypes {
        r := Some(Generated(cache.generatedTypes[typeName]));
      } else {
        var prefix := NestedPrefix(typeName);
        var shape := CreateDynamicTypes(prefix, providerTypes, cache, createDynamicTypes);
        if shape.None? {
          return None;
        }
        // generatedTypes.Add cannot throw: every key the nested call added is longer than typeName.
        assert typeName !in cache.generatedTypes;
        cache.generatedTypes := cache.generatedTypes[typeName := shape.value];
        r := Some(Generated(shape.value));
      }
    } else {
      r := Some(Provided(providerType));
    }
  }

  /**
   * CreateDynamicTypeForCollection: the compiled type of a collection. With
   * provider types that carry no document tag (or with dynamic types for
   * complex types switched off), every selected entry becomes a field of its
   * provider type, the memo is untouched, and the call fails exactly when two
   * selected keys end in the same segment.
   */
  method CreateDynamicTypeForCollection(collectionName: string, providerTypes: seq<ProviderEntry>, cache: MetadataCache,
                                        createDynamicTypes: bool) returns (r: Option<Shape>)
    modifies cache
    ensures cache.schema == old(cache.schema) && cache.providerTypes == old(cache.providerTypes)
    ensures Extends(old(cache.generatedTypes), cache.generatedTypes)
    ensures NoDocumentTags(providerTypes) || !createDynamicTypes ==>
      cache.generatedTypes == old(cache.generatedTypes)
      && (r.Some? <==> DistinctFieldNames(Selected(providerTypes, collectionName + ".")))
      && (r.Some? ==> forall e | e in providerTypes && CollectionCriteria(collectionName, e.key) ::
            FieldName(e.key) in r.value.fields && r.value.fields[FieldName(e.key)] == Provided(e.clr))
    ensures r.Some? ==> r.value.fields.Keys == FieldNames(Selected(providerTypes, collectionName + "."))
  {
    r := CreateDynamicTypes(collectionName + ".", providerTypes, cache, createDynamicTypes);
    SelectedMembers(providerTypes, collectionName + ".");
  }
}
