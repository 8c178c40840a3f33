# DocumentDB.OData core, modelled in Dafny

DocumentDB.OData exposes the collections of a DocumentDB (Azure Cosmos DB) database as an OData service. It has no fixed schema: it samples documents and infers one. This project models the core of that provider and proves properties of the model:

- **Schema inference** (`DocumentDbMetadata`), in `schema_builder.dfy`:
  - every collection becomes an entity type and a resource set of the same name;
  - the members of sampled documents become key, primitive, complex and collection properties;
  - nested objects become complex types named `owner__member`;
  - each property's CLR type is recorded in the provider-type dictionary under `Type.member`;
  - members whose values never had a known type are remembered as unresolved, then declared as strings at the end of the pass.
- **The metadata store it writes to** (`DocumentDbMetadataCache` / `DSPMetadata`), in `metadata_store.dfy`. This code is not part of the repository. It is modelled as pure functions on a `Schema` value that return `None` wherever the store throws.
- **Name and type helpers** of `DocumentDbMetadata`:
  - `type_resolver.dfy`: JSON token → CLR type, object-id detection, name normalisation, qualified names;
  - `unresolved.dfy`: the unresolved-property list;
  - `strings.dfy`: `IndexOf`, `Split`, `Join` and `Trim` as .NET defines them, and `StartsWith` compared ordinally, code unit by code unit;
  - `json.dfy`: JSON tokens.
- **The converter** (`DocumentDbDSPConverter`), in `converter.dfy`: a JSON document becomes a `DSPResource`, and a `DSPResource` becomes a JSON document.
- **The materialiser** of the queryable data service, in `materializer.dfy`. It builds the dynamic CLR type of a collection from the provider-type entries under the collection's name. Document-typed entries are compiled recursively and memoised.
- **The change log** (`DocumentDbDSPUpdateProvider`), in `update_provider.dfy`:
  - creating, modifying and deleting resources records pending changes;
  - `SaveChanges` replays them in order as store operations, then clears the log.
- **The connection-string parser** (`DocumentDbContext.GetClient`), in `connection_string.dfy`.

Exceptions that the source lets escape are modelled as `Result` failures or an `ok = false` outcome. State that the source mutates in place is modelled as Dafny classes: the metadata cache, the cache registry, the metadata builder, the update provider and the context.

## Model

| member | source | states |
|---|---|---|
| TypeResolver.MapToDotNetType | DocumentDB.Context/DocumentDbMetadata.cs:446-469 | a CLR type exactly for the eight scalar token kinds; string and byte[] are the reference types among them; String maps to string and Integer to int |
| TypeResolver.GetRawValueType | DocumentDB.Context/DocumentDbMetadata.cs:436-444 | defined exactly when the mapper knows the token; a value type is wrapped in Nullable unless it is a key |
| TypeResolver.RawValueTypeWrapping | DocumentDB.Context/DocumentDbMetadata.cs:436-444 | strings, byte arrays and keys stay plain; every other mapped scalar becomes Nullable |
| TypeResolver.ResolveProviderType | DocumentDB.Context/DocumentDbMetadata.cs:384-398 | JArray and JObject values give their own token type; mapped scalars give the raw value type; anything else gives null; the result is never the Document tag |
| TypeResolver.ToLower | DocumentDB.Context/DocumentDbMetadata.cs:402 | the case folding of the comparison: upper-case ASCII letters move down by 32, every other character is kept |
| TypeResolver.ObjectIdSpellings | DocumentDB.Context/DocumentDbMetadata.cs:400-403 | under ASCII case folding, a member name is the object id exactly when it is one of id, iD, Id, ID |
| TypeResolver.GetElementType | DocumentDB.Context/DocumentDbMetadata.cs:405-434 | an id member gives string when it is a key and its raw type otherwise; an array or object gives its token type; a mapped scalar gives its raw type; any other value gives string |
| TypeResolver.NormalizeResourcePropertyName | DocumentDB.Context/DocumentDbMetadata.cs:493-497 | the trimmed name, prefixed with "x" exactly when it starts with "_"; the result never starts with "_" and has no white space at either end |
| TypeResolver.NormalizeIdempotent | DocumentDB.Context/DocumentDbMetadata.cs:493-497 | normalising a normalised name changes nothing |
| TypeResolver.GetResourcePropertyName | DocumentDB.Context/DocumentDbMetadata.cs:486-491 | an id member of an entity type is named "id"; every other member gets its normalised name |
| TypeResolver.ComplexIdKeepsSpelling | DocumentDB.Context/DocumentDbMetadata.cs:486-491 | in a complex type an id member keeps its own spelling |
| TypeResolver.GetQualifiedTypeName | DocumentDB.Context/DocumentDbMetadata.cs:471-474 | with global complex type names off, owner + "__" + name |
| TypeResolver.GetQualifiedTypePrefix | DocumentDB.Context/DocumentDbMetadata.cs:476-479 | with global complex type names off, the owner name itself |
| TypeResolver.GetQualifiedPropertyName | DocumentDB.Context/DocumentDbMetadata.cs:481-484 | type name + "." + property name |
| TypeResolver.FullName | DocumentDB.Context/DocumentDbMetadata.cs:100 | the namespace-qualified name "DocumentDB." + name, from which the name can be read back |
| TypeResolver.FullNameInjective | DocumentDB.Context/DocumentDbMetadata.cs:96-102 | two names with the same full name are equal, so type lookup by full name finds the one type of that name |
| TypeResolver.FieldOfQualifiedName | DocumentDB.Context/Queryable/DocumentDbQueryableDataService.cs:56 | the last '.'-segment of a qualified property name is the property name when the name has no '.' |
| Strings.IndexOf | DocumentDB.Context/DocumentDbContext.cs:49 | -1 exactly when the character is absent; otherwise the position of its first occurrence |
| Strings.SplitPiecesFree | DocumentDB.Context/DocumentDbContext.cs:47 | no piece of a Split contains the separator |
| Strings.JoinSplit | DocumentDB.Context/DocumentDbContext.cs:47 | joining the pieces of a Split with the separator gives back the string |
| Strings.JoinSplitLength | DocumentDB.Context/Queryable/DocumentDbQueryableDataService.cs:74-75 | joining the pieces of a Split with a non-empty separator never gives a shorter string |
| Strings.LastPieceOfSplit | DocumentDB.Context/Queryable/DocumentDbQueryableDataService.cs:56 | `Split(c).Last()` is the separator-free text after the last separator |
| Strings.TrimStartSpec | DocumentDB.Context/DocumentDbMetadata.cs:495 | trimming the front leaves a suffix that starts with no white space, and removes only white space |
| Strings.TrimEndSpec | DocumentDB.Context/DocumentDbMetadata.cs:495 | trimming the end leaves a prefix that ends with no white space, and removes only white space |
| Strings.TrimOfTrimmed | DocumentDB.Context/DocumentDbMetadata.cs:495 | Trim is idempotent |
| Strings.TrimEnds | DocumentDB.Context/DocumentDbMetadata.cs:495 | a trimmed string is empty or has no white space at either end |
| Json.PropertyChildren | DocumentDB.Context/DocumentDbMetadata.cs:211-213 | enumerating a token as JProperty children: an object's members; a non-empty array or a property throws (None); the children are smaller than the token |
| Json.ChildTokens | DocumentDB.Context/DocumentDbMetadata.cs:353 | the items of an array value, each smaller than the array |
| MetadataStore.ResolveResourceSet | DocumentDB.Context/DocumentDbMetadata.cs:183-186 | a set is found exactly when one of that name exists, and then names its entity type |
| MetadataStore.TryResolveResourceType | DocumentDB.Context/DocumentDbMetadata.cs:100 | finds the type whose full name is the one asked for, or reports that none has it |
| MetadataStore.FindProperty | DocumentDB.Context/DocumentDbMetadata.cs:110-113 | the property of that name, or None exactly when no property has it |
| MetadataStore.Lookup | DocumentDB.Context/DocumentDbMetadata.cs:378 | the provider type under a key, defined exactly when the dictionary contains the key |
| MetadataStore.MetadataCache.constructor | DocumentDB.Context/DocumentDbMetadata.cs:90 | a new cache has an empty schema, no provider types and no generated types |
| Unresolved.RemoveFirstMembers | DocumentDB.Context/DocumentDbMetadata.cs:15-33 | with value equality on (type, name) and no duplicates, Remove takes out exactly that entry and keeps the list duplicate-free |
| Unresolved.TrackMembers | DocumentDB.Context/DocumentDbMetadata.cs:243-249 | after the bookkeeping the entry is listed exactly when its value type is still unknown; other entries are untouched; no duplicates |
| SchemaBuilder.ResolveResourceType | DocumentDB.Context/DocumentDbMetadata.cs:96-102 | found exactly when a type of the name qualified by the owner prefix exists, and it is that type |
| SchemaBuilder.ResolveResourceProperty | DocumentDB.Context/DocumentDbMetadata.cs:104-113 | the one declared property whose name is the member's resource property name, or None exactly when none has that name |
| SchemaBuilder.GetCollectionNames | DocumentDB.Context/DocumentDbMetadata.cs:115-120 | exactly the collections whose id does not start with "system." (compared ordinally), in order |
| SchemaBuilder.SampleSize | DocumentDB.Context/DocumentDbMetadata.cs:165-180 | how many documents the loop reads: all of them for a negative limit or one at least as large as the collection; exactly the limit otherwise; one for a zero limit on a non-empty collection |
| SchemaBuilder.SampleSizeReached | DocumentDB.Context/DocumentDbMetadata.cs:177-179 | the loop's break condition stops the loop exactly at the sample size |
| SchemaBuilder.SamplePlanSnoc | DocumentDB.Context/DocumentDbMetadata.cs:126-141 | each further collection adds its own sampled documents, tagged with its name, to those already read, and none when prefetching is off |
| SchemaBuilder.ArrayScannedStep | DocumentDB.Context/DocumentDbMetadata.cs:353-371 | one array item: null and array items change nothing; the first other item declares the collection of its type, and only the first declares it |
| SchemaBuilder.FirstElementIndex | DocumentDB.Context/DocumentDbMetadata.cs:353-371 | the first item that is neither null nor an array, or -1 when there is none |
| SchemaBuilder.IdNamedBeforeExists | DocumentDB.Context/DocumentDbMetadata.cs:208-217 | the loop's hasObjectId flag is set exactly when some member read so far is id-named |
| SchemaBuilder.HasIdMemberAt | DocumentDB.Context/DocumentDbMetadata.cs:208-217 | at the end of the member loop the flag says whether the document has an id member |
| SchemaBuilder.DeclaredAsStringGrows | DocumentDB.Context/DocumentDbMetadata.cs:143-150 | an unresolved member declared as a string stays declared as the schema and the provider types grow |
| SchemaBuilder.DeclaredAsStringsAll | DocumentDB.Context/DocumentDbMetadata.cs:143-150 | after the flush every unresolved member is a string property of its type and has a string provider entry |
| SchemaBuilder.CacheRegistry.constructor | DocumentDB.Context/DocumentDbMetadata.cs:50 | the process-wide cache dictionary starts empty |
| SchemaBuilder.CacheRegistry.GetOrCreateMetadataCache | DocumentDB.Context/DocumentDbMetadata.cs:84-94 | the registered cache of the connection string, or a fresh empty one registered under it |
| SchemaBuilder.CacheRegistry.ResetDSPMetadata | DocumentDB.Context/DocumentDbMetadata.cs:79-82 | every cache is forgotten |
| SchemaBuilder.DocumentDbMetadata.constructor | DocumentDB.Context/DocumentDbMetadata.cs:58-72 | keeps the connection string and configuration and shares the cache registered for the connection string |
| SchemaBuilder.DocumentDbMetadata.StoreType | DocumentDB.Context/DocumentDbMetadata.cs:204-206 | AddEntityType/AddComplexType: succeeds exactly when the store accepts the type, and then adds it with no properties |
| SchemaBuilder.DocumentDbMetadata.StoreProperty | DocumentDB.Context/DocumentDbMetadata.cs:273-288 | adding a property succeeds exactly when the store accepts it, and then the property is found under its name |
| SchemaBuilder.DocumentDbMetadata.StoreResourceSet | DocumentDB.Context/DocumentDbMetadata.cs:229-230 | the set named after the collection is added exactly when the store accepts it |
| SchemaBuilder.DocumentDbMetadata.AddProviderType | DocumentDB.Context/DocumentDbMetadata.cs:374-382 | a resolvable member gets an entry under Type.member unless the key is taken; existing entries never change |
| SchemaBuilder.DocumentDbMetadata.AddDocumentType | DocumentDB.Context/DocumentDbMetadata.cs:202-233 | a new type of the given kind in which every member of the document is registered (MembersRegistered); an entity with an id member whose value has a type has an "id" property; without an id member an entity type gets the string key "id", and the id provider entry is recorded; an entity type gets a set of its name; the schema only grows |
| SchemaBuilder.DocumentDbMetadata.RegisterMembers | DocumentDB.Context/DocumentDbMetadata.cs:209-218 | a document that cannot be read as properties throws; otherwise every member is registered and hasObjectId tells whether it has an id member |
| SchemaBuilder.DocumentDbMetadata.RegisterMemberList | DocumentDB.Context/DocumentDbMetadata.cs:211-217 | the member loop: every member ends registered (declared under its resource name; listed as unresolved while its value has no type; or an array with no item to declare, or of objects whose item type already exists) and the id flag says whether one is id-named |
| SchemaBuilder.DocumentDbMetadata.RegisterMemberAt | DocumentDB.Context/DocumentDbMetadata.cs:211-216 | one iteration: the member joins the registered ones, the earlier ones stay registered, and the flag is updated |
| SchemaBuilder.MembersRegisteredKept | DocumentDB.Context/DocumentDbMetadata.cs:211-217 | registering a later member, which only grows the schema and keeps other names' unresolved entries, leaves the earlier members registered |
| SchemaBuilder.MembersRegisteredGrows | DocumentDB.Context/DocumentDbMetadata.cs:219-232 | declaring the key and the set after the member loop leaves every member registered |
| SchemaBuilder.TypedIdRegistered | DocumentDB.Context/DocumentDbMetadata.cs:211-216 | an entity whose members are registered and which has an id member of known type has an "id" property |
| SchemaBuilder.DocumentDbMetadata.RegisterMember | DocumentDB.Context/DocumentDbMetadata.cs:213-216 | as RegisterResourceProperty: a declared member changes nothing; an undeclared one is listed exactly when its value has no type; the member ends registered; the type's other unresolved entries are untouched |
| SchemaBuilder.DocumentDbMetadata.CompleteDocumentType | DocumentDB.Context/DocumentDbMetadata.cs:220-230 | without an id member: the key "id" for an entity type and the id provider entry; then the set of an entity type |
| SchemaBuilder.DocumentDbMetadata.RegisterResourceProperty | DocumentDB.Context/DocumentDbMetadata.cs:235-257 | a declared member changes nothing; an undeclared one is listed as unresolved exactly when its value type is unknown, and is declared when it is known (an array when an item other than null or an array exists, unless all its items are objects of an item type that already exists); the member ends registered and the type's entries for other names are untouched |
| SchemaBuilder.DocumentDbMetadata.TrackUnresolved | DocumentDB.Context/DocumentDbMetadata.cs:243-249 | adds the entry when it is new and unresolved, removes it when it was listed and is now resolved |
| SchemaBuilder.DocumentDbMetadata.AddResourceProperty | DocumentDB.Context/DocumentDbMetadata.cs:259-295 | an empty name changes nothing; an entity id becomes the key; a scalar becomes a primitive property of its raw type; an object becomes a complex property of type owner__name; an array is declared once it has an item other than null or an array, unless all its items are objects of an item type that already exists; a resolvable member gets its provider entry; a non-scalar id in a complex type throws |
| SchemaBuilder.DocumentDbMetadata.DeclareProperty | DocumentDB.Context/DocumentDbMetadata.cs:262-289 | the branch on the element type, with the same outcomes as AddResourceProperty (arrays included), and whether the member was the id |
| SchemaBuilder.DocumentDbMetadata.DeclareIdProperty | DocumentDB.Context/DocumentDbMetadata.cs:270-277 | the id member becomes the key (string) or a primitive of its raw type; an unknown raw type throws |
| SchemaBuilder.DocumentDbMetadata.AddComplexType | DocumentDB.Context/DocumentDbMetadata.cs:341-342 | a new complex type in which every member of the nested object is registered |
| SchemaBuilder.DocumentDbMetadata.AddDocumentProperty | DocumentDB.Context/DocumentDbMetadata.cs:331-348 | a new complex type owner__name and a complex (or collection) property of that type; a collection that names an existing set throws |
| SchemaBuilder.DocumentDbMetadata.DocumentPropertyType | DocumentDB.Context/DocumentDbMetadata.cs:333-343 | the entity type of the set named after the owner when there is one, with nothing changed; otherwise the new complex type owner__name, added exactly when the store accepts it |
| SchemaBuilder.DocumentDbMetadata.StoreDocumentProperty | DocumentDB.Context/DocumentDbMetadata.cs:344-347 | the collection or complex property is added only when undeclared and of a complex type |
| SchemaBuilder.DocumentDbMetadata.RegisterArrayProperty | DocumentDB.Context/DocumentDbMetadata.cs:350-372 | for an array without objects: nothing changes when every item is null or an array or the property exists; otherwise the first other item decides the collection's item type. For any array: an item other than null or an array leaves the property declared, unless all items are objects of an item type that already existed; objects of a new item type, with no scalar item, make it a collection of owner__name |
| SchemaBuilder.ArrayWalkedStep | DocumentDB.Context/DocumentDbMetadata.cs:353-371 | one item of any array: null and array items change nothing, an object of a new item type declares the collection of owner__name, a scalar leaves the property declared |
| SchemaBuilder.ArrayWalkedEnd | DocumentDB.Context/DocumentDbMetadata.cs:353-371 | after the walk, an array with an item other than null or an array has its property declared, or holds only objects of an item type that existed before |
| SchemaBuilder.DocumentDbMetadata.RegisterArrayItem | DocumentDB.Context/DocumentDbMetadata.cs:353-371 | one iteration of the array loop keeps the scan invariant, or throws on the first declarable item |
| SchemaBuilder.DocumentDbMetadata.RegisterItemDocument | DocumentDB.Context/DocumentDbMetadata.cs:358-361 | an object item whose nested type is unknown makes the property a collection of the new type owner__name; for a known nested type every member of the item is registered in it |
| SchemaBuilder.DocumentDbMetadata.DeclareCollection | DocumentDB.Context/DocumentDbMetadata.cs:362-370 | an undeclared property met with a non-array item becomes a collection of the item's mapped type, when the store accepts it |
| SchemaBuilder.DocumentDbMetadata.RegisterDocumentProperties | DocumentDB.Context/DocumentDbMetadata.cs:297-312 | an unknown nested type becomes a collection property of the new type owner__name; for a known one every member of the value ends registered in it, and a value that cannot be read as properties throws |
| SchemaBuilder.DocumentDbMetadata.RegisterDocumentProperty | DocumentDB.Context/DocumentDbMetadata.cs:314-329 | a declared key or primitive, or a null value, changes nothing; an undeclared member goes through RegisterResourceProperty; the member ends registered and the type's entries for other names are untouched |
| SchemaBuilder.DocumentDbMetadata.RegisterDocumentPropertyAt | DocumentDB.Context/DocumentDbMetadata.cs:308-311 | one iteration of the member loops over a later document: the member joins the registered ones and the earlier ones stay registered |
| SchemaBuilder.DocumentDbMetadata.UpdateResourceSet | DocumentDB.Context/DocumentDbMetadata.cs:194-200 | every member of a later document ends registered in the collection's type; the schema only grows and the sets do not change |
| SchemaBuilder.DocumentDbMetadata.AddResourceSet | DocumentDB.Context/DocumentDbMetadata.cs:188-192 | the entity type and the set of the collection, keyed by "id" when the document has no id member |
| SchemaBuilder.DocumentDbMetadata.PopulateMetadataFromCollection | DocumentDB.Context/DocumentDbMetadata.cs:154-181 | reads exactly the sample size of documents in order; a non-empty collection ends with its set, an empty one changes nothing; no other set is added |
| SchemaBuilder.DocumentDbMetadata.ReadDocument | DocumentDB.Context/DocumentDbMetadata.cs:166-176 | the first document creates the set, later ones update it; no other set is added |
| SchemaBuilder.DocumentDbMetadata.PopulateCollection | DocumentDB.Context/DocumentDbMetadata.cs:128-140 | with PrefetchRows 0 an existing set changes nothing and a missing one is created, its entity type holding only the key "id"; otherwise the collection is sampled, and an empty one changes nothing; the only set that can appear is the collection's own, and only when it qualifies |
| SchemaBuilder.DocumentDbMetadata.FlushUnresolved | DocumentDB.Context/DocumentDbMetadata.cs:143-150 | every unresolved member ends declared as a string, or the pass throws |
| SchemaBuilder.DocumentDbMetadata.FlushFrom | DocumentDB.Context/DocumentDbMetadata.cs:143-150 | the remaining iterations of the flush keep every earlier member declared |
| SchemaBuilder.DocumentDbMetadata.DeclareUnresolved | DocumentDB.Context/DocumentDbMetadata.cs:145-149 | one iteration of the flush extends the declared prefix by one member |
| SchemaBuilder.DocumentDbMetadata.DeclareAsString | DocumentDB.Context/DocumentDbMetadata.cs:145-149 | succeeds exactly when the store accepts a string property of the normalised name and its provider key is new, and then records both |
| SchemaBuilder.DocumentDbMetadata.StoreProviderEntry | DocumentDB.Context/DocumentDbMetadata.cs:148-149 | Dictionary.Add of a new key: the key maps to the type and older keys are unchanged |
| SchemaBuilder.DocumentDbMetadata.PopulateMetadata | DocumentDB.Context/DocumentDbMetadata.cs:122-152 | the non-system collections are sampled in order; a set is new exactly when it belongs to a non-system collection that qualifies (PrefetchRows 0, or a document to read); then every unresolved member is a string property |
| SchemaBuilder.DocumentDbMetadata.PopulateCollections | DocumentDB.Context/DocumentDbMetadata.cs:126-141 | the collection loop: the sampled documents are the sample plan of the collections, each qualifying collection has its set, and every new set belongs to one |
| SchemaBuilder.DocumentDbMetadata.PopulateNext | DocumentDB.Context/DocumentDbMetadata.cs:126-141 | one iteration of the collection loop extends the sample plan and the created sets by one collection, and adds no set of another collection |
| SchemaBuilder.SetsOnlyForStep | DocumentDB.Context/DocumentDbMetadata.cs:126-141 | when one more collection adds only its own set, and only if it qualifies, every new set still belongs to a qualifying collection among those visited |
| Materializer.CollectionCriteriaIsPrefix | DocumentDB.Context/Queryable/DocumentDbQueryableDataService.cs:43-46 | with global complex type names off, a collection selects exactly the keys under "collectionName." |
| Materializer.NestedPrefix | DocumentDB.Context/Queryable/DocumentDbQueryableDataService.cs:74-75 | the prefix of a nested type's keys: longer than the type name and ending in "." |
| Materializer.SelectedMembers | DocumentDB.Context/Queryable/DocumentDbQueryableDataService.cs:53 | Where keeps exactly the entries whose key starts with the prefix |
| Materializer.SelectedPrefix | DocumentDB.Context/Queryable/DocumentDbQueryableDataService.cs:53 | the entries selected from a prefix of the provider types come first among those selected from all of them |
| Materializer.FieldNameIsLastSegment | DocumentDB.Context/Queryable/DocumentDbQueryableDataService.cs:56 | a field is named by the last '.'-segment of its key, which has no '.' |
| Materializer.RepeatedFieldName | DocumentDB.Context/Queryable/DocumentDbQueryableDataService.cs:55-57 | two selected keys with the same last segment make ToDictionary throw |
| Materializer.AddField | DocumentDB.Context/Queryable/DocumentDbQueryableDataService.cs:55-57 | adding an entry with a new field name keeps the field names distinct, makes the field map's keys the field names of the entries, and types every field by its entry |
| Materializer.CreateDynamicTypes | DocumentDB.Context/Queryable/DocumentDbQueryableDataService.cs:51-60 | the fields are exactly the last segments of the selected keys, each typed by its provider type or memoised compiled type; it fails only on a repeated field name; memoised types are only added |
| Materializer.AddEntryField | DocumentDB.Context/Queryable/DocumentDbQueryableDataService.cs:55-57 | one ToDictionary step: a new field name is added with its type; a repeated one throws |
| Materializer.GetDynamicTypeForProviderType | DocumentDB.Context/Queryable/DocumentDbQueryableDataService.cs:62-86 | a non-document type is returned as is; a memoised document type is reused; a new one is compiled from the keys under its nested prefix and memoised |
| Materializer.CreateDynamicTypeForCollection | DocumentDB.Context/Queryable/DocumentDbQueryableDataService.cs:41-49 | without document tags the type exists exactly when the collection's field names are distinct, and then each entry of the collection is a field of its provider type |
| Converter.ConvertedItemsAreConversions | DocumentDB.Context/DocumentDbDSPConverter.cs:129-147 | the array holds one raw conversion per non-null item, in order |
| Converter.NonNullItemsMembers | DocumentDB.Context/DocumentDbDSPConverter.cs:118-128 | a token is counted exactly when some slot holds it |
| Converter.NonNullItemsOfSlots | DocumentDB.Context/DocumentDbDSPConverter.cs:81-83 | an array read from JSON has no null slots, so all its items are kept in order |
| Converter.ConvertJsonValueOfNonArray | DocumentDB.Context/DocumentDbDSPConverter.cs:57-109 | every value that is not an array, a JProperty included, converts to null |
| Converter.ConvertJsonValueOfArray | DocumentDB.Context/DocumentDbDSPConverter.cs:79-85 | an empty array converts to null; a non-empty one to an object[] of as many nulls as it has items |
| Converter.ConvertJsonArray | DocumentDB.Context/DocumentDbDSPConverter.cs:111-148 | the array has one entry per non-null item, each the raw conversion of that item, in order |
| Converter.AssignNullCollections | DocumentDB.Context/DocumentDbDSPConverter.cs:189-206 | filling the collections never changes the resource's type name |
| Converter.AssignNullCollectionsUndeclared | DocumentDB.Context/DocumentDbDSPConverter.cs:189-206 | a name no declared property has keeps its value and its presence |
| Converter.AssignNullCollectionsValue | DocumentDB.Context/DocumentDbDSPConverter.cs:193-204 | a declared collection that is null becomes an empty object[]; a declared non-collection holding a nested resource is filled with its own type's properties; any other value is unchanged |
| Converter.AssignNullCollectionsKeys | DocumentDB.Context/DocumentDbDSPConverter.cs:193-204 | a name is present afterwards exactly when it was before or names a collection property |
| Converter.AssignNullCollectionsAssigns | DocumentDB.Context/DocumentDbDSPConverter.cs:189-206 | afterwards no collection property is null, at any depth of nesting |
| Converter.MatchedValuesNull | DocumentDB.Context/DocumentDbDSPConverter.cs:30-31 | every property set by the field loop is null, because the JProperty itself is converted |
| Converter.MatchedValuesDeclared | DocumentDB.Context/DocumentDbDSPConverter.cs:24-32 | only declared properties of the type are set |
| Converter.MatchedValuesKeys | DocumentDB.Context/DocumentDbDSPConverter.cs:24-32 | a property is set exactly when some document member resolves to it |
| Converter.CreateDSPResource | DocumentDB.Context/DocumentDbDSPConverter.cs:17-36 | an unknown type throws ArgumentException; a non-empty array or a JProperty as document throws; any other document (a scalar or an empty array has no members) gives a resource with the matched properties set and the collections filled |
| Converter.CreatedResourceValues | DocumentDB.Context/DocumentDbDSPConverter.cs:17-36 | a created resource holds exactly the matched properties and the collections; collections are empty arrays and every other property is null |
| Converter.JsonMembersSpec | DocumentDB.Context/DocumentDbDSPConverter.cs:38-55 | the document's keys are the declared properties with a non-null value, in order; it fails exactly when one of them is not a nested resource |
| Converter.JsonMembersFailureSticks | DocumentDB.Context/DocumentDbDSPConverter.cs:44-52 | once a property has thrown, the later properties are never reached |
| Converter.CreateJsonDocument | DocumentDB.Context/DocumentDbDSPConverter.cs:38-55 | an unknown set gives an empty document; otherwise the members of the set's type, as the loop builds them |
| Converter.PrimitivePropertyFails | DocumentDB.Context/DocumentDbDSPConverter.cs:49-50 | a resource with one non-null primitive property cannot be written: JObject.Parse rejects the serialised scalar |
| Converter.IntendedJsonMembersNames | DocumentDB.Context/DocumentDbDSPConverter.cs:44-52 | written as tokens, the document has exactly the non-null properties as keys, in order, each holding its value's token |
| Converter.JsonMembersAgree | DocumentDB.Context/DocumentDbDSPConverter.cs:44-52 | wherever the written loop succeeds it builds the intended document |
| UpdateProvider.UpsertValue | DocumentDB.Context/DocumentDbDSPUpdateProvider.cs:64-68 | after the store the name holds the new value and every other name keeps its own |
| UpdateProvider.UpsertKeys | DocumentDB.Context/DocumentDbDSPUpdateProvider.cs:64-68 | an existing name keeps its place; a new one is appended |
| UpdateProvider.UpsertDistinct | DocumentDB.Context/DocumentDbDSPUpdateProvider.cs:64-68 | the modified properties never hold a name twice |
| UpdateProvider.UpsertTwice | DocumentDB.Context/DocumentDbDSPUpdateProvider.cs:64-68 | setting a property twice is setting it once to the second value |
| UpdateProvider.FindChange | DocumentDB.Context/DocumentDbDSPUpdateProvider.cs:53-56 | the pending change of that resource and action, or -1 exactly when there is none |
| UpdateProvider.FindChangeFirst | DocumentDB.Context/DocumentDbDSPUpdateProvider.cs:53-56 | the change SetValue found is found again after SetValue, which keeps every change's resource and action |
| UpdateProvider.RecordLastWrite | DocumentDB.Context/DocumentDbDSPUpdateProvider.cs:48-69 | after SetValue the resource's Insert change, or else its Update change, holds the value; other pending values are kept |
| UpdateProvider.RecordOthersUnchanged | DocumentDB.Context/DocumentDbDSPUpdateProvider.cs:48-69 | SetValue adds at most one change and leaves other resources' changes, and every change's resource and action, as they were |
| UpdateProvider.RecordValid | DocumentDB.Context/DocumentDbDSPUpdateProvider.cs:53-61 | SetValue keeps at most one Insert and one Update per resource, so SingleOrDefault never throws |
| UpdateProvider.PerformUpdate | DocumentDB.Context/DocumentDbDSPUpdateProvider.cs:119-135 | an update sets each non-null modified property and unsets each null one, in order |
| UpdateProvider.ExecutedAppend | DocumentDB.Context/DocumentDbDSPUpdateProvider.cs:85-89 | replaying is done change by change, in order |
| UpdateProvider.ExecutedMembers | DocumentDB.Context/DocumentDbDSPUpdateProvider.cs:85-89 | every store operation comes from a pending change, and every change that does something appears |
| UpdateProvider.ExecutedLength | DocumentDB.Context/DocumentDbDSPUpdateProvider.cs:85-89 | at most one operation per change; exactly one when no update is empty |
| UpdateProvider.DocumentDbDSPUpdateProvider.constructor | DocumentDB.Context/DocumentDbDSPUpdateProvider.cs:32-37 | keeps the connection string and starts with no pending changes |
| UpdateProvider.ResourceTypeName | DocumentDB.Context/DocumentDbDSPUpdateProvider.cs:40-42 | the name of the type filed under a full type name in the DocumentDB namespace: its full name is the one given |
| UpdateProvider.ResourceTypeNameOfFullName | DocumentDB.Context/DocumentDbDSPUpdateProvider.cs:40-42 | a resource created under a type's full name carries the type's own name, the one DeleteResource and SetValue log |
| UpdateProvider.DocumentDbDSPUpdateProvider.CreateResource | DocumentDB.Context/DocumentDbDSPUpdateProvider.cs:40-46 | a fresh resource named by its type's short name, with an Insert change on the container appended |
| UpdateProvider.DocumentDbDSPUpdateProvider.SetValue | DocumentDB.Context/DocumentDbDSPUpdateProvider.cs:48-69 | the log becomes Record(log, resource, name, value) and stays valid |
| UpdateProvider.DocumentDbDSPUpdateProvider.DeleteResource | DocumentDB.Context/DocumentDbDSPUpdateProvider.cs:71-77 | a Remove change on the resource's type is appended |
| UpdateProvider.DocumentDbDSPUpdateProvider.UpdateDocument | DocumentDB.Context/DocumentDbDSPUpdateProvider.cs:110-138 | no operation without modified properties; otherwise the update of PerformUpdate |
| UpdateProvider.DocumentDbDSPUpdateProvider.SaveChanges | DocumentDB.Context/DocumentDbDSPUpdateProvider.cs:79-93 | a bad connection string throws and keeps the log; otherwise every change is replayed in order and the log is emptied |
| UpdateProvider.DocumentDbDSPUpdateProvider.ClearChanges | DocumentDB.Context/DocumentDbDSPUpdateProvider.cs:95-100 | the log is emptied |
| ConnectionString.KeyValue | DocumentDB.Context/DocumentDbContext.cs:49-50 | an item without '=' throws; otherwise key + "=" + value is the item and the key has no '=' |
| ConnectionString.KeyValueOfJoined | DocumentDB.Context/DocumentDbContext.cs:49-50 | cutting at the first '=' gives back any key without '=' and any value, '=' signs in the value included |
| ConnectionString.ParseItemsFails | DocumentDB.Context/DocumentDbContext.cs:47-63 | parsing fails exactly when some item has no '=' |
| ConnectionString.ParseItemsFirstFailure | DocumentDB.Context/DocumentDbContext.cs:47-63 | the exception comes from the first item without '=' |
| ConnectionString.ParseItemsFailureSticks | DocumentDB.Context/DocumentDbContext.cs:47-63 | once an item has thrown, the later items are never read |
| ConnectionString.ParseItemsValues | DocumentDB.Context/DocumentDbContext.cs:44-63 | each recognised key takes the value of its last item, or string.Empty |
| ConnectionString.UnknownKeyIgnored | DocumentDB.Context/DocumentDbContext.cs:51-62 | an item with an unrecognised key changes nothing |
| ConnectionString.TrailingSeparatorFails | DocumentDB.Context/DocumentDbContext.cs:47-49 | a connection string that ends in ';' always throws |
| ConnectionString.EmptyConnectionStringFails | DocumentDB.Context/DocumentDbContext.cs:47-49 | an empty connection string throws |
| ConnectionString.Connect | DocumentDB.Context/DocumentDbContext.cs:16-21 | a parse failure is the constructor's failure; a client is made only for a non-empty endpoint, and the database wraps it |
| ConnectionString.DocumentDbContext.Init | DocumentDB.Context/DocumentDbContext.cs:16-21 | the context keeps its connection string and has no database name before GetClient |
| ConnectionString.DocumentDbContext.Create | DocumentDB.Context/DocumentDbContext.cs:16-21 | fails exactly when Connect fails; otherwise a fresh context with that client and database |
| ConnectionString.DocumentDbContext.GetClient | DocumentDB.Context/DocumentDbContext.cs:42-67 | the loop computes the parse of the items; the database name is recorded only after the loop completes; an empty endpoint makes the Uri throw |

## Left out

- Network and store I/O:
  - the database, collection and document queries;
  - Insert, Update and Remove against the store;
  - the `new Uri` and `DocumentClient` objects.

  Collections and their documents are parameters. Replayed changes are returned as `Operation` values.
- `DocumentDbContext.GetClient`: `new Uri` is modelled as rejecting only the empty endpoint. The rest of System.Uri's validation is not modelled.
- The `lock` statements: concurrency is not modelled.
- FetchPosition (commented out in the source).
- The JSON serialiser (`JsonConvert.SerializeObject`, `JObject.Parse`). The serialisation of a nested resource is a parameter. Any other non-null value is taken to serialise to non-object text.
- Floating point and date values. A scalar token is modelled only by its kind.
- `DocumentTypeBuilder.CompileDocumentType`: a compiled type is modelled by its field map (`Shape`).
- The metadata store (`DocumentDbMetadataCache`, `DSPMetadata`) is not part of this model. Its behaviour is assumed to be that of the OData DSP sample:
  - it rejects duplicate type names, duplicate set names, and empty or duplicate property names;
  - it rejects a key on a complex type;
  - it rejects a complex or collection property whose item type is an entity type;
  - it rejects a set whose type is not an entity type.
- `TypeResolver.ToLower`: the case-insensitive comparison of IsObjectId is modelled by ASCII case folding only. The invariant-culture comparison of the source also ignores code points of zero weight, which ASCII folding does not.
- `Materializer.CollectionCriteriaIsPrefix`: `StartsWith(collectionName + ".")` (DocumentDbQueryableDataService.cs:44) is compared ordinally. The source's culture-sensitive StartsWith also selects, for the collection "Coll", a key such as "C\u00ADoll.x" of a collection "C\u00ADoll" (with a soft hyphen), which the model leaves out.
- `Materializer.GetDynamicTypeForProviderType`: the nested-prefix criterion (DocumentDbQueryableDataService.cs:75) is compared ordinally, while the source's StartsWith is culture-sensitive and also accepts keys that differ from the prefix only by ignorable code points such as U+00AD.
- `Materializer.CreateDynamicTypeForCollection`: the collection's entries are chosen by the ordinal criterion of CollectionCriteriaIsPrefix. Under the source's culture-sensitive StartsWith (DocumentDbQueryableDataService.cs:44) a key such as "C\u00ADoll.x" would also become a field of "Coll", or a repeated field name that makes the type fail.
- `TypeResolver.ObjectIdSpellings`: holds for the ordinal, ASCII-folded comparison of the model. Under the invariant culture a name with an ignorable code point, such as "i\u00ADd" (with a soft hyphen), is also the object id.
- `TypeResolver.NormalizeResourcePropertyName`: `StartsWith("_")` is compared ordinally. The source's culture-sensitive StartsWith also matches a name such as "\u00AD_x", which the model leaves without the "x" prefix.
- `SchemaBuilder.GetCollectionNames`: `StartsWith("system.")` is compared ordinally. The source's culture-sensitive StartsWith also drops an id such as "\u00ADsystem.a", which the model keeps.
- Token kinds Json.NET has beyond those listed in `Json.Token` (Comment, Raw, Undefined, Constructor, Uri). These are not produced when documents are read.
- `SchemaBuilder.DocumentDbMetadata.PopulateMetadataFromCollection`: states that a non-empty collection has its set. It does not state what the set's type contains.
- `SchemaBuilder.DocumentDbMetadata.constructor`: runs up to the schema pass. The pass itself is the separate method PopulateMetadata, called with the collections as its argument.
- `SchemaBuilder.DocumentDbMetadata.DeclareProperty`: computes `treatObjectIdAsKey` (the entity-type check of line 253) itself, instead of taking it as a parameter.
- `SchemaBuilder.DocumentDbMetadata.FlushFrom`: the flush's `foreach` is modelled as recursion over the remaining members. Two members whose names normalise to the same property make the store or `ProviderTypes.Add` throw; that ends the pass with `ok = false`.
- `SchemaBuilder.MemberRegistered`: the per-member facts of AddDocumentType, AddComplexType, RegisterMemberList, RegisterDocumentProperties, RegisterItemDocument and UpdateResourceSet are stated for documents whose member names are distinct, as a JObject's always are. A member whose name normalises to the empty string is skipped, as the source skips it. Two kinds of array that is not id-named count as registered with no property in the owner type, as the source leaves them:
  - an array whose items are all null or arrays, which declares nothing (DocumentDbMetadata.cs:364-365);
  - an array whose items are only objects (and nulls or arrays) when the item type owner__name already exists. Its items are registered in that item type (DocumentDbMetadata.cs:305-310). For a single item RegisterItemDocument states this; it is not carried over every item of the array, because a later item may resolve and remove an unresolved entry of an earlier one.
- `SchemaBuilder.DocumentDbMetadata.RegisterArrayProperty`: for an array holding objects of an item type that already exists, it states that the type existed, not that each item's members are registered in it. RegisterItemDocument states that per item.
- `SchemaBuilder.DocumentDbMetadata.AddDocumentType`: for an entity with an id member whose value has a type, it states that the type has an "id" property, not that this is the key. A member such as " id", which trims to "id", may come first and declare a primitive "id"; the id member then finds that property and adds nothing. An id member with a null value ("id": null) is only listed as unresolved, yet it still sets hasObjectId (DocumentDbMetadata.cs:215-216), so such an entity gets no key: the flush later declares "id" as a string property.
- `SchemaBuilder.DeclaredAsString`: states a property by membership. It does not state that the property is the one found under its name.
- Converter: resources are modelled as values, so a nested resource is rebuilt instead of updated in place. No other holder of the nested resource exists, so nothing observable is lost.
  - `Converter.AssignNullCollections` reads every value from the resource as it was before the pass. Property names are distinct, so this is what the in-place loop reads.
- Converter: the `typeof(Document)` branches of `ConvertJsonValue` and `ConvertJsonArray` never match a Json.NET token. They are left out, together with the nested `CreateDSPResource` call they would make.
- `Converter.ConvertRawValue` returns null, as written, because the conversion is commented out. So the `Convert.ChangeType` coercion never runs and is not modelled.
- UpdateProvider: the base `DSPUpdateProvider` calls are not part of this model:
  - the base applies values to in-memory resources;
  - the base resolves a type name against the metadata and throws when it is unknown.
- `UpdateProvider.DocumentDbDSPUpdateProvider.CreateResource`: the full type name is not looked up in the metadata. The resource is named by what follows "DocumentDB.", and a name outside that namespace, which the base provider rejects, is kept as it is.
- `UpdateProvider.DocumentDbDSPUpdateProvider.SaveChanges`: the per-change store operations are returned, not executed. This leaves out:
  - `InsertDocument`'s document construction (`CreateBSonDocument`, which is not part of this model);
  - its write-back of the generated id;
  - the `ObjectId.Parse` of the update and remove queries.

## Findings

| source | as written | input that shows it | evidently intended | confidence | as-written member | corrected member |
|---|---|---|---|---|---|---|
| DocumentDB.Context/DocumentDbDSPConverter.cs:49-50 | each non-null property value is serialised and re-parsed with `JObject.Parse` | a resource whose declared property `name` holds the string "a": the text `"a"` is not a JSON object, so `JObject.Parse` throws. An empty collection (`[]`) does the same. | each value written as the JSON token it serialises to, so every non-null property appears in the document | not executed | Converter.PrimitivePropertyFails | Converter.IntendedJsonMembersNames |
