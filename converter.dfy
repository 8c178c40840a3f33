/**
 * DocumentDbDSPConverter: turns a JSON document into a DSPResource of a
 * declared resource type, and a DSPResource back into a JSON document.
 *
 * Resources are modelled as values: a DSPResource is its type name and its
 * property dictionary. As written, the conversion of scalars is a stub
 * (ConvertRawValue returns null), the `typeof(Document)` checks can never hold
 * for a Json.NET token, and CreateDSPResource hands the JProperty itself, not
 * its value, to ConvertJsonValue; the model keeps all three.
 */
module Converter {
  import opened Wrappers
  import opened Json
  import opened MetadataStore
  import opened SchemaBuilder
  import TypeResolver

  /** A CLR property value: null, a primitive (named by the token it came from), an object[] or a nested DSPResource. */
  datatype Value =
    | NullValue
    | PrimitiveValue(token: Token)
    | ArrayValue(items: seq<Value>)
    | ResourceValue(resource: DSPResource)

  /** A DSPResource: the name of its resource type and its property dictionary. */
  datatype DSPResource = DSPResource(typeName: string, values: map<string, Value>)

  /** The exceptions the converter lets escape. */
  datatype ConvertError =
    | UnresolvedResourceType(resourceName: string)  // ArgumentException, "Unable to resolve resource type"
    | NullElement                                   // a child of the document that is not a JProperty
    | NotAnObject                                   // JObject.Parse of a text that is not a JSON object

  /** DSPResource.GetValue: the stored value, or null when the property was never set. */
  function GetValue(r: DSPResource, name: string): Value {
    if name in r.values then r.values[name] else NullValue
  }

  /** DSPResource.SetValue */
  function SetValue(r: DSPResource, name: string, v: Value): DSPResource {
    r.(values := r.values[name := v])
  }

  // ---------------------------------------------------------------------------
  // ConvertRawValue, ConvertJsonValue, ConvertJsonArray
  // ---------------------------------------------------------------------------

  /** ConvertRawValue: the null check and the (commented-out) conversion both end in null. */
  function ConvertRawValue(jsonValue: Option<Token>): Value {
    NullValue
  }

  /**
   * ConvertJsonValue: a non-empty array is compacted by ConvertJsonArray; any
   * other token goes through ConvertRawValue. The Document branch cannot match
   * a token, the `jsonValue == null` collection branch is dead after the
   * first null check, and the Convert.ChangeType coercion only runs on a
   * non-null raw value, of which there is none.
   */
  function ConvertJsonValue(jsonValue: Option<Token>): Value {
    match jsonValue
    case None => NullValue
    case Some(t) =>
      if t.Array? then
        if |t.items| > 0 then ArrayValue(ConvertedItems(Slots(t.items))) else NullValue
      else ConvertRawValue(jsonValue)
  }

  /** JArray.FromObject(token.ToArray()): the items of an array, every slot holding a token. */
  function Slots(items: seq<Token>): (slots: seq<Option<Token>>)
    ensures |slots| == |items|
    ensures forall i | 0 <= i < |items| :: slots[i] == Some(items[i])
  {
    seq(|items|, i requires 0 <= i < |items| => Some(items[i]))
  }

  /** The non-null slots of an array, in order. */
  function NonNullItems(slots: seq<Option<Token>>): seq<Token> {
    if slots == [] then []
    else
      var last := slots[|slots| - 1];
      NonNullItems(slots[..|slots| - 1]) + (if last.Some? then [last.value] else [])
  }

  /** What ConvertJsonArray stores: one converted value per non-null slot, in order. */
  function ConvertedItems(slots: seq<Option<Token>>): seq<Value> {
    if slots == [] then []
    else
      var last := slots[|slots| - 1];
      ConvertedItems(slots[..|slots| - 1]) + (if last.Some? then [ConvertRawValue(last)] else [])
  }

  /** The converted items are the raw conversions of the non-null items, position by position. */
  lemma {:induction false} ConvertedItemsAreConversions(slots: seq<Option<Token>>)
    ensures |ConvertedItems(slots)| == |NonNullItems(slots)|
    ensures forall k | 0 <= k < |NonNullItems(slots)| ::
      ConvertedItems(slots)[k] == ConvertRawValue(Some(NonNullItems(slots)[k]))
  {
    if slots != [] {
      ConvertedItemsAreConversions(slots[..|slots| - 1]);
    }
  }

  /** A token is among the non-null items exactly when some slot holds it. */
  lemma {:induction false} NonNullItemsMembers(slots: seq<Option<Token>>, t: Token)
    ensures t in NonNullItems(slots) <==> Some(t) in slots
  {
    if slots != [] {
      var init := slots[..|slots| - 1];
      NonNullItemsMembers(init, t);
      assert slots == init + [slots[|slots| - 1]];
    }
  }

  /** An array without null slots loses nothing: its items come out in order. */
  lemma {:induction false} NonNullItemsOfSlots(items: seq<Token>)
    ensures NonNullItems(Slots(items)) == items
  {
    if items != [] {
      var init := items[..|items| - 1];
      NonNullItemsOfSlots(init);
      assert Slots(items)[..|items| - 1] == Slots(init);
    }
  }

  /** A prefix of the slots has no more non-null items than the whole. */
  lemma {:induction false} NonNullItemsPrefix(slots: seq<Option<Token>>, i: nat)
    requires i <= |slots|
    ensures |NonNullItems(slots[..i])| <= |NonNullItems(slots)|
    decreases |slots| - i
  {
    if i < |slots| {
      NonNullItemsPrefix(slots, i + 1);
      assert slots[..i + 1][..i] == slots[..i];
    } else {
      assert slots[..i] == slots;
    }
  }

  /** Every non-array token, a JProperty included, converts to null. */
  lemma ConvertJsonValueOfNonArray(t: Token)
    requires !t.Array?
    ensures ConvertJsonValue(Some(t)) == NullValue
  {
  }

  /** An array converts to null when empty, and otherwise to as many nulls as it has items. */
  lemma ConvertJsonValueOfArray(items: seq<Token>)
    ensures |items| == 0 ==> ConvertJsonValue(Some(Array(items))) == NullValue
    ensures |items| > 0 ==> ConvertJsonValue(Some(Array(items))).ArrayValue?
    ensures |items| > 0 ==> var v := ConvertJsonValue(Some(Array(items)));
      |v.items| == |items| && forall k | 0 <= k < |items| :: v.items[k] == NullValue
  {
    if |items| > 0 {
      NonNullItemsOfSlots(items);
      ConvertedItemsAreConversions(Slots(items));
    }
  }

  /**
   * ConvertJsonArray: the first loop counts the non-null slots, the second
   * fills an object[] of that length through `valueIndex`.
   */
  method ConvertJsonArray(slots: seq<Option<Token>>) returns (propertyValue: array<Value>)
    ensures propertyValue[..] == ConvertedItems(slots)
    ensures propertyValue.Length == |NonNullItems(slots)|
  {
    ConvertedItemsAreConversions(slots);
    if |slots| == 0 {
      propertyValue := new Value[0];
      return;
    }
    var nonNullItemCount := 0;
    var index := 0;
    while index < |slots|
      invariant 0 <= index <= |slots|
      invariant nonNullItemCount == |NonNullItems(slots[..index])|
    {
      assert slots[..index + 1][..index] == slots[..index];
      if slots[index].Some? {
        nonNullItemCount := nonNullItemCount + 1;
      }
      index := index + 1;
    }
    assert slots[..index] == slots;
    propertyValue := new Value[nonNullItemCount](_ => NullValue);
    var valueIndex := 0;
    index := 0;
    while index < |slots|
      invariant 0 <= index <= |slots|
      invariant valueIndex == |ConvertedItems(slots[..index])| <= propertyValue.Length
      invariant propertyValue[..valueIndex] == ConvertedItems(slots[..index])
    {
      assert slots[..index + 1][..index] == slots[..index];
      ConvertedItemsAreConversions(slots[..index + 1]);
      NonNullItemsPrefix(slots, index + 1);
      if slots[index].Some? {
        propertyValue[valueIndex] := ConvertRawValue(slots[index]);
        valueIndex := valueIndex + 1;
      }
      index := index + 1;
    }
    assert slots[..index] == slots;
  }

  // ---------------------------------------------------------------------------
  // AssignNullCollections
  // ---------------------------------------------------------------------------

  /** resourceProperty.ResourceType.Properties: the properties of a complex property's type; a primitive type has none. */
  function PropertiesOf(s: Schema, p: ResourceProperty): seq<ResourceProperty> {
    if p.propertyType.TypeRef? && p.propertyType.typeName in s.types then s.types[p.propertyType.typeName].properties
    else []
  }

  /**
   * AssignNullCollections: in declaration order, a Collection property whose
   * value is null gets an empty object[]; a non-collection property holding a
   * nested DSPResource has the pass applied to it with the property's type.
   * Each property's value is read as it was before the pass, which is what
   * the source reads, property names being distinct.
   */
  function AssignNullCollections(s: Schema, r: DSPResource, props: seq<ResourceProperty>): (filled: DSPResource)
    ensures filled.typeName == r.typeName
    decreases r, |props|
  {
    if props == [] then r
    else
      var p := props[|props| - 1];
      var acc := AssignNullCollections(s, r, props[..|props| - 1]);
      var v := GetValue(r, p.name);
      if p.kind.Collection? then
        if v.NullValue? then SetValue(acc, p.name, ArrayValue([])) else acc
      else if v.ResourceValue? then
        assert v in r.values.Values;
        SetValue(acc, p.name, ResourceValue(AssignNullCollections(s, v.resource, PropertiesOf(s, p))))
      else acc
  }

  /** Every Collection property is non-null, recursively through nested resources. */
  predicate CollectionsAssigned(s: Schema, r: DSPResource, props: seq<ResourceProperty>)
    decreases r, |props|
  {
    if props == [] then true
    else
      var p := props[|props| - 1];
      var v := GetValue(r, p.name);
      CollectionsAssigned(s, r, props[..|props| - 1])
      && (p.kind.Collection? ==> !v.NullValue?)
      && (!p.kind.Collection? && v.ResourceValue? ==>
            (assert v in r.values.Values; CollectionsAssigned(s, v.resource, PropertiesOf(s, p))))
  }

  /** The name of some property of the list. */
  predicate Declares(props: seq<ResourceProperty>, name: string) {
    exists p | p in props :: p.name == name
  }

  /** CollectionsAssigned only looks at the values of the listed properties. */
  lemma {:induction false} CollectionsAssignedFrame(s: Schema, a: DSPResource, b: DSPResource, props: seq<ResourceProperty>)
    requires forall p | p in props :: GetValue(a, p.name) == GetValue(b, p.name)
    requires CollectionsAssigned(s, a, props)
    ensures CollectionsAssigned(s, b, props)
  {
    if props != [] {
      var init := props[..|props| - 1];
      assert forall p | p in init :: p in props;
      CollectionsAssignedFrame(s, a, b, init);
    }
  }

  /** The last property of the list only touches its own name. */
  lemma AssignNullCollectionsOther(s: Schema, r: DSPResource, props: seq<ResourceProperty>, name: string)
    requires props != [] && props[|props| - 1].name != name
    ensures var filled := AssignNullCollections(s, r, props);
      var acc := AssignNullCollections(s, r, props[..|props| - 1]);
      GetValue(filled, name) == GetValue(acc, name) && (name in filled.values <==> name in acc.values)
  {
  }

  /** A name no listed property has keeps its value and its presence. */
  lemma {:induction false} AssignNullCollectionsUndeclared(s: Schema, r: DSPResource, props: seq<ResourceProperty>, name: string)
    ensures var filled := AssignNullCollections(s, r, props);
      !Declares(props, name) ==> GetValue(filled, name) == GetValue(r, name) && (name in filled.values <==> name in r.values)
    decreases |props|
  {
    if props != [] && !Declares(props, name) {
      var init := props[..|props| - 1];
      assert forall p | p in init :: p in props;
      AssignNullCollectionsUndeclared(s, r, init, name);
      AssignNullCollectionsOther(s, r, props, name);
    }
  }

  /**
   * What AssignNullCollections does to a declared name: a null collection
   * becomes an empty array; a nested resource is filled with its own type's
   * properties; anything else is unchanged.
   */
  lemma {:induction false} AssignNullCollectionsValue(s: Schema, r: DSPResource, props: seq<ResourceProperty>, name: string)
    requires DistinctNames(props)
    ensures var filled := AssignNullCollections(s, r, props);
      forall p | p in props && p.name == name ::
        var v := GetValue(r, name);
        GetValue(filled, name)
        == if p.kind.Collection? then (if v.NullValue? then ArrayValue([]) else v)
           else if v.ResourceValue? then ResourceValue(AssignNullCollections(s, v.resource, PropertiesOf(s, p)))
           else v
    decreases |props|
  {
    if props != [] {
      var init := props[..|props| - 1];
      var last := props[|props| - 1];
      assert forall p | p in props :: p in init || p == last;
      if last.name == name {
        assert forall p | p in init :: p.name != last.name;
        AssignNullCollectionsUndeclared(s, r, init, name);
      } else {
        assert DistinctNames(init);
        AssignNullCollectionsValue(s, r, init, name);
        AssignNullCollectionsOther(s, r, props, name);
      }
    }
  }

  /** A name is present afterwards when it was before or names a Collection property. */
  lemma {:induction false} AssignNullCollectionsKeys(s: Schema, r: DSPResource, props: seq<ResourceProperty>, name: string)
    requires DistinctNames(props)
    ensures var filled := AssignNullCollections(s, r, props);
      name in filled.values <==> name in r.values || exists p | p in props :: p.name == name && p.kind.Collection?
    decreases |props|
  {
    if props != [] {
      var init := props[..|props| - 1];
      var last := props[|props| - 1];
      assert forall p | p in props :: p in init || p == last;
      assert forall p | p in init :: p in props;
      assert DistinctNames(init);
      AssignNullCollectionsKeys(s, r, init, name);
      if last.name != name {
        AssignNullCollectionsOther(s, r, props, name);
      } else {
        assert forall p | p in init :: p.name != last.name;
      }
    }
  }

  /** After the pass every Collection property is set, however deep the nesting. */
  lemma {:induction false} AssignNullCollectionsAssigns(s: Schema, r: DSPResource, props: seq<ResourceProperty>)
    requires WellFormed(s) && DistinctNames(props)
    ensures CollectionsAssigned(s, AssignNullCollections(s, r, props), props)
    decreases r, |props|
  {
    if props != [] {
      var init := props[..|props| - 1];
      var p := props[|props| - 1];
      var acc := AssignNullCollections(s, r, init);
      var filled := AssignNullCollections(s, r, props);
      assert DistinctNames(init);
      AssignNullCollectionsAssigns(s, r, init);
      assert !Declares(init, p.name);
      AssignNullCollectionsUndeclared(s, r, init, p.name);
      assert forall q | q in init :: q.name != p.name;
      assert forall q | q in init :: GetValue(acc, q.name) == GetValue(filled, q.name);
      CollectionsAssignedFrame(s, acc, filled, init);
      var v := GetValue(r, p.name);
      if !p.kind.Collection? && v.ResourceValue? {
        assert v in r.values.Values;
        var ps := PropertiesOf(s, p);
        assert DistinctNames(ps);
        AssignNullCollectionsAssigns(s, v.resource, ps);
      }
    }
  }

  // ---------------------------------------------------------------------------
  // CreateDSPResource
  // ---------------------------------------------------------------------------

  /** ResolveResourceProperty(resourceType, element), as a name. */
  function MatchedName(t: ResourceType, f: Field): (r: Option<string>)
    requires DistinctNames(t.properties)
  {
    var p := ResolveResourceProperty(t, f.name);
    if p.Some? then Some(p.value.name) else None
  }

  /** The dictionary the field loop of CreateDSPResource builds: each matched property set to the converted JProperty. */
  function MatchedValues(t: ResourceType, fields: seq<Field>): map<string, Value>
    requires DistinctNames(t.properties)
  {
    if fields == [] then map[]
    else
      var f := fields[|fields| - 1];
      var prev := MatchedValues(t, fields[..|fields| - 1]);
      var p := ResolveResourceProperty(t, f.name);
      if p.None? then prev else prev[p.value.name := ConvertJsonValue(Some(Property(f)))]
  }

  /** Every property the field loop sets is set to null: the converted JProperty. */
  lemma {:induction false} MatchedValuesNull(t: ResourceType, fields: seq<Field>)
    requires DistinctNames(t.properties)
    ensures forall k | k in MatchedValues(t, fields) :: MatchedValues(t, fields)[k] == NullValue
  {
    if fields != [] {
      MatchedValuesNull(t, fields[..|fields| - 1]);
      ConvertJsonValueOfNonArray(Property(fields[|fields| - 1]));
    }
  }

  /** Every property the field loop sets is a declared property of the type. */
  lemma {:induction false} MatchedValuesDeclared(t: ResourceType, fields: seq<Field>)
    requires DistinctNames(t.properties)
    ensures forall k | k in MatchedValues(t, fields) :: Declares(t.properties, k)
  {
    if fields != [] {
      MatchedValuesDeclared(t, fields[..|fields| - 1]);
    }
  }

  /** A property is set exactly when some field of the document resolves to it. */
  lemma {:induction false} MatchedValuesKeys(t: ResourceType, fields: seq<Field>, k: string)
    requires DistinctNames(t.properties)
    ensures k in MatchedValues(t, fields) <==> exists i | 0 <= i < |fields| :: MatchedName(t, fields[i]) == Some(k)
  {
    if fields != [] {
      var init := fields[..|fields| - 1];
      MatchedValuesKeys(t, init, k);
      var f := fields[|fields| - 1];
      if k in MatchedValues(t, fields) && MatchedName(t, f) != Some(k) {
        var i :| 0 <= i < |init| && MatchedName(t, init[i]) == Some(k);
        assert fields[i] == init[i];
      }
      if exists i | 0 <= i < |fields| :: MatchedName(t, fields[i]) == Some(k) {
        var i :| 0 <= i < |fields| && MatchedName(t, fields[i]) == Some(k);
        if i < |init| {
          assert init[i] == fields[i];
        }
      }
    }
  }

  /**
   * CreateDSPResource: resolve the resource type (ArgumentException when
   * unknown), set every document field that matches a declared property, then
   * assign empty arrays to the null collections.
   */
  method CreateDSPResource(s: Schema, document: Token, resourceName: string, ownerPrefix: string)
    returns (r: Result<DSPResource, ConvertError>)
    requires WellFormed(s)
    ensures ResolveResourceType(s, resourceName, ownerPrefix).None? ==> r == Failure(UnresolvedResourceType(resourceName))
    ensures ResolveResourceType(s, resourceName, ownerPrefix).Some? && PropertyChildren(document).None? ==>
      r == Failure(NullElement)
    ensures var rt := ResolveResourceType(s, resourceName, ownerPrefix);
      var fields := PropertyChildren(document);
      rt.Some? && fields.Some? ==>
        var t := s.types[rt.value];
        r == Success(AssignNullCollections(s, DSPResource(rt.value, MatchedValues(t, fields.value)), t.properties))
  {
    var resourceType := ResolveResourceType(s, resourceName, ownerPrefix);
    if resourceType.None? {
      return Failure(UnresolvedResourceType(resourceName));
    }
    var t := s.types[resourceType.value];
    var fields := PropertyChildren(document);
    if fields.None? {
      return Failure(NullElement);
    }
    var values := map[];
    var i := 0;
    while i < |fields.value|
      invariant 0 <= i <= |fields.value|
      invariant values == MatchedValues(t, fields.value[..i])
    {
      var element := fields.value[i];
      assert fields.value[..i + 1][..i] == fields.value[..i];
      var resourceProperty := ResolveResourceProperty(t, element.name);
      if resourceProperty.Some? {
        var propertyValue := ConvertJsonValue(Some(Property(element)));
        values := values[resourceProperty.value.name := propertyValue];
      }
      i := i + 1;
    }
    assert fields.value[..i] == fields.value;
    r := Success(AssignNullCollections(s, DSPResource(resourceType.value, values), t.properties));
  }

  /**
   * The resource CreateDSPResource builds, property by property: exactly the
   * matched properties and the collections are set; a collection is an empty
   * array; every other matched property is null.
   */
  lemma CreatedResourceValues(s: Schema, t: ResourceType, typeName: string, fields: seq<Field>, name: string)
    requires WellFormed(s) && DistinctNames(t.properties)
    ensures var r := AssignNullCollections(s, DSPResource(typeName, MatchedValues(t, fields)), t.properties);
      (name in r.values <==> name in MatchedValues(t, fields) || exists p | p in t.properties :: p.name == name && p.kind.Collection?)
      && (forall p | p in t.properties && p.name == name && p.kind.Collection? :: GetValue(r, name) == ArrayValue([]))
      && (forall p | p in t.properties && p.name == name && !p.kind.Collection? :: GetValue(r, name) == NullValue)
      && CollectionsAssigned(s, r, t.properties)
  {
    MatchedValuesNull(t, fields);
    AssignNullCollectionsValue(s, DSPResource(typeName, MatchedValues(t, fields)), t.properties, name);
    AssignNullCollectionsKeys(s, DSPResource(typeName, MatchedValues(t, fields)), t.properties, name);
    AssignNullCollectionsAssigns(s, DSPResource(typeName, MatchedValues(t, fields)), t.properties);
  }

  // ---------------------------------------------------------------------------
  // CreateJsonDocument
  // ---------------------------------------------------------------------------

  /**
   * JObject.Parse(JsonConvert.SerializeObject(v)) for a non-null value: only a
   * nested resource serialises to a JSON object (its members given by the
   * serializer); a scalar or an array serialises to text JObject.Parse rejects.
   */
  function ParsedObject(v: Value, serialize: DSPResource -> seq<Field>): Option<seq<Field>> {
    if v.ResourceValue? then Some(serialize(v.resource)) else None
  }

  /** The members the loop of CreateJsonDocument adds, or the exception it stops at. */
  function JsonMembers(resource: DSPResource, props: seq<ResourceProperty>, serialize: DSPResource -> seq<Field>)
    : Result<seq<Field>, ConvertError>
  {
    if props == [] then Success([])
    else
      var p := props[|props| - 1];
      var prev := JsonMembers(resource, props[..|props| - 1], serialize);
      var v := GetValue(resource, p.name);
      if prev.Failure? || v.NullValue? then prev
      else
        var parsed := ParsedObject(v, serialize);
        if parsed.None? then Failure(NotAnObject) else Success(prev.value + [Field(p.name, Object(parsed.value))])
  }

  /** The names of the properties with a non-null value, in declaration order. */
  function NonNullNames(resource: DSPResource, props: seq<ResourceProperty>): seq<string> {
    if props == [] then []
    else
      var p := props[|props| - 1];
      NonNullNames(resource, props[..|props| - 1]) + (if GetValue(resource, p.name).NullValue? then [] else [p.name])
  }

  function FieldNames(fields: seq<Field>): seq<string> {
    seq(|fields|, i requires 0 <= i < |fields| => fields[i].name)
  }

  /**
   * The document's keys are exactly the declared properties with a non-null
   * value, in declaration order; it fails exactly when one of those values is
   * not a nested resource.
   */
  lemma {:induction false} JsonMembersSpec(resource: DSPResource, props: seq<ResourceProperty>, serialize: DSPResource -> seq<Field>)
    ensures JsonMembers(resource, props, serialize).Success? ==>
      FieldNames(JsonMembers(resource, props, serialize).value) == NonNullNames(resource, props)
    ensures JsonMembers(resource, props, serialize).Failure? <==>
      exists i | 0 <= i < |props| :: var v := GetValue(resource, props[i].name); !v.NullValue? && !v.ResourceValue?
  {
    if props != [] {
      var init := props[..|props| - 1];
      JsonMembersSpec(resource, init, serialize);
      var prev := JsonMembers(resource, init, serialize);
      if prev.Success? && !GetValue(resource, props[|props| - 1].name).NullValue? {
        var last := props[|props| - 1];
        if GetValue(resource, last.name).ResourceValue? {
          var added := prev.value + [Field(last.name, Object(serialize(GetValue(resource, last.name).resource)))];
          assert FieldNames(added) == FieldNames(prev.value) + [last.name];
        }
      }
      if exists i | 0 <= i < |props| :: var v := GetValue(resource, props[i].name); !v.NullValue? && !v.ResourceValue? {
        var i :| 0 <= i < |props| && var v := GetValue(resource, props[i].name); !v.NullValue? && !v.ResourceValue?;
        if i < |init| {
          assert init[i] == props[i];
        }
      }
      if exists i | 0 <= i < |init| :: var v := GetValue(resource, init[i].name); !v.NullValue? && !v.ResourceValue? {
        var i :| 0 <= i < |init| && var v := GetValue(resource, init[i].name); !v.NullValue? && !v.ResourceValue?;
        assert props[i] == init[i];
      }
    }
  }

  /** A non-null primitive property makes CreateJsonDocument throw: JObject.Parse("\"text\"") is not an object. */
  lemma PrimitivePropertyFails(typeName: string, name: string, t: Token, serialize: DSPResource -> seq<Field>)
    ensures var resource := DSPResource(typeName, map[name := PrimitiveValue(t)]);
      var props := [ResourceProperty(name, Primitive, PrimitiveOf(TypeResolver.Plain(TypeResolver.StringType)))];
      JsonMembers(resource, props, serialize) == Failure(NotAnObject)
  {
  }

  /**
   * CreateJsonDocument: an empty document for an unknown set; otherwise one
   * member per declared property of the set's type with a non-null value.
   */
  method CreateJsonDocument(s: Schema, resource: DSPResource, resourceName: string, serialize: DSPResource -> seq<Field>)
    returns (document: Result<seq<Field>, ConvertError>)
    requires WellFormed(s)
    ensures ResolveResourceSet(s, resourceName).None? ==> document == Success([])
    ensures ResolveResourceSet(s, resourceName).Some? ==>
      document == JsonMembers(resource, s.types[s.sets[resourceName]].properties, serialize)
  {
    var members := [];
    var resourceSet := ResolveResourceSet(s, resourceName);
    if resourceSet.Some? {
      var props := s.types[resourceSet.value].properties;
      var i := 0;
      while i < |props|
        invariant 0 <= i <= |props|
        invariant JsonMembers(resource, props[..i], serialize) == Success(members)
      {
        assert props[..i + 1][..i] == props[..i];
        var property := props[i];
        var propertyValue := GetValue(resource, property.name);
        if !propertyValue.NullValue? {
          var parsed := ParsedObject(propertyValue, serialize);
          if parsed.None? {
            JsonMembersFailureSticks(resource, props, i + 1, serialize);
            return Failure(NotAnObject);
          }
          members := members + [Field(property.name, Object(parsed.value))];
        }
        i := i + 1;
      }
      assert props[..i] == props;
    }
    document := Success(members);
  }

  /** Once the loop of CreateJsonDocument has failed, the rest of the properties cannot repair it. */
  lemma {:induction false} JsonMembersFailureSticks(resource: DSPResource, props: seq<ResourceProperty>, i: nat,
                                                    serialize: DSPResource -> seq<Field>)
    requires i <= |props| && JsonMembers(resource, props[..i], serialize).Failure?
    ensures JsonMembers(resource, props, serialize) == JsonMembers(resource, props[..i], serialize)
    decreases |props| - i
  {
    if i < |props| {
      assert props[..i + 1][..i] == props[..i];
      JsonMembersFailureSticks(resource, props, i + 1, serialize);
    } else {
      assert props[..i] == props;
    }
  }

  /**
   * The document the loop evidently means to build: every non-null value
   * written as a JSON token (JToken.FromObject), which never fails.
   */
  function ValueToken(v: Value, serialize: DSPResource -> seq<Field>): Token
    decreases v
  {
    match v
    case NullValue => Null
    case PrimitiveValue(t) => t
    case ArrayValue(items) => Array(seq(|items|, i requires 0 <= i < |items| => ValueToken(items[i], serialize)))
    case ResourceValue(r) => Object(serialize(r))
  }

  function IntendedJsonMembers(resource: DSPResource, props: seq<ResourceProperty>, serialize: DSPResource -> seq<Field>)
    : seq<Field>
  {
    if props == [] then []
    else
      var p := props[|props| - 1];
      var prev := IntendedJsonMembers(resource, props[..|props| - 1], serialize);
      var v := GetValue(resource, p.name);
      if v.NullValue? then prev else prev + [Field(p.name, ValueToken(v, serialize))]
  }

  /** The intended document has exactly the non-null properties as keys, in order, whatever their values. */
  lemma {:induction false} IntendedJsonMembersNames(resource: DSPResource, props: seq<ResourceProperty>,
                                                    serialize: DSPResource -> seq<Field>)
    ensures FieldNames(IntendedJsonMembers(resource, props, serialize)) == NonNullNames(resource, props)
    ensures forall k | 0 <= k < |IntendedJsonMembers(resource, props, serialize)| ::
      var f := IntendedJsonMembers(resource, props, serialize)[k];
      ValueToken(GetValue(resource, f.name), serialize) == f.value
  {
    if props != [] {
      var init := props[..|props| - 1];
      IntendedJsonMembersNames(resource, init, serialize);
      var p := props[|props| - 1];
      var prev := IntendedJsonMembers(resource, init, serialize);
      if !GetValue(resource, p.name).NullValue? {
        var added := prev + [Field(p.name, ValueToken(GetValue(resource, p.name), serialize))];
        assert FieldNames(added) == FieldNames(prev) + [p.name];
      }
    }
  }

  /** Where the written loop succeeds, it builds the intended document. */
  lemma {:induction false} JsonMembersAgree(resource: DSPResource, props: seq<ResourceProperty>, serialize: DSPResource -> seq<Field>)
    requires JsonMembers(resource, props, serialize).Success?
    ensures JsonMembers(resource, props, serialize).value == IntendedJsonMembers(resource, props, serialize)
  {
    if props != [] {
      JsonMembersAgree(resource, props[..|props| - 1], serialize);
    }
  }
}
