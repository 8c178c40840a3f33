/**
 * DocumentDbDSPUpdateProvider: the change log behind OData writes. Creating,
 * modifying and deleting resources appends or amends pending changes;
 * SaveChanges opens a context on the connection string, replays the changes
 * in order as store operations and clears the log.
 */
module UpdateProvider {
  import opened Wrappers
  import Converter
  import opened ConnectionString
  import Strings
  import TypeResolver

  /**
   * The Name of the resource type base.CreateResource resolves from a full
   * type name: what follows the "DocumentDB." namespace.
   */
  function ResourceTypeName(fullTypeName: string): (r: string)
    ensures Strings.StartsWith(fullTypeName, TypeResolver.RootNamespace + ".") ==> TypeResolver.FullName(r) == fullTypeName
    ensures !Strings.StartsWith(fullTypeName, TypeResolver.RootNamespace + ".") ==> r == fullTypeName
  {
    var prefix := TypeResolver.RootNamespace + ".";
    if Strings.StartsWith(fullTypeName, prefix) then
      assert fullTypeName == prefix + fullTypeName[|prefix|..];
      fullTypeName[|prefix|..]
    else fullTypeName
  }

  /** The resource of a type created under its full name carries the type's own name. */
  lemma ResourceTypeNameOfFullName(name: string)
    ensures ResourceTypeName(TypeResolver.FullName(name)) == name
  {
    var full := TypeResolver.FullName(name);
    assert TypeResolver.FullName(ResourceTypeName(full)) == full;
    TypeResolver.FullNameInjective(ResourceTypeName(full), name);
  }

  /** A DSPResource as the update provider sees it: an object compared by reference. */
  class DSPResource {
    /** ResourceType.Name: the type's name without its namespace. */
    const typeName: string

    constructor (typeName: string)
      ensures this.typeName == typeName
    {
      this.typeName := typeName;
    }
  }

  /** Which of InsertDocument, UpdateDocument, RemoveDocument the change runs. */
  datatype ChangeAction = Insert | Update | Remove

  /** A pending change; the modified properties in the order they were first set. */
  datatype ResourceChange = ResourceChange(
    collectionName: string,
    resource: DSPResource,
    modified: seq<(string, Converter.Value)>,
    action: ChangeAction)

  /** One clause of the UpdateBuilder: Set for a non-null value, Unset for null. */
  datatype UpdateClause = Set(name: string, value: Converter.Value) | Unset(name: string)

  /** What a replayed change asks of the store. */
  datatype Operation =
    | InsertOp(collectionName: string, resource: DSPResource)
    | UpdateOp(collectionName: string, resource: DSPResource, update: seq<UpdateClause>)
    | RemoveOp(collectionName: string, resource: DSPResource)

  // ---------------------------------------------------------------------------
  // ModifiedProperties, a Dictionary<string, object> without removals
  // ---------------------------------------------------------------------------

  function Keys(props: seq<(string, Converter.Value)>): seq<string> {
    seq(|props|, k requires 0 <= k < |props| => props[k].0)
  }

  predicate DistinctKeys(props: seq<(string, Converter.Value)>) {
    forall i, j | 0 <= i < j < |props| :: props[i].0 != props[j].0
  }

  /** properties[name], or None when ContainsKey is false. */
  function PendingValue(props: seq<(string, Converter.Value)>, name: string): Option<Converter.Value> {
    if props == [] then None
    else if props[0].0 == name then Some(props[0].1)
    else PendingValue(props[1..], name)
  }

  /** `properties[name] = value` when the key is present (in place), `properties.Add(name, value)` otherwise (at the end). */
  function Upsert(props: seq<(string, Converter.Value)>, name: string, value: Converter.Value)
    : seq<(string, Converter.Value)>
  {
    if props == [] then [(name, value)]
    else if props[0].0 == name then [(name, value)] + props[1..]
    else [props[0]] + Upsert(props[1..], name, value)
  }

  /** After an upsert the name holds the new value and every other name keeps its own. */
  lemma {:induction false} UpsertValue(props: seq<(string, Converter.Value)>, name: string, value: Converter.Value, other: string)
    ensures PendingValue(Upsert(props, name, value), name) == Some(value)
    ensures other != name ==> PendingValue(Upsert(props, name, value), other) == PendingValue(props, other)
  {
    if props != [] && props[0].0 != name {
      UpsertValue(props[1..], name, value, other);
    }
  }

  /** An upsert keeps the order of the keys, appending the name only when it is new. */
  lemma {:induction false} UpsertKeys(props: seq<(string, Converter.Value)>, name: string, value: Converter.Value)
    ensures name in Keys(props) ==> Keys(Upsert(props, name, value)) == Keys(props)
    ensures name !in Keys(props) ==> Keys(Upsert(props, name, value)) == Keys(props) + [name]
  {
    if props != [] {
      assert Keys(props) == [props[0].0] + Keys(props[1..]);
      if props[0].0 != name {
        UpsertKeys(props[1..], name, value);
        var u := Upsert(props[1..], name, value);
        assert Keys([props[0]] + u) == [props[0].0] + Keys(u);
      } else {
        assert Keys([(name, value)] + props[1..]) == [name] + Keys(props[1..]);
      }
    }
  }

  /** Keys stay distinct, so the dictionary never holds a name twice. */
  lemma {:induction false} UpsertDistinct(props: seq<(string, Converter.Value)>, name: string, value: Converter.Value)
    requires DistinctKeys(props)
    ensures DistinctKeys(Upsert(props, name, value))
  {
    UpsertKeys(props, name, value);
    var u := Upsert(props, name, value);
    forall i, j | 0 <= i < j < |u| ensures u[i].0 != u[j].0 {
      assert Keys(u)[i] == u[i].0 && Keys(u)[j] == u[j].0;
      if name !in Keys(props) && j == |props| {
        assert Keys(props)[i] == props[i].0;
      } else {
        assert Keys(props)[i] == props[i].0 && Keys(props)[j] == props[j].0;
      }
    }
  }

  /** Setting the same property twice leaves the second value, in the first one's place. */
  lemma {:induction false} UpsertTwice(props: seq<(string, Converter.Value)>, name: string, a: Converter.Value, b: Converter.Value)
    ensures Upsert(Upsert(props, name, a), name, b) == Upsert(props, name, b)
  {
    if props != [] && props[0].0 != name {
      UpsertTwice(props[1..], name, a, b);
    }
  }

  // ---------------------------------------------------------------------------
  // The pending changes
  // ---------------------------------------------------------------------------

  /**
   * What keeps `SingleOrDefault` from throwing: a resource has at most one
   * pending Insert and at most one pending Update; each change's properties
   * are a dictionary.
   */
  predicate ChangesValid(changes: seq<ResourceChange>) {
    (forall i, j | 0 <= i < j < |changes| && changes[i].resource == changes[j].resource ::
       changes[i].action != changes[j].action || changes[i].action.Remove?)
    && (forall i | 0 <= i < |changes| :: DistinctKeys(changes[i].modified))
  }

  /** SingleOrDefault(x => x.Resource == resource && x.Action == action), as a position or -1. */
  function FindChange(changes: seq<ResourceChange>, resource: DSPResource, action: ChangeAction): (i: int)
    ensures -1 <= i < |changes|
    ensures i == -1 <==> forall k | 0 <= k < |changes| :: !(changes[k].resource == resource && changes[k].action == action)
    ensures i >= 0 ==> changes[i].resource == resource && changes[i].action == action
  {
    if changes == [] then -1
    else if changes[0].resource == resource && changes[0].action == action then 0
    else
      var k := FindChange(changes[1..], resource, action);
      if k == -1 then -1 else k + 1
  }

  /**
   * The change log after SetValue(resource, name, value): the value is
   * recorded in the resource's pending Insert if there is one, else in its
   * pending Update, else in a new Update change on its type's collection.
   */
  function Record(changes: seq<ResourceChange>, resource: DSPResource, name: string, value: Converter.Value)
    : seq<ResourceChange>
  {
    var i := FindChange(changes, resource, Insert);
    if i >= 0 then changes[i := changes[i].(modified := Upsert(changes[i].modified, name, value))]
    else
      var j := FindChange(changes, resource, Update);
      if j >= 0 then changes[j := changes[j].(modified := Upsert(changes[j].modified, name, value))]
      else changes + [ResourceChange(resource.typeName, resource, Upsert([], name, value), Update)]
  }

  /** The change that carries a resource's modified values: its Insert, else its Update. */
  function CarrierOf(changes: seq<ResourceChange>, resource: DSPResource): int {
    var i := FindChange(changes, resource, Insert);
    if i >= 0 then i else FindChange(changes, resource, Update)
  }

  /**
   * After SetValue the resource's carrying change holds the value under the
   * name, and keeps every other name's pending value.
   */
  lemma RecordLastWrite(changes: seq<ResourceChange>, resource: DSPResource, name: string, value: Converter.Value, other: string)
    ensures var after := Record(changes, resource, name, value);
      var c := CarrierOf(after, resource);
      0 <= c < |after| && PendingValue(after[c].modified, name) == Some(value)
      && (other != name ==>
            PendingValue(after[c].modified, other)
            == if CarrierOf(changes, resource) >= 0 then PendingValue(changes[CarrierOf(changes, resource)].modified, other) else None)
  {
    var i := FindChange(changes, resource, Insert);
    var j := FindChange(changes, resource, Update);
    var after := Record(changes, resource, name, value);
    if i >= 0 {
      var m := changes[i].modified;
      UpsertValue(m, name, value, other);
      FindChangeFirst(changes, after, resource, Insert, i);
    } else if j >= 0 {
      UpsertValue(changes[j].modified, name, value, other);
      assert FindChange(after, resource, Insert) == -1;
      FindChangeFirst(changes, after, resource, Update, j);
    } else {
      UpsertValue([], name, value, other);
      assert FindChange(after, resource, Insert) == -1;
      assert after[|changes|].resource == resource;
    }
  }

  /** Replacing a change's properties does not move the first change of that resource and action. */
  lemma {:induction false} FindChangeFirst(changes: seq<ResourceChange>, after: seq<ResourceChange>,
                                           resource: DSPResource, action: ChangeAction, i: int)
    requires i == FindChange(changes, resource, action) && i >= 0
    requires |after| == |changes| && after[i].resource == resource && after[i].action == action
    requires forall k | 0 <= k < |changes| && k != i :: after[k].resource == changes[k].resource && after[k].action == changes[k].action
    ensures FindChange(after, resource, action) == i
  {
    if i > 0 {
      FindChangeFirst(changes[1..], after[1..], resource, action, i - 1);
    }
  }

  /** SetValue touches no change of another resource, and adds at most one change. */
  lemma RecordOthersUnchanged(changes: seq<ResourceChange>, resource: DSPResource, name: string, value: Converter.Value)
    ensures var after := Record(changes, resource, name, value);
      |changes| <= |after| <= |changes| + 1
    ensures var after := Record(changes, resource, name, value);
      forall k | 0 <= k < |changes| && changes[k].resource != resource :: after[k] == changes[k]
    ensures var after := Record(changes, resource, name, value);
      forall k | 0 <= k < |changes| :: after[k].resource == changes[k].resource && after[k].action == changes[k].action
  {
  }

  /** SetValue keeps the log valid. */
  lemma RecordValid(changes: seq<ResourceChange>, resource: DSPResource, name: string, value: Converter.Value)
    requires ChangesValid(changes)
    ensures ChangesValid(Record(changes, resource, name, value))
  {
    var i := FindChange(changes, resource, Insert);
    var j := FindChange(changes, resource, Update);
    var after := Record(changes, resource, name, value);
    if i >= 0 {
      UpsertDistinct(changes[i].modified, name, value);
    } else if j >= 0 {
      UpsertDistinct(changes[j].modified, name, value);
    } else {
      UpsertDistinct([], name, value);
    }
  }

  // ---------------------------------------------------------------------------
  // Replaying the changes
  // ---------------------------------------------------------------------------

  /** The clause UpdateDocument adds for one modified property. */
  function Clause(p: (string, Converter.Value)): UpdateClause {
    if p.1.NullValue? then Unset(p.0) else Set(p.0, p.1)
  }

  /** The store operation a change runs: nothing for an Update without modified properties. */
  function Perform(change: ResourceChange): Option<Operation> {
    match change.action
    case Insert => Some(InsertOp(change.collectionName, change.resource))
    case Update =>
      if change.modified == [] then None
      else Some(UpdateOp(change.collectionName, change.resource,
                         seq(|change.modified|, k requires 0 <= k < |change.modified| => Clause(change.modified[k]))))
    case Remove => Some(RemoveOp(change.collectionName, change.resource))
  }

  /** An update sets every non-null modified property and unsets every null one, in the order they were first set. */
  lemma PerformUpdate(change: ResourceChange)
    requires change.action.Update? && change.modified != []
    ensures var op := Perform(change).value;
      op.UpdateOp? && op.collectionName == change.collectionName && op.resource == change.resource
      && |op.update| == |change.modified|
      && forall k | 0 <= k < |op.update| ::
           op.update[k].name == change.modified[k].0
           && (op.update[k].Set? <==> !change.modified[k].1.NullValue?)
           && (op.update[k].Set? ==> op.update[k].value == change.modified[k].1)
  {
  }

  /** The operations of a replay, in the order of the changes. */
  function Executed(changes: seq<ResourceChange>): seq<Operation> {
    if changes == [] then []
    else
      var op := Perform(changes[|changes| - 1]);
      Executed(changes[..|changes| - 1]) + (if op.Some? then [op.value] else [])
  }

  /** Replaying two logs one after the other is replaying their concatenation: order is kept. */
  lemma {:induction false} ExecutedAppend(a: seq<ResourceChange>, b: seq<ResourceChange>)
    ensures Executed(a + b) == Executed(a) + Executed(b)
  {
    if b != [] {
      var init := b[..|b| - 1];
      ExecutedAppend(a, init);
      assert (a + b)[..|a + b| - 1] == a + init;
    } else {
      assert a + b == a;
    }
  }

  /** Every operation comes from a change, and every change but an empty update yields one. */
  lemma {:induction false} ExecutedMembers(changes: seq<ResourceChange>, op: Operation)
    ensures op in Executed(changes) <==> exists k | 0 <= k < |changes| :: Perform(changes[k]) == Some(op)
  {
    if changes != [] {
      var init := changes[..|changes| - 1];
      ExecutedMembers(init, op);
      if exists k | 0 <= k < |changes| :: Perform(changes[k]) == Some(op) {
        var k :| 0 <= k < |changes| && Perform(changes[k]) == Some(op);
        if k < |init| {
          assert init[k] == changes[k];
        }
      }
      if exists k | 0 <= k < |init| :: Perform(init[k]) == Some(op) {
        var k :| 0 <= k < |init| && Perform(init[k]) == Some(op);
        assert changes[k] == init[k];
      }
    }
  }

  /** A log without empty updates replays one operation per change. */
  lemma {:induction false} ExecutedLength(changes: seq<ResourceChange>)
    ensures |Executed(changes)| <= |changes|
    ensures (forall k | 0 <= k < |changes| :: !(changes[k].action.Update? && changes[k].modified == [])) ==>
      |Executed(changes)| == |changes|
  {
    if changes != [] {
      var init := changes[..|changes| - 1];
      ExecutedLength(init);
      assert forall k | 0 <= k < |init| :: init[k] == changes[k];
    }
  }

  class DocumentDbDSPUpdateProvider {
    const connectionString: string
    var pendingChanges: seq<ResourceChange>

    predicate Valid()
      reads this
    {
      ChangesValid(pendingChanges)
    }

    constructor (connectionString: string)
      ensures Valid() && this.connectionString == connectionString && pendingChanges == []
    {
      this.connectionString := connectionString;
      pendingChanges := [];
    }

    /**
     * CreateResource: a new resource of the type filed under the full type
     * name, with an Insert change on the container.
     */
    method CreateResource(containerName: string, fullTypeName: string) returns (resource: DSPResource)
      requires Valid()
      modifies this
      ensures Valid() && fresh(resource) && resource.typeName == ResourceTypeName(fullTypeName)
      ensures pendingChanges == old(pendingChanges) + [ResourceChange(containerName, resource, [], Insert)]
    {
      resource := new DSPResource(ResourceTypeName(fullTypeName));
      pendingChanges := pendingChanges + [ResourceChange(containerName, resource, [], Insert)];
    }

    /** SetValue: record the value in the resource's pending Insert, else its pending Update, else a new Update. */
    method SetValue(resource: DSPResource, propertyName: string, propertyValue: Converter.Value)
      requires Valid()
      modifies this
      ensures Valid()
      ensures pendingChanges == Record(old(pendingChanges), resource, propertyName, propertyValue)
    {
      RecordValid(pendingChanges, resource, propertyName, propertyValue);
      var i := FindChange(pendingChanges, resource, Insert);
      if i == -1 {
        i := FindChange(pendingChanges, resource, Update);
        if i == -1 {
          pendingChanges := pendingChanges + [ResourceChange(resource.typeName, resource, [], Update)];
          i := |pendingChanges| - 1;
        }
      }
      var pendingChange := pendingChanges[i];
      var properties := Upsert(pendingChange.modified, propertyName, propertyValue);
      pendingChanges := pendingChanges[i := pendingChange.(modified := properties)];
    }

    /** DeleteResource: a Remove change on the resource's type. */
    method DeleteResource(resource: DSPResource)
      requires Valid()
      modifies this
      ensures Valid()
      ensures pendingChanges == old(pendingChanges) + [ResourceChange(resource.typeName, resource, [], Remove)]
    {
      pendingChanges := pendingChanges + [ResourceChange(resource.typeName, resource, [], Remove)];
    }

    /** UpdateDocument: no operation without modified properties; otherwise one clause per property. */
    static method UpdateDocument(change: ResourceChange) returns (op: Option<Operation>)
      requires change.action.Update?
      ensures op == Perform(change)
    {
      if change.modified == [] {
        return None;
      }
      var update: Option<seq<UpdateClause>> := None;
      var i := 0;
      while i < |change.modified|
        invariant 0 <= i <= |change.modified|
        invariant i == 0 <==> update.None?
        invariant update.Some? ==> |update.value| == i && forall k | 0 <= k < i :: update.value[k] == Clause(change.modified[k])
      {
        var (key, value) := change.modified[i];
        if update.None? {
          update := Some([if value.NullValue? then Unset(key) else Set(key, value)]);
        } else {
          update := Some(update.value + [if value.NullValue? then Unset(key) else Set(key, value)]);
        }
        i := i + 1;
      }
      assert update.value == Perform(change).value.update;
      op := Some(UpdateOp(change.collectionName, change.resource, update.value));
    }

    /**
     * SaveChanges: open a context on the connection string (a malformed one
     * throws and leaves the log as it was), replay every change in order,
     * then clear the log.
     */
    method SaveChanges() returns (r: Result<seq<Operation>, ParseError>)
      requires Valid()
      modifies this
      ensures Valid()
      ensures Connect(connectionString).Failure? ==>
        r == Failure(Connect(connectionString).error) && pendingChanges == old(pendingChanges)
      ensures Connect(connectionString).Success? ==>
        r == Success(Executed(old(pendingChanges))) && pendingChanges == []
    {
      var dbContext := DocumentDbContext.Create(connectionString);
      if dbContext.Failure? {
        return Failure(dbContext.error);
      }
      var operations := [];
      var i := 0;
      while i < |pendingChanges|
        invariant 0 <= i <= |pendingChanges|
        invariant pendingChanges == old(pendingChanges)
        invariant operations == Executed(pendingChanges[..i])
      {
        var pendingChange := pendingChanges[i];
        assert pendingChanges[..i + 1][..i] == pendingChanges[..i];
        var op: Option<Operation>;
        match pendingChange.action {
          case Insert => op := Some(InsertOp(pendingChange.collectionName, pendingChange.resource));
          case Update => op := UpdateDocument(pendingChange);
          case Remove => op := Some(RemoveOp(pendingChange.collectionName, pendingChange.resource));
        }
        if op.Some? {
          operations := operations + [op.value];
        }
        i := i + 1;
      }
      assert pendingChanges[..i] == pendingChanges;
      pendingChanges := [];
      r := Success(operations);
    }

    /** ClearChanges: drop every pending change. */
    method ClearChanges()
      modifies this
      ensures Valid() && pendingChanges == []
    {
      pendingChanges := [];
    }
  }
}
