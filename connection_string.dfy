/**
 * DocumentDbContext: the connection string `Key=Value;Key=Value;...` that
 * names the DocumentDB endpoint, its authorization key and the database.
 * Recognised keys are EndpointUrl, AuthorizationKey and Database (ordinal,
 * case-sensitive); other keys are ignored; a later item overrides an earlier
 * one; an item without '=' makes Substring throw.
 */
module ConnectionString {
  import opened Wrappers
  import opened Strings

  /** What GetClient extracts from the connection string. */
  datatype Settings = Settings(endpointUrl: string, authorizationKey: string, databaseName: string)

  /** The exceptions GetClient lets escape. */
  datatype ParseError =
    | MissingEquals(item: string)      // item.Substring(0, -1): ArgumentOutOfRangeException
    | EmptyEndpoint                    // new Uri(""): UriFormatException

  /** The three locals start as string.Empty. */
  const Defaults := Settings("", "", "")

  const EndpointUrlKey := "EndpointUrl"
  const AuthorizationKeyKey := "AuthorizationKey"
  const DatabaseKey := "Database"

  /** An item cut at its first '=': the key before it and the value after it. */
  function KeyValue(item: string): (r: Option<(string, string)>)
    ensures r.None? <==> '=' !in item
    ensures r.Some? ==> r.value.0 + "=" + r.value.1 == item && '=' !in r.value.0
  {
    var i := IndexOf(item, '=');
    if i == -1 then None
    else
      assert item == item[..i] + "=" + item[i + 1..];
      Some((item[..i], item[i + 1..]))
  }

  /** One iteration of the foreach: the switch on the key. */
  function ApplyItem(acc: Settings, item: string): Result<Settings, ParseError> {
    match KeyValue(item)
    case None => Failure(MissingEquals(item))
    case Some((key, value)) =>
      if key == EndpointUrlKey then Success(acc.(endpointUrl := value))
      else if key == AuthorizationKeyKey then Success(acc.(authorizationKey := value))
      else if key == DatabaseKey then Success(acc.(databaseName := value))
      else Success(acc)
  }

  /** The foreach over the items, stopping at the first item that throws. */
  function ParseItems(items: seq<string>): Result<Settings, ParseError> {
    if items == [] then Success(Defaults)
    else
      var prev := ParseItems(items[..|items| - 1]);
      if prev.Failure? then prev else ApplyItem(prev.value, items[|items| - 1])
  }

  /** The settings of a connection string: its ';'-separated items, in order. */
  function Parse(connectionString: string): Result<Settings, ParseError> {
    ParseItems(Split(connectionString, ';'))
  }

  /** The value the last item with this key gives, or string.Empty when no item has it. */
  function LastValue(items: seq<string>, key: string): string {
    if items == [] then ""
    else
      var kv := KeyValue(items[|items| - 1]);
      if kv.Some? && kv.value.0 == key then kv.value.1 else LastValue(items[..|items| - 1], key)
  }

  /** Parsing fails exactly when some item has no '='. */
  lemma {:induction false} ParseItemsFails(items: seq<string>)
    ensures ParseItems(items).Failure? <==> exists i | 0 <= i < |items| :: '=' !in items[i]
  {
    if items != [] {
      var init := items[..|items| - 1];
      ParseItemsFails(init);
      if ParseItems(init).Failure? {
        var i :| 0 <= i < |init| && '=' !in init[i];
        assert items[i] == init[i];
      } else if exists i | 0 <= i < |items| :: '=' !in items[i] {
        var i :| 0 <= i < |items| && '=' !in items[i];
        assert i == |init|;
      }
    }
  }

  /** The exception names the first item without '='. */
  lemma {:induction false} ParseItemsFirstFailure(items: seq<string>, i: nat)
    requires i < |items| && '=' !in items[i] && forall j | 0 <= j < i :: '=' in items[j]
    ensures ParseItems(items) == Failure(MissingEquals(items[i]))
  {
    var init := items[..|items| - 1];
    if i < |init| {
      ParseItemsFirstFailure(init, i);
    } else {
      ParseItemsFails(init);
    }
  }

  /** A successful parse holds, for each recognised key, the value of its last item. */
  lemma {:induction false} ParseItemsValues(items: seq<string>)
    requires ParseItems(items).Success?
    ensures ParseItems(items).value
      == Settings(LastValue(items, EndpointUrlKey), LastValue(items, AuthorizationKeyKey), LastValue(items, DatabaseKey))
  {
    if items != [] {
      ParseItemsValues(items[..|items| - 1]);
    }
  }

  /** An item whose key is not recognised changes nothing. */
  lemma UnknownKeyIgnored(items: seq<string>, item: string)
    requires '=' in item
    requires KeyValue(item).value.0 !in {EndpointUrlKey, AuthorizationKeyKey, DatabaseKey}
    ensures ParseItems(items + [item]) == ParseItems(items)
  {
    assert (items + [item])[..|items|] == items;
  }

  /** A connection string ending in ';' always throws: its last item is empty. */
  lemma {:induction false} TrailingSeparatorFails(s: string)
    ensures Parse(s + ";").Failure?
  {
    var items := Split(s + ";", ';');
    LastPieceOfSplit(s + ";", ';');
    assert '=' !in items[|items| - 1];
    ParseItemsFails(items);
  }

  /** An empty connection string throws: its only item is empty. */
  lemma EmptyConnectionStringFails()
    ensures Parse("") == Failure(MissingEquals(""))
  {
    assert Split("", ';') == [""];
    assert [""][..0] == [];
  }

  /** Cutting at the first '=' undoes joining a key without '=' to any value, '=' signs in the value included. */
  lemma KeyValueOfJoined(key: string, value: string)
    requires '=' !in key
    ensures KeyValue(key + "=" + value) == Some((key, value))
  {
    var item := key + "=" + value;
    var i := IndexOf(item, '=');
    assert item[|key|] == '=';
    assert item[..i] == key;
    assert item[i + 1..] == value;
  }

  // ---------------------------------------------------------------------------
  // DocumentDbContext
  // ---------------------------------------------------------------------------

  /** new DocumentClient(new Uri(endpointUrl), authorizationKey) */
  datatype Client = Client(endpoint: string, authorizationKey: string)

  /** new DocumentDatabase(client, databaseName) */
  datatype Database = Database(client: Client, name: string)

  /** new Uri(endpointUrl) throws for an empty string. */
  predicate UriAccepted(endpointUrl: string) {
    endpointUrl != ""
  }

  /** What the constructor ends in: the client and database, or the exception GetClient throws. */
  function Connect(connectionString: string): (r: Result<(Client, Database), ParseError>)
    ensures Parse(connectionString).Failure? ==> r == Failure(Parse(connectionString).error)
    ensures r.Success? ==> UriAccepted(r.value.0.endpoint) && r.value.1.client == r.value.0
  {
    var settings := Parse(connectionString);
    if settings.Failure? then Failure(settings.error)
    else if !UriAccepted(settings.value.endpointUrl) then Failure(EmptyEndpoint)
    else
      var client := Client(settings.value.endpointUrl, settings.value.authorizationKey);
      Success((client, Database(client, settings.value.databaseName)))
  }

  class DocumentDbContext {
    var connectionString: string
    var databaseName: string
    var documentClient: Client
    var database: Database

    /** The fields before GetClient runs. */
    constructor Init(connectionString: string)
      ensures this.connectionString == connectionString && databaseName == ""
    {
      this.connectionString := connectionString;
      databaseName := "";
      documentClient := Client("", "");
      database := Database(Client("", ""), "");
    }

    /**
     * new DocumentDbContext(connectionString): GetClient, then the database
     * wrapper; an exception in GetClient means no context is made.
     */
    static method Create(connectionString: string) returns (r: Result<DocumentDbContext, ParseError>)
      ensures var c := Connect(connectionString);
        (r.Failure? <==> c.Failure?) && (r.Failure? ==> r.error == c.error)
      ensures r.Success? ==>
        (fresh(r.value) && r.value.connectionString == connectionString
         && r.value.documentClient == Connect(connectionString).value.0
         && r.value.database == Connect(connectionString).value.1)
    {
      var context := new DocumentDbContext.Init(connectionString);
      var client := context.GetClient(connectionString);
      if client.Failure? {
        return Failure(client.error);
      }
      context.documentClient := client.value;
      context.database := Database(client.value, context.databaseName);
      r := Success(context);
    }

    /**
     * GetClient: read the items in order, remember the last value of each
     * recognised key, record the database name, then build the client.
     */
    method GetClient(connectionString: string) returns (r: Result<Client, ParseError>)
      modifies this`databaseName
      ensures Parse(connectionString).Failure? ==>
        r == Failure(Parse(connectionString).error) && databaseName == old(databaseName)
      ensures Parse(connectionString).Success? ==> databaseName == Parse(connectionString).value.databaseName
      ensures Parse(connectionString).Success? ==>
        var settings := Parse(connectionString).value;
        r == if UriAccepted(settings.endpointUrl) then Success(Client(settings.endpointUrl, settings.authorizationKey))
             else Failure(EmptyEndpoint)
    {
      var endpointUrl := "";
      var authorizationKey := "";
      var name := "";
      var items := Split(connectionString, ';');
      var i := 0;
      while i < |items|
        invariant 0 <= i <= |items|
        invariant ParseItems(items[..i]) == Success(Settings(endpointUrl, authorizationKey, name))
        invariant databaseName == old(databaseName)
      {
        var item := items[i];
        ParseItemsStep(items, i);
        var kv := KeyValue(item);
        if kv.None? {
          assert ParseItems(items[..i + 1]) == Failure(MissingEquals(item));
          ParseItemsFailureSticks(items, i + 1);
          return Failure(MissingEquals(item));
        }
        var (key, value) := kv.value;
        if key == EndpointUrlKey {
          endpointUrl := value;
        } else if key == AuthorizationKeyKey {
          authorizationKey := value;
        } else if key == DatabaseKey {
          name := value;
        }
        i := i + 1;
      }
      assert items[..i] == items;
      databaseName := name;
      if !UriAccepted(endpointUrl) {
        return Failure(EmptyEndpoint);
      }
      r := Success(Client(endpointUrl, authorizationKey));
    }
  }

  /** One more item read by the foreach. */
  lemma ParseItemsStep(items: seq<string>, i: nat)
    requires i < |items|
    ensures ParseItems(items[..i + 1])
      == if ParseItems(items[..i]).Failure? then ParseItems(items[..i]) else ApplyItem(ParseItems(items[..i]).value, items[i])
  {
    assert items[..i + 1][..i] == items[..i];
  }

  /** Once an item has thrown, the later items are never reached. */
  lemma {:induction false} ParseItemsFailureSticks(items: seq<string>, i: nat)
    requires i <= |items| && ParseItems(items[..i]).Failure?
    ensures ParseItems(items) == ParseItems(items[..i])
    decreases |items| - i
  {
    if i < |items| {
      assert items[..i + 1][..i] == items[..i];
      ParseItemsFailureSticks(items, i + 1);
    } else {
      assert items[..i] == items;
    }
  }
}
