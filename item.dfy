/**
 * The `Item` helper of Item.php: it obtains session credentials from a token
 * service, builds a client from them, and fetches one item by its key
 * attributes, wrapping every key value as a string attribute.
 */
module ItemAccess {
  import opened Wrappers
  import opened PhpArrays
  import opened PhpValues
  import opened PhpLibrary
  import opened DynamoDb

  /**
   * The token service the helper is given (SimpleAmazonSTS, which is not part
   * of this model): its configured duration and its `call`, as a function
   * from operation and parameters to the decoded response.
   */
  datatype TokenService = TokenService(tokenDuration: int, call: (string, Value) -> Value)

  /** Where the session credentials sit in a GetSessionToken response. */
  const CredentialsPath := ["GetSessionTokenResult", "Credentials"]

  /** The credential field that is missing, or is not a string, in the response. */
  datatype CredentialsError = MissingCredential(field: string)

  /** The parameters of the GetSessionToken call. */
  function SessionTokenRequest(service: TokenService): Value {
    Arr([("DurationSeconds", Int(service.tokenDuration))])
  }

  /** `$token['GetSessionTokenResult']['Credentials'][$field]`, when it is a string. */
  function CredentialField(token: Value, field: string): Option<string> {
    match GetPath(token, CredentialsPath + [field])
    case Some(Str(s)) => Some(s)
    case _ => None
  }

  /** The three credentials read from a GetSessionToken response. */
  function ExtractCredentials(token: Value): (r: Result<Credentials, CredentialsError>)
    ensures r.Success? <==> (&& CredentialField(token, "AccessKeyId").Some?
                             && CredentialField(token, "SecretAccessKey").Some?
                             && CredentialField(token, "SessionToken").Some?)
    ensures r.Success? ==> r.value == Credentials(CredentialField(token, "AccessKeyId").value,
                                                  CredentialField(token, "SecretAccessKey").value,
                                                  CredentialField(token, "SessionToken").value)
    ensures r.Failure? ==> CredentialField(token, r.error.field).None?
  {
    match (CredentialField(token, "AccessKeyId"), CredentialField(token, "SecretAccessKey"),
           CredentialField(token, "SessionToken"))
    case (None, _, _) => Failure(MissingCredential("AccessKeyId"))
    case (_, None, _) => Failure(MissingCredential("SecretAccessKey"))
    case (_, _, None) => Failure(MissingCredential("SessionToken"))
    case (Some(id), Some(secret), Some(session)) => Success(Credentials(id, secret, session))
  }

  /** A GetSessionToken response carrying the given credentials. */
  function SessionTokenResponse(c: Credentials): Value {
    Arr([("GetSessionTokenResult", Arr([("Credentials", Arr([
      ("AccessKeyId", Str(c.accessKeyId)),
      ("SecretAccessKey", Str(c.secretAccessKey)),
      ("SessionToken", Str(c.securityToken))]))]))])
  }

  /** Reading the credentials back out of a response that carries them gives them unchanged. */
  lemma ExtractCredentialsRoundTrip(c: Credentials)
    ensures ExtractCredentials(SessionTokenResponse(c)) == Success(c)
  {
    var token := SessionTokenResponse(c);
    var creds := Arr([("AccessKeyId", Str(c.accessKeyId)), ("SecretAccessKey", Str(c.secretAccessKey)),
                      ("SessionToken", Str(c.securityToken))]);
    assert GetPath(token, CredentialsPath) == Some(creds) by {
      assert Get(token, "GetSessionTokenResult") == Some(Arr([("Credentials", creds)]));
      assert CredentialsPath[1..] == ["Credentials"];
      assert CredentialsPath[1..][1..] == [];
    }
    GetPathSnoc(token, CredentialsPath, "AccessKeyId");
    GetPathSnoc(token, CredentialsPath, "SecretAccessKey");
    GetPathSnoc(token, CredentialsPath, "SessionToken");
    assert DistinctKeys(creds.entries);
    LookupDistinct(creds.entries, 0);
    LookupDistinct(creds.entries, 1);
    LookupDistinct(creds.entries, 2);
  }

  /** A response without the `GetSessionTokenResult.Credentials` array yields an error. */
  lemma ExtractCredentialsMissingPath(token: Value)
    requires GetPath(token, CredentialsPath).None?
    ensures ExtractCredentials(token) == Failure(MissingCredential("AccessKeyId"))
  {
    GetPathSnoc(token, CredentialsPath, "AccessKeyId");
  }

  /** `getValueTypeCode`: every key value is sent as a string attribute. */
  function GetValueTypeCode(value: Value): (code: string)
    ensures code == "S"
  {
    "S"
  }

  /** `[$code => $value]`: a single-entry attribute value. */
  function AttributeValue(value: Value): Value {
    Arr([(GetValueTypeCode(value), value)])
  }

  /** The `$formattedKeys` array `fetch` builds: each key assigned its attribute value in turn. */
  function FormatKeys(keys: seq<(string, Value)>): seq<(string, Value)> {
    if keys == [] then []
    else
      var last := keys[|keys| - 1];
      Assign(FormatKeys(keys[..|keys| - 1]), last.0, AttributeValue(last.1))
  }

  /**
   * For a PHP array of keys, the formatted keys are the same keys in the same
   * order, each mapped to `{"S": value}` with the value unchanged.
   */
  lemma {:induction false} FormatKeysShape(keys: seq<(string, Value)>)
    requires DistinctKeys(keys)
    ensures |FormatKeys(keys)| == |keys|
    ensures forall i :: 0 <= i < |keys| ==> FormatKeys(keys)[i] == (keys[i].0, Arr([("S", keys[i].1)]))
  {
    if keys != [] {
      var n := |keys| - 1;
      var init := keys[..n];
      assert DistinctKeys(init) by {
        forall i, j | 0 <= i < j < |init| ensures init[i].0 != init[j].0 {
          assert init[i] == keys[i] && init[j] == keys[j];
        }
      }
      FormatKeysShape(init);
      var f := FormatKeys(init);
      forall i | 0 <= i < |f| ensures f[i].0 != keys[n].0 {
        assert f[i].0 == keys[i].0;
      }
      assert FormatKeys(keys) == f + [(keys[n].0, AttributeValue(keys[n].1))];
    }
  }

  /** The formatted keys have exactly the keys of the input, in order; no keys give no keys. */
  lemma FormatKeysKeys(keys: seq<(string, Value)>)
    requires DistinctKeys(keys)
    ensures KeysOf(FormatKeys(keys)) == KeysOf(keys)
    ensures keys == [] ==> FormatKeys(keys) == []
  {
    FormatKeysShape(keys);
  }

  /** The parameters of the GetItem call. */
  function GetItemParams(table: string, keys: seq<(string, Value)>): Value {
    Arr([("TableName", Str(table)), ("Key", Arr(FormatKeys(keys)))])
  }

  /** The example of fetching user "abc123" from table "Users". */
  lemma GetItemParamsExample()
    ensures GetItemParams("Users", [("id", Str("abc123"))])
         == Arr([("TableName", Str("Users")), ("Key", Arr([("id", Arr([("S", Str("abc123"))]))]))])
  {
    var keys := [("id", Str("abc123"))];
    assert keys[..0] == [];
    assert FormatKeys(keys) == Assign([], "id", AttributeValue(Str("abc123")));
    assert IndexOf<Value>([], "id").None?;
    assert Assign([], "id", AttributeValue(Str("abc123"))) == [] + [("id", AttributeValue(Str("abc123")))];
    assert [] + [("id", AttributeValue(Str("abc123")))] == [("id", AttributeValue(Str("abc123")))];
  }

  /** The `Item` helper: a client once it has been created from session credentials. */
  class Item {
    var db: SimpleAmazonDynamoDB?

    constructor ()
      ensures db == null
    {
      db := null;
    }

    /**
     * `createUsingTokenService`: ask the token service for a session token
     * and build a client with the credentials in its response.
     */
    static method CreateUsingTokenService(service: TokenService) returns (r: Result<Item, CredentialsError>)
      ensures var token := service.call("GetSessionToken", SessionTokenRequest(service));
        && (r.Success? <==> ExtractCredentials(token).Success?)
        && (r.Failure? ==> r.error == ExtractCredentials(token).error)
        && (r.Success? ==>
              && fresh(r.value) && r.value.db != null && fresh(r.value.db)
              && r.value.db.credentials == ExtractCredentials(token).value
              && r.value.db.config == Configure(NoOptions)
              && r.value.db.rawBody == None && r.value.db.statusCode == None)
    {
      var item := new Item();
      var token := service.call("GetSessionToken", SessionTokenRequest(service));
      match ExtractCredentials(token)
      case Failure(e) =>
        r := Failure(e);
      case Success(c) =>
        item.db := new SimpleAmazonDynamoDB(c.accessKeyId, c.secretAccessKey, c.securityToken);
        r := Success(item);
    }

    /**
     * `fetch`: wrap every key value as a string attribute and make one
     * GetItem call with the table name and the wrapped keys; return the
     * decoded response unchanged.
     */
    method Fetch(table: string, keys: seq<(string, Value)>, date: string, lib: Library,
                 transport: HttpRequest -> HttpResponse)
      returns (rowFetch: Value)
      requires db != null
      modifies db
      ensures var request := RequestFor(db.config, db.credentials, "GetItem", GetItemParams(table, keys), date, lib);
        && db.rawBody == Some(transport(request).body)
        && db.statusCode == Some(transport(request).statusCode)
        && rowFetch == lib.jsonDecode(transport(request).body)
    {
      var formattedKeys: seq<(string, Value)> := [];
      var i := 0;
      while i < |keys|
        invariant 0 <= i <= |keys|
        invariant formattedKeys == FormatKeys(keys[..i])
      {
        var code := GetValueTypeCode(keys[i].1);
        assert keys[..i + 1][..i] == keys[..i];
        formattedKeys := Assign(formattedKeys, keys[i].0, Arr([(code, keys[i].1)]));
        i := i + 1;
      }
      assert keys[..i] == keys;
      var _, result := db.Call("GetItem", Arr([("TableName", Str(table)), ("Key", Arr(formattedKeys))]),
                               date, lib, transport);
      rowFetch := result;
    }
  }

  /**
   * A client built from a GetSessionToken response sends the session token
   * in its x-amz-security-token header and signs with the session secret.
   */
  lemma SessionCredentialsUsed(token: Value, operation: string, params: Value, date: string, lib: Library)
    requires ExtractCredentials(token).Success?
    ensures var c := ExtractCredentials(token).value;
      var request := RequestFor(Configure(NoOptions), c, operation, params, date, lib);
      var signed := SortedHeaders(Configure(NoOptions), c.securityToken, operation, date);
      && c.securityToken == CredentialField(token, "SessionToken").value
      && c.secretAccessKey == CredentialField(token, "SecretAccessKey").value
      && |request.headerLines| == 6
      && request.headerLines[3] == "x-amz-security-token" + ": " + c.securityToken
      && request.headerLines[5] == AuthorizationHeader + ": " + AuthorizationValue(c.accessKeyId,
           Join(";", SortedHeaderNames),
           Signature(lib, c.secretAccessKey, StringToSign(CanonicalHeaders(signed), EncodeParams(lib, params))))
  {
    var c := ExtractCredentials(token).value;
    RequestShape(Configure(NoOptions), c, operation, params, date, lib);
  }
}
