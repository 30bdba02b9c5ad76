/**
 * The DynamoDB client of SimpleAmazonDynamoDB.php: the request headers, the
 * legacy AWS3 HMAC-SHA-256 signature over them, the authorization header and
 * the assembled HTTP POST. Hashing, HMAC, base64 and JSON are the
 * uninterpreted functions of `PhpLibrary.Library`; the HTTP exchange is a
 * function from the request to the response; the clock is the `date` argument.
 */
module DynamoDb {
  import opened Wrappers
  import opened PhpArrays
  import opened PhpValues
  import opened PhpLibrary

  /** A request header: lower-case name and value. */
  type Header = (string, string)

  const DefaultEndpoint := "dynamodb.us-east-1.amazonaws.com"
  const DefaultUseHttps := true
  const DefaultVersion := "20120810"
  const JsonContentType := "application/x-amz-json-1.0"
  const AuthorizationHeader := "x-amzn-authorization"
  /** The header names in the order `getHeaders` inserts them. */
  const InsertedHeaderNames := ["host", "x-amz-date", "x-amz-target", "x-amz-security-token", "content-type"]
  /** The same names in `ksort` order, as they appear in SignedHeaders. */
  const SortedHeaderNames := ["content-type", "host", "x-amz-date", "x-amz-security-token", "x-amz-target"]

  datatype Credentials = Credentials(accessKeyId: string, secretAccessKey: string, securityToken: string)

  /** The three constructor options the client knows. */
  datatype Config = Config(endpoint: string, useHttps: bool, version: string)

  /** Constructor overrides; an absent option keeps its default. */
  datatype Options = Options(endpoint: Option<string>, useHttps: Option<bool>, version: Option<string>)

  const NoOptions := Options(None, None, None)

  datatype HttpRequest = HttpRequest(url: string, headerLines: seq<string>, body: string)

  datatype HttpResponse = HttpResponse(statusCode: int, body: string)

  function Configure(options: Options): Config {
    Config(
      if options.endpoint.Some? then options.endpoint.value else DefaultEndpoint,
      if options.useHttps.Some? then options.useHttps.value else DefaultUseHttps,
      if options.version.Some? then options.version.value else DefaultVersion)
  }

  /** Without options the client talks HTTPS to us-east-1 with API version 20120810. */
  lemma ConfigureDefaults()
    ensures Configure(NoOptions) == Config("dynamodb.us-east-1.amazonaws.com", true, "20120810")
  {
  }

  /** A given option replaces its default and leaves the other two alone. */
  lemma ConfigureOverrides(options: Options)
    ensures options.endpoint.Some? ==> Configure(options).endpoint == options.endpoint.value
    ensures options.endpoint.None? ==> Configure(options).endpoint == DefaultEndpoint
    ensures options.useHttps.Some? ==> Configure(options).useHttps == options.useHttps.value
    ensures options.useHttps.None? ==> Configure(options).useHttps == DefaultUseHttps
    ensures options.version.Some? ==> Configure(options).version == options.version.value
    ensures options.version.None? ==> Configure(options).version == DefaultVersion
  {
  }

  /** `encodeParams`: the JSON body, with an empty array sent as an empty object. */
  function EncodeParams(lib: Library, params: Value): (body: string)
    ensures body != "[]"
    ensures lib.jsonEncode(params) != "[]" ==> body == lib.jsonEncode(params)
    ensures body == "{}" <==> (lib.jsonEncode(params) == "[]" || lib.jsonEncode(params) == "{}")
  {
    var encoded := lib.jsonEncode(params);
    if encoded == "[]" then "{}" else encoded
  }

  /** `getHeaders`: the five headers every request carries, in insertion order. */
  function GetHeaders(config: Config, securityToken: string, operation: string, date: string): (h: seq<Header>)
    ensures KeysOf(h) == InsertedHeaderNames
    ensures DistinctKeys(h)
    ensures Lookup(h, "host") == Some(config.endpoint)
    ensures Lookup(h, "x-amz-date") == Some(date)
    ensures Lookup(h, "x-amz-target") == Some("DynamoDB_" + config.version + "." + operation)
    ensures Lookup(h, "x-amz-security-token") == Some(securityToken)
    ensures Lookup(h, "content-type") == Some(JsonContentType)
  {
    var h := [ ("host", config.endpoint),
               ("x-amz-date", date),
               ("x-amz-target", "DynamoDB_" + config.version + "." + operation),
               ("x-amz-security-token", securityToken),
               ("content-type", JsonContentType) ];
    assert KeysOf(h) == InsertedHeaderNames;
    LookupDistinct(h, 0); LookupDistinct(h, 1); LookupDistinct(h, 2);
    LookupDistinct(h, 3); LookupDistinct(h, 4);
    h
  }

  /** One line of the canonical header block. */
  function CanonicalLine(h: Header): string {
    h.0 + ":" + h.1 + "\n"
  }

  /** The canonical header block: `key:value\n` for each header, in order. */
  function CanonicalHeaders(h: seq<Header>): string {
    if h == [] then "" else CanonicalLine(h[0]) + CanonicalHeaders(h[1..])
  }

  lemma {:induction false} CanonicalHeadersSnoc(h: seq<Header>, x: Header)
    ensures CanonicalHeaders(h + [x]) == CanonicalHeaders(h) + CanonicalLine(x)
  {
    if h == [] {
      assert [] + [x] == [x];
    } else {
      assert (h + [x])[1..] == h[1..] + [x];
      CanonicalHeadersSnoc(h[1..], x);
    }
  }

  /** The string that is hashed and signed. */
  function StringToSign(canonical: string, body: string): string {
    "POST\n/\n\n" + canonical + "\n" + body
  }

  /** For a fixed header block, different bodies give different strings to sign. */
  lemma StringToSignInjective(canonical: string, body1: string, body2: string)
    requires StringToSign(canonical, body1) == StringToSign(canonical, body2)
    ensures body1 == body2
  {
    var prefix := "POST\n/\n\n" + canonical + "\n";
    assert StringToSign(canonical, body1) == prefix + body1;
    assert StringToSign(canonical, body2) == prefix + body2;
    assert body1 == (prefix + body1)[|prefix|..];
    assert body2 == (prefix + body2)[|prefix|..];
  }

  /** `base64_encode(hash_hmac('sha256', hash('sha256', sts, true), secret, true))`. */
  function Signature(lib: Library, secretAccessKey: string, stringToSign: string): string {
    lib.base64Encode(lib.hmacSha256(lib.sha256(stringToSign), secretAccessKey))
  }

  /** `join(sep, parts)`. */
  function Join(sep: string, parts: seq<string>): string {
    if |parts| == 0 then ""
    else if |parts| == 1 then parts[0]
    else parts[0] + sep + Join(sep, parts[1..])
  }

  /** One `name=value` field of the authorization value. */
  function AuthParam(name: string, value: string): string {
    name + "=" + value
  }

  /** The value of the `x-amzn-authorization` header: its four fields joined by `,`. */
  function AuthorizationValue(accessKeyId: string, signedHeaders: string, signature: string): string {
    "AWS3 " + Join(",", [
      AuthParam("AWSAccessKeyId", accessKeyId),
      AuthParam("Algorithm", "HmacSHA256"),
      AuthParam("SignedHeaders", signedHeaders),
      AuthParam("Signature", signature)])
  }

  /** The authorization value spelled out. */
  lemma AuthorizationFormat(accessKeyId: string, signedHeaders: string, signature: string)
    ensures AuthorizationValue(accessKeyId, signedHeaders, signature)
         == "AWS3 AWSAccessKeyId=" + accessKeyId + ",Algorithm=HmacSHA256,SignedHeaders=" + signedHeaders
          + ",Signature=" + signature
  {
    var a, b, c, d := AuthParam("AWSAccessKeyId", accessKeyId), AuthParam("Algorithm", "HmacSHA256"),
      AuthParam("SignedHeaders", signedHeaders), AuthParam("Signature", signature);
    JoinFour(",", [a, b, c, d]);
    AccessKeyIdLiteral();
    AlgorithmLiteral();
    SignatureLiteral();
    Regroup("AWS3 ", "AWSAccessKeyId" + "=", accessKeyId, ",", b, "SignedHeaders" + "=", signedHeaders,
      "Signature" + "=", signature);
  }

  // The literal pieces of the authorization value, one solver query each.

  lemma AccessKeyIdLiteral()
    ensures "AWS3 " + ("AWSAccessKeyId" + "=") == "AWS3 AWSAccessKeyId="
  {
  }

  lemma AlgorithmLiteral()
    ensures "," + AuthParam("Algorithm", "HmacSHA256") + "," + ("SignedHeaders" + "=")
         == ",Algorithm=HmacSHA256,SignedHeaders="
  {
  }

  lemma SignatureLiteral()
    ensures "," + ("Signature" + "=") == ",Signature="
  {
  }

  lemma Regroup(a: string, b: string, id: string, comma: string, alg: string, c: string, sh: string,
                d: string, sig: string)
    ensures a + (b + id) + comma + alg + comma + (c + sh) + comma + (d + sig)
         == (a + b) + id + (comma + alg + comma + c) + sh + (comma + d) + sig
  {
  }

  /** `join` of four parts. */
  lemma JoinFour(sep: string, parts: seq<string>)
    requires |parts| == 4
    ensures Join(sep, parts) == parts[0] + sep + parts[1] + sep + parts[2] + sep + parts[3]
  {
    assert parts[1..][1..][1..] == [parts[3]];
    assert Join(sep, parts[1..][1..]) == parts[2] + sep + parts[3];
    assert Join(sep, parts[1..]) == parts[1] + sep + (parts[2] + sep + parts[3]);
  }

  /** The SignedHeaders field of every request, spelled out. */
  lemma SignedHeadersLiteral()
    ensures Join(";", SortedHeaderNames)
         == "content-type" + ";" + "host" + ";" + "x-amz-date" + ";" + "x-amz-security-token" + ";" + "x-amz-target"
  {
    var n := SortedHeaderNames;
    JoinFour(";", n[1..]);
    assert Join(";", n) == n[0] + ";" + Join(";", n[1..]);
  }

  /** A header as curl is handed it: `key: value`. */
  function HeaderLine(h: Header): string {
    h.0 + ": " + h.1
  }

  /** The header lines of a request, one per header, in order. */
  function HeaderLines(h: seq<Header>): (lines: seq<string>)
    ensures |lines| == |h|
    ensures forall i :: 0 <= i < |h| ==> lines[i] == HeaderLine(h[i])
  {
    seq(|h|, i requires 0 <= i < |h| => HeaderLine(h[i]))
  }

  function Url(config: Config): string {
    (if config.useHttps then "https://" else "http://") + config.endpoint + "/"
  }

  /** The request `call` sends, step by step as `call` builds it. */
  function RequestFor(config: Config, credentials: Credentials, operation: string, params: Value,
                      date: string, lib: Library): HttpRequest
  {
    var signed := SortByKey(GetHeaders(config, credentials.securityToken, operation, date));
    var body := EncodeParams(lib, params);
    var signature := Signature(lib, credentials.secretAccessKey, StringToSign(CanonicalHeaders(signed), body));
    var authorization := AuthorizationValue(credentials.accessKeyId, Join(";", KeysOf(signed)), signature);
    HttpRequest(Url(config), HeaderLines(Assign(signed, AuthorizationHeader, authorization)), body)
  }

  // ---- properties ----------------------------------------------------------

  /** The five headers of `getHeaders` in ascending key order. */
  function SortedHeaders(config: Config, securityToken: string, operation: string, date: string): seq<Header> {
    [ ("content-type", JsonContentType),
      ("host", config.endpoint),
      ("x-amz-date", date),
      ("x-amz-security-token", securityToken),
      ("x-amz-target", "DynamoDB_" + config.version + "." + operation) ]
  }

  /** `ksort` puts the headers of `getHeaders` in the order content-type, host, x-amz-date, x-amz-security-token, x-amz-target. */
  lemma GetHeadersSorted(config: Config, securityToken: string, operation: string, date: string)
    ensures SortByKey(GetHeaders(config, securityToken, operation, date))
         == SortedHeaders(config, securityToken, operation, date)
  {
    HeaderNamesAscend();
    SortFiveHeaders(("host", config.endpoint), ("x-amz-date", date),
      ("x-amz-target", "DynamoDB_" + config.version + "." + operation),
      ("x-amz-security-token", securityToken), ("content-type", JsonContentType));
  }

  /** The insertion sort run on five headers whose keys ascend in the order 4, 0, 1, 3, 2. */
  lemma SortFiveHeaders(hst: Header, dt: Header, tgt: Header, tok: Header, ct: Header)
    requires KeyLess(ct.0, hst.0) && KeyLess(hst.0, dt.0) && KeyLess(dt.0, tok.0) && KeyLess(tok.0, tgt.0)
    ensures SortByKey([hst, dt, tgt, tok, ct]) == [ct, hst, dt, tok, tgt]
  {
    KeyLessTransitive(ct.0, hst.0, dt.0);
    KeyLessTransitive(ct.0, dt.0, tok.0);
    KeyLessTransitive(ct.0, tok.0, tgt.0);
    KeyLessAsymmetric(ct.0, hst.0);
    KeyLessAsymmetric(ct.0, dt.0);
    KeyLessAsymmetric(ct.0, tok.0);
    KeyLessAsymmetric(ct.0, tgt.0);
    KeyLessAsymmetric(tok.0, tgt.0);
    assert [hst, dt, tgt, tok, ct][1..] == [dt, tgt, tok, ct];
    assert [dt, tgt, tok, ct][1..] == [tgt, tok, ct];
    assert [tgt, tok, ct][1..] == [tok, ct];
    assert [tok, ct][1..] == [ct];
    assert SortByKey([ct]) == [ct];
    assert Insert(tok, [ct]) == [ct] + Insert(tok, []) == [ct, tok];
    assert SortByKey([tok, ct]) == [ct, tok];
    assert Insert(tgt, [ct, tok]) == [ct] + Insert(tgt, [tok]);
    assert Insert(tgt, [tok]) == [tok] + Insert(tgt, []);
    assert SortByKey([tgt, tok, ct]) == [ct, tok, tgt];
    assert Insert(dt, [ct, tok, tgt]) == [ct] + Insert(dt, [tok, tgt]);
    assert Insert(dt, [tok, tgt]) == [dt, tok, tgt];
    assert SortByKey([dt, tgt, tok, ct]) == [ct, dt, tok, tgt];
    assert Insert(hst, [ct, dt, tok, tgt]) == [ct] + Insert(hst, [dt, tok, tgt]);
    assert Insert(hst, [dt, tok, tgt]) == [hst, dt, tok, tgt];
  }

  /** Neighbouring names of SortedHeaderNames ascend. */
  lemma HeaderNamesAscend()
    ensures KeyLess("content-type", "host") && KeyLess("host", "x-amz-date")
    ensures KeyLess("x-amz-date", "x-amz-security-token") && KeyLess("x-amz-security-token", "x-amz-target")
  {
    KeyLessAt("content-type", "host", 0);
    KeyLessAt("host", "x-amz-date", 0);
    LongNamesAscend();
  }

  lemma LongNamesAscend()
    ensures KeyLess("x-amz-date", "x-amz-security-token") && KeyLess("x-amz-security-token", "x-amz-target")
  {
    KeyLessAt("x-amz-date", "x-amz-security-token", 6);
    KeyLessAt("x-amz-security-token", "x-amz-target", 6);
  }

  lemma FiveAscendingSorted(s: seq<Header>)
    requires |s| == 5
    requires KeyLess(s[0].0, s[1].0) && KeyLess(s[1].0, s[2].0)
    requires KeyLess(s[2].0, s[3].0) && KeyLess(s[3].0, s[4].0)
    ensures SortedByKey(s)
  {
    AdjacentAscendingSorted(s);
  }

  lemma SortedHeadersSorted(config: Config, securityToken: string, operation: string, date: string)
    ensures SortedByKey(SortedHeaders(config, securityToken, operation, date))
  {
    HeaderNamesAscend();
    FiveAscendingSorted(SortedHeaders(config, securityToken, operation, date));
  }

  /**
   * The canonical header block depends only on which headers there are, not
   * on the order they were inserted in.
   */
  lemma CanonicalOrderIndependent(a: seq<Header>, b: seq<Header>)
    requires DistinctKeys(a) && DistinctKeys(b)
    requires multiset(a) == multiset(b)
    ensures CanonicalHeaders(SortByKey(a)) == CanonicalHeaders(SortByKey(b))
    ensures Join(";", KeysOf(SortByKey(a))) == Join(";", KeysOf(SortByKey(b)))
  {
    SortByKeyOrderIndependent(a, b);
  }

  /**
   * What `call` sends: the five headers sorted by key, then the authorization
   * header, whose SignedHeaders names the five in that order and whose
   * signature covers them and the body that is posted.
   */
  lemma RequestShape(config: Config, credentials: Credentials, operation: string, params: Value,
                     date: string, lib: Library)
    ensures var request := RequestFor(config, credentials, operation, params, date, lib);
      var body := EncodeParams(lib, params);
      var signed := SortedHeaders(config, credentials.securityToken, operation, date);
      var signature := Signature(lib, credentials.secretAccessKey, StringToSign(CanonicalHeaders(signed), body));
      && request.url == (if config.useHttps then "https://" else "http://") + config.endpoint + "/"
      && request.body == body
      && request.headerLines == HeaderLines(signed + [(AuthorizationHeader,
           AuthorizationValue(credentials.accessKeyId, Join(";", SortedHeaderNames), signature))])
  {
    var token := credentials.securityToken;
    GetHeadersSorted(config, token, operation, date);
    var signed := SortedHeaders(config, token, operation, date);
    assert KeysOf(signed) == SortedHeaderNames;
    var auth := AuthorizationValue(credentials.accessKeyId, Join(";", SortedHeaderNames),
      Signature(lib, credentials.secretAccessKey, StringToSign(CanonicalHeaders(signed), EncodeParams(lib, params))));
    AuthorizationAppended(signed, auth);
  }

  /** The authorization header is not among the signed five, so it is appended last. */
  lemma AuthorizationAppended(signed: seq<Header>, auth: string)
    requires KeysOf(signed) == SortedHeaderNames
    ensures Assign(signed, AuthorizationHeader, auth) == signed + [(AuthorizationHeader, auth)]
  {
    forall i | 0 <= i < |signed| ensures signed[i].0 != AuthorizationHeader {
      assert signed[i].0 == SortedHeaderNames[i];
    }
  }

  // ---- the client ----------------------------------------------------------

  /** The `$headers` array that `call` passes to `getSignature` by reference. */
  class HeaderMap {
    var entries: seq<Header>

    /** Like every PHP array, the header array never holds a key twice. */
    ghost predicate Valid()
      reads this
    {
      DistinctKeys(entries)
    }

    constructor (entries: seq<Header>)
      requires DistinctKeys(entries)
      ensures Valid()
      ensures this.entries == entries
    {
      this.entries := entries;
    }

    /** `$headers[$k] = $v`. */
    method Set(k: string, v: string)
      requires Valid()
      modifies this
      ensures Valid()
      ensures entries == Assign(old(entries), k, v)
    {
      AssignDistinct(entries, k, v);
      entries := Assign(entries, k, v);
    }

    /** `ksort($headers)`: the same entries, keys strictly ascending. */
    method KSort()
      requires Valid()
      modifies this
      ensures Valid()
      ensures entries == SortByKey(old(entries))
      ensures multiset(entries) == multiset(old(entries))
      ensures SortedByKey(entries)
    {
      SortByKeyPermutes(entries);
      SortByKeySorted(entries);
      SortedDistinct(SortByKey(entries));
      entries := SortByKey(entries);
    }
  }

  /** The client object of SimpleAmazonDynamoDB.php. */
  class SimpleAmazonDynamoDB {
    const credentials: Credentials
    const config: Config
    /** `$this->status_code` of the last call. */
    var statusCode: Option<int>
    /** `$this->raw_body` of the last call. */
    var rawBody: Option<string>

    constructor (accessKeyId: string, secretAccessKey: string, securityToken: string,
                 options: Options := NoOptions)
      ensures credentials == Credentials(accessKeyId, secretAccessKey, securityToken)
      ensures config == Configure(options)
      ensures statusCode == None && rawBody == None
    {
      credentials := Credentials(accessKeyId, secretAccessKey, securityToken);
      config := Configure(options);
      statusCode := None;
      rawBody := None;
    }

    /**
     * `getSignature`: sorts the caller's headers in place, then signs the
     * canonical header block and the body.
     */
    method GetSignature(headers: HeaderMap, params: Value, lib: Library) returns (signature: string)
      requires headers.Valid()
      modifies headers
      ensures headers.Valid()
      ensures headers.entries == SortByKey(old(headers.entries))
      ensures SortedByKey(headers.entries)
      ensures signature == Signature(lib, credentials.secretAccessKey,
                StringToSign(CanonicalHeaders(headers.entries), EncodeParams(lib, params)))
    {
      var canonicalString := "";
      headers.KSort();
      var sorted := headers.entries;
      var i := 0;
      while i < |sorted|
        invariant 0 <= i <= |sorted|
        invariant canonicalString == CanonicalHeaders(sorted[..i])
        invariant headers.entries == sorted
      {
        CanonicalHeadersSnoc(sorted[..i], sorted[i]);
        assert sorted[..i + 1] == sorted[..i] + [sorted[i]];
        canonicalString := canonicalString + CanonicalLine(sorted[i]);
        i := i + 1;
      }
      assert sorted[..i] == sorted;
      var body := EncodeParams(lib, params);
      var stringToSign := "POST\n/\n\n" + canonicalString + "\n" + body;
      var hashToSign := lib.sha256(stringToSign);
      signature := lib.base64Encode(lib.hmacSha256(hashToSign, credentials.secretAccessKey));
    }

    /** `getAuthorization`: the AWS3 authorization value for the given (already sorted) headers. */
    method GetAuthorization(headers: seq<Header>, signature: string) returns (auth: string)
      ensures auth == AuthorizationValue(credentials.accessKeyId, Join(";", KeysOf(headers)), signature)
    {
      var authParams := [
        ("AWSAccessKeyId", credentials.accessKeyId),
        ("Algorithm", "HmacSHA256"),
        ("SignedHeaders", Join(";", KeysOf(headers))),
        ("Signature", signature)];
      var canonicalAuth: seq<string> := [];
      var i := 0;
      while i < |authParams|
        invariant 0 <= i <= |authParams|
        invariant |canonicalAuth| == i
        invariant forall k :: 0 <= k < i ==> canonicalAuth[k] == AuthParam(authParams[k].0, authParams[k].1)
      {
        canonicalAuth := canonicalAuth + [AuthParam(authParams[i].0, authParams[i].1)];
        i := i + 1;
      }
      assert canonicalAuth == [
        AuthParam("AWSAccessKeyId", credentials.accessKeyId),
        AuthParam("Algorithm", "HmacSHA256"),
        AuthParam("SignedHeaders", Join(";", KeysOf(headers))),
        AuthParam("Signature", signature)];
      auth := "AWS3 " + Join(",", canonicalAuth);
    }

    /**
     * `call`: build, sign and send one request; record the raw body and the
     * status code; return the decoded body.
     */
    method Call(operation: string, params: Value, date: string, lib: Library,
                transport: HttpRequest -> HttpResponse)
      returns (request: HttpRequest, result: Value)
      modifies this
      ensures request == RequestFor(config, credentials, operation, params, date, lib)
      ensures rawBody == Some(transport(request).body)
      ensures statusCode == Some(transport(request).statusCode)
      ensures result == lib.jsonDecode(transport(request).body)
    {
      var headers := new HeaderMap(GetHeaders(config, credentials.securityToken, operation, date));
      var signature := GetSignature(headers, params, lib);
      var authorization := GetAuthorization(headers.entries, signature);
      headers.Set(AuthorizationHeader, authorization);

      var url := (if config.useHttps then "https://" else "http://") + config.endpoint + "/";

      var headerArray := HeaderArray(headers.entries);
      request := HttpRequest(url, headerArray, EncodeParams(lib, params));
      var response := transport(request);
      rawBody := Some(response.body);
      statusCode := Some(response.statusCode);
      result := lib.jsonDecode(response.body);
    }
  }


  /** The `$header_array` loop of `call`: one `key: value` line per header, in order. */
  method HeaderArray(headers: seq<Header>) returns (lines: seq<string>)
    ensures lines == HeaderLines(headers)
  {
    lines := [];
    var i := 0;
    while i < |headers|
      invariant 0 <= i <= |headers|
      invariant |lines| == i
      invariant forall k :: 0 <= k < i ==> lines[k] == HeaderLine(headers[k])
    {
      lines := lines + [HeaderLine(headers[i])];
      i := i + 1;
    }
  }
}
