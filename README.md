# dynamo-php: request assembly and signing

This project models the core of a minimal PHP client for Amazon DynamoDB's
JSON-over-HTTP API (`SimpleAmazonDynamoDB`) and its `Item` helper, and proves
properties of that model in Dafny.

For each call the client does the following:

- It builds five request headers: `host`, `x-amz-date`, `x-amz-target`,
  `x-amz-security-token` and `content-type`.
- It sorts them by key in place with `ksort` and folds them into a canonical
  `key:value\n` block.
- It signs `"POST\n/\n\n" + block + "\n" + body` with the legacy AWS3 scheme.
  The scheme is the base64 encoding of an HMAC-SHA-256, keyed with the secret
  key, over the SHA-256 of that string.
- It appends an `x-amzn-authorization` header whose SignedHeaders field lists
  the sorted header names.
- It posts the JSON body to `http(s)://<endpoint>/`.

`Item` wraps each key value as `{"S": value}` and asks GetItem for
`{TableName, Key}`. It also builds a client from the credentials that a token
service's GetSessionToken response holds at
`GetSessionTokenResult.Credentials`.

Modules:

- `PhpArrays`: PHP's ordered, string-keyed arrays as sequences of entries.
  It covers `array_keys`, `$a[$k]`, `$a[$k] = $v` and `ksort`, modelled as an
  insertion sort under byte-wise key order. The lemmas prove that the sort is
  sorted, that it is a permutation, and that it does not depend on insertion
  order.
- `PhpValues`: the PHP values exchanged with `json_encode` and `json_decode`,
  and nested lookup.
- `PhpLibrary`: the library functions the client calls but does not
  implement. These are `json_encode`, `json_decode`, `hash('sha256')`,
  `hash_hmac('sha256')` (RFC 2104 over FIPS 180-4) and `base64_encode`
  (section 4 of RFC 4648). They are kept uninterpreted, as a record of total
  functions passed to the operations.
- `DynamoDb`: the pure construction steps, `RequestFor` as the specification
  of `call`, and two classes:
  - `HeaderMap` is the `$headers` array that is passed by reference and
    sorted in place.
  - `SimpleAmazonDynamoDB` is the client. Its credentials and configuration
    fields are constants. Its `status_code` and `raw_body` fields are updated
    by `Call`.
- `ItemAccess`: credential extraction, key wrapping, and the `Item` class
  with `CreateUsingTokenService` and `Fetch`.

Parameters stand in for I/O:

- The clock read `gmdate(DATE_RFC2822)` is the `date` argument.
- The HTTP exchange is a function `transport` from the assembled request to
  `(status code, body)`.
- The token service is a value with its `tokenDuration` and its `call`
  function.

Two behaviours worth noting:

- A GetSessionToken response whose credential fields are absent or not
  strings is an error in the model: `MissingCredential` names the first such
  field. PHP carries on with such values, as "## Left out" describes.
- SignedHeaders lists the header names after `ksort`, so in ascending order:
  `content-type;host;x-amz-date;x-amz-security-token;x-amz-target`
  (`SortedHeaderNames`, spelled out by `SignedHeadersLiteral`). This is not
  the order `getHeaders` inserts them in.

Rows below whose third column begins "Definition" name a function that
models a source operation directly. Its contract, if any, is part of that
definition, and the properties proved about it are in the rows of the
lemmas it names.

## Model

| member | source | states |
|---|---|---|
| PhpArrays.KeysOf | SimpleAmazonDynamoDB.php:49 | Definition of `array_keys`: the key of every entry, in array order |
| PhpArrays.IndexOf | SimpleAmazonDynamoDB.php:104 | the position of key `k`: absent exactly when no entry has key `k`; otherwise the first entry with key `k` |
| PhpArrays.Lookup | Item.php:21-23 | `$a[$k]` is absent exactly when no entry has key `k`; `LookupDistinct` gives the value read |
| PhpArrays.LookupDistinct | Item.php:21-23 | in an array with distinct keys, `$a[$k]` reads the value stored with `k` |
| PhpArrays.Assign | SimpleAmazonDynamoDB.php:104 | `$a[$k] = $v` appends a new key at the end and overwrites an existing key in place, keeping the key order |
| PhpArrays.AssignLookup | SimpleAmazonDynamoDB.php:104 | after `$a[$k] = $v`, `$a[$k]` reads `v` and every other key reads what it read before |
| PhpArrays.AssignDistinct | Item.php:35 | assignment keeps the keys of an array distinct |
| PhpArrays.KeyLess | SimpleAmazonDynamoDB.php:82 | Definition of the key order `ksort` uses (byte-wise, like `strcmp`); its contract states that a proper prefix sorts first. Order laws: `KeyLessIrreflexive`, `KeyLessTransitive`, `KeyLessTotal` |
| PhpArrays.KeyLessIrreflexive | SimpleAmazonDynamoDB.php:82 | the key order used by `ksort` is irreflexive |
| PhpArrays.KeyLessTransitive | SimpleAmazonDynamoDB.php:82 | the key order used by `ksort` is transitive |
| PhpArrays.KeyLessTotal | SimpleAmazonDynamoDB.php:82 | any two different keys are ordered one way or the other |
| PhpArrays.SortedDistinct | SimpleAmazonDynamoDB.php:82 | strictly ascending keys are pairwise distinct, so a sorted array is still a valid PHP array |
| PhpArrays.Insert | SimpleAmazonDynamoDB.php:82 | Definition of one insertion step of the sort; `InsertPermutes` and `InsertSorted` state its properties |
| PhpArrays.SortByKey | SimpleAmazonDynamoDB.php:82 | Definition of `ksort` as an insertion sort; its properties are the four rows below |
| PhpArrays.SortByKeyPermutes | SimpleAmazonDynamoDB.php:82 | `ksort` keeps exactly the same key/value entries (a permutation) |
| PhpArrays.SortByKeySorted | SimpleAmazonDynamoDB.php:82 | after `ksort` the keys strictly ascend |
| PhpArrays.SortedPermutationsEqual | SimpleAmazonDynamoDB.php:82 | a key-sorted arrangement of a set of entries is unique |
| PhpArrays.SortByKeyOrderIndependent | SimpleAmazonDynamoDB.php:82 | `ksort` gives the same result for any insertion order of the same entries |
| PhpValues.Get | Item.php:21-23 | Definition of `$v[$k]` on a decoded value: a lookup when `v` is an array, nothing otherwise |
| PhpValues.GetPath | Item.php:21-23 | Definition of the chained read `$v[$p0][$p1]...`; `GetPathSnoc` states how it extends |
| PhpValues.GetPathSnoc | Item.php:21-23 | following a nested key path one more step is one more array lookup |
| DynamoDb.Configure | SimpleAmazonDynamoDB.php:23-31 | Definition of the configuration the constructor options give; `ConfigureDefaults` and `ConfigureOverrides` state it |
| DynamoDb.ConfigureDefaults | SimpleAmazonDynamoDB.php:13-15 | without options the endpoint is `dynamodb.us-east-1.amazonaws.com`, HTTPS is on and the version is `20120810` |
| DynamoDb.ConfigureOverrides | SimpleAmazonDynamoDB.php:28-30 | Definition, field by field, of how `Configure` treats each option: a given option replaces its default and an absent one keeps it |
| DynamoDb.EncodeParams | SimpleAmazonDynamoDB.php:33-42 | the body is never `[]`; it equals the JSON encoding unless that is `[]`; it is `{}` exactly when the encoding is `[]` or `{}` |
| DynamoDb.GetHeaders | SimpleAmazonDynamoDB.php:64-74 | the five header names in insertion order, and distinct. The values are `host`=endpoint, `x-amz-date`=date, `x-amz-target`=`DynamoDB_<version>.<operation>`, `x-amz-security-token`=token and `content-type`=`application/x-amz-json-1.0` |
| DynamoDb.CanonicalLine | SimpleAmazonDynamoDB.php:85 | Definition of one `key:value\n` line of the canonical block |
| DynamoDb.CanonicalHeaders | SimpleAmazonDynamoDB.php:84-86 | Definition of the canonical block as a fold over the headers; `CanonicalHeadersSnoc` and `GetSignature` tie it to the loop |
| DynamoDb.CanonicalHeadersSnoc | SimpleAmazonDynamoDB.php:84-86 | appending `key:value\n` for one more header extends the canonical block, which is what the loop accumulates |
| DynamoDb.StringToSign | SimpleAmazonDynamoDB.php:89 | Definition of `POST\n/\n\n<canonical block>\n<body>`; `StringToSignInjective` states it keeps the body apart |
| DynamoDb.StringToSignInjective | SimpleAmazonDynamoDB.php:89 | for the same headers, two different bodies give two different strings to sign |
| DynamoDb.Signature | SimpleAmazonDynamoDB.php:90-91 | Definition of base64(HMAC-SHA-256(SHA-256(string to sign), secret key)) over the library functions |
| DynamoDb.Join | SimpleAmazonDynamoDB.php:58 | Definition of `join`; `JoinFour` and `SignedHeadersLiteral` state what it gives |
| DynamoDb.JoinFour | SimpleAmazonDynamoDB.php:58 | `join` of four parts puts the separator between neighbours |
| DynamoDb.AuthParam | SimpleAmazonDynamoDB.php:55 | Definition of one `name=value` field of the authorization value |
| DynamoDb.AuthorizationValue | SimpleAmazonDynamoDB.php:46-59 | Definition of the authorization value as `AWS3 ` and the four fields joined by `,`; `AuthorizationFormat` spells it out |
| DynamoDb.AuthorizationFormat | SimpleAmazonDynamoDB.php:44-62 | the authorization value is `AWS3 AWSAccessKeyId=<id>,Algorithm=HmacSHA256,SignedHeaders=<names>,Signature=<sig>` |
| DynamoDb.SignedHeadersLiteral | SimpleAmazonDynamoDB.php:49 | the SignedHeaders field of every request is `content-type`, `host`, `x-amz-date`, `x-amz-security-token`, `x-amz-target` joined by `;` |
| DynamoDb.HeaderLine | SimpleAmazonDynamoDB.php:117 | Definition of one `key: value` line handed to curl |
| DynamoDb.HeaderLines | SimpleAmazonDynamoDB.php:115-118 | Definition: one `key: value` line per header, in header order |
| DynamoDb.HeaderArray | SimpleAmazonDynamoDB.php:116-118 | the header-array loop produces exactly `HeaderLines` of the headers |
| DynamoDb.Url | SimpleAmazonDynamoDB.php:106 | Definition of `https://` or `http://` per `use_https`, then the endpoint and `/` |
| DynamoDb.RequestFor | SimpleAmazonDynamoDB.php:102-106 | Definition of the request `call` sends, step by step as `call` builds it; `RequestShape` states what it is |
| DynamoDb.GetHeadersSorted | SimpleAmazonDynamoDB.php:82 | `ksort` of the `getHeaders` headers yields content-type, host, x-amz-date, x-amz-security-token, x-amz-target with their values |
| DynamoDb.SortedHeadersSorted | SimpleAmazonDynamoDB.php:82 | that arrangement is strictly ascending by key |
| DynamoDb.CanonicalOrderIndependent | SimpleAmazonDynamoDB.php:81-86 | the canonical block and the SignedHeaders list are the same for any insertion order of the same headers |
| DynamoDb.AuthorizationAppended | SimpleAmazonDynamoDB.php:104 | the authorization header is not one of the signed five, so it is appended after them |
| DynamoDb.RequestShape | SimpleAmazonDynamoDB.php:102-122 | all of what `call` sends. The URL is `https://` or `http://` per `use_https`, then the endpoint and `/`. The header lines are the five sorted headers, then the authorization line, whose SignedHeaders is `SortedHeaderNames` joined by `;`. The signature covers the canonical block of those five and the posted body, which is `encodeParams(params)` |
| DynamoDb.HeaderMap.constructor | SimpleAmazonDynamoDB.php:102 | the header array `call` starts from holds the given entries, with distinct keys |
| DynamoDb.HeaderMap.Set | SimpleAmazonDynamoDB.php:104 | the by-reference header array after `$headers[$k] = $v`, still with distinct keys |
| DynamoDb.HeaderMap.KSort | SimpleAmazonDynamoDB.php:82 | the header array is sorted in place: its entries become `SortByKey` of the old ones, a permutation, strictly ascending |
| DynamoDb.SimpleAmazonDynamoDB.constructor | SimpleAmazonDynamoDB.php:23-31 | stores the three credentials and the configuration the options give; no call made yet |
| DynamoDb.SimpleAmazonDynamoDB.GetSignature | SimpleAmazonDynamoDB.php:76-94 | leaves the caller's headers sorted in place (`SortByKey` of the old ones, strictly ascending). The signature is base64(HMAC-SHA-256(SHA-256(`POST\n/\n\n` + canonical block + `\n` + body), secret key)) |
| DynamoDb.SimpleAmazonDynamoDB.GetAuthorization | SimpleAmazonDynamoDB.php:44-62 | the loop and join give the authorization value with the access key id, `HmacSHA256`, the header names joined by `;` and the signature |
| DynamoDb.SimpleAmazonDynamoDB.Call | SimpleAmazonDynamoDB.php:96-130 | sends exactly `RequestFor(...)`, stores the response body and status code, and returns the decoded body |
| ItemAccess.SessionTokenRequest | Item.php:16-18 | Definition of the GetSessionToken parameters `{DurationSeconds: tokenDuration}` |
| ItemAccess.CredentialField | Item.php:21-23 | Definition of one credential read at `GetSessionTokenResult.Credentials.<field>`, present only when it is a string |
| ItemAccess.ExtractCredentials | Item.php:20-24 | succeeds exactly when `AccessKeyId`, `SecretAccessKey` and `SessionToken` are strings at `GetSessionTokenResult.Credentials`, and then returns those three; an error names a field that is missing |
| ItemAccess.ExtractCredentialsRoundTrip | Item.php:20-24 | credentials placed at that path are read back unchanged |
| ItemAccess.ExtractCredentialsMissingPath | Item.php:20-24 | a response without `GetSessionTokenResult.Credentials` is an error |
| ItemAccess.GetValueTypeCode | Item.php:49-55 | Definition: the type code is `S` for every value |
| ItemAccess.AttributeValue | Item.php:35 | Definition of `[$code => $value]`, the single-entry attribute value |
| ItemAccess.FormatKeys | Item.php:31-36 | Definition of `$formattedKeys`, each key assigned its attribute value in turn; `FormatKeysShape` and `FormatKeysKeys` state what it is |
| ItemAccess.FormatKeysShape | Item.php:31-36 | the formatted keys are the input keys in the same order, each mapped to `{"S": value}` with the value unchanged |
| ItemAccess.FormatKeysKeys | Item.php:31-36 | the formatted keys have exactly the input's keys in order, and no keys give no keys |
| ItemAccess.GetItemParams | Item.php:38-44 | Definition of the GetItem parameters `{TableName: table, Key: formatted keys}` |
| ItemAccess.GetItemParamsExample | Item.php:38-44 | for id `abc123` in `Users`, the PHP value handed to `call` is `[TableName => Users, Key => [id => [S => abc123]]]`. The JSON text sent is `json_encode` of that value, which the model leaves uninterpreted |
| ItemAccess.Item.constructor | Item.php:7 | a new helper has no client |
| ItemAccess.Item.CreateUsingTokenService | Item.php:12-27 | calls GetSessionToken with `{DurationSeconds: tokenDuration}`, then builds a default-configured client from the extracted credentials, or reports the missing field |
| ItemAccess.Item.Fetch | Item.php:29-47 | makes exactly one `GetItem` call with `{TableName: table, Key: formatted keys}` and returns its decoded result unchanged |
| ItemAccess.SessionCredentialsUsed | Item.php:20-24 | a client built from a token response sends that session token as `x-amz-security-token` and signs with that secret |

## Left out

- The curl transport is modelled as the `transport` function from the request to the response. Connection handling, `CURLOPT_SSL_VERIFYPEER`, the user agent `SimpleAmazonDynamoDB/1.0`, and a failed `curl_exec` returning `false` are left out, because they are I/O.
- `total_time` and its rounding to three decimals are left out, because they are floating point.
- `json_encode`, `json_decode`, `hash`, `hash_hmac` and `base64_encode` are uninterpreted. Their only modelled property is that they are functions of their arguments, because they are library code.
- DynamoDb.EncodeParams: `json_encode` is modelled as always returning a string. When PHP's `json_encode` fails it returns `false`, which `encodeParams` passes on. The string to sign then ends in an empty body, and `false` is posted. This path is not modelled.
- Floating-point values and integer array keys are not part of `PhpValues.Value`. The client and `fetch` pass caller-supplied `$params` and key values on unchanged, so a caller's floats or integer keys fall outside the model.
- The clock read `gmdate(DATE_RFC2822)` is replaced by the `date` argument, because it is I/O.
- DynamoDb.Configure: the constructor's loop assigns any option to a property of the same name. Only `endpoint`, `use_https` and `version` are modelled, and they are typed: `endpoint` and `version` are strings and `use_https` is a boolean. PHP takes any value. It tests `use_https` for truthiness (so the string `'false'` still selects https) and interpolates a non-string endpoint or version as it is. Other option names, such as overriding the credentials, are dynamic property assignment and are left out.
- `call`'s default `$params = array()` is not a Dafny default argument. Callers pass `Arr([])`, for which `EncodeParams` gives `{}` when the library encodes it as `[]`.
- `SimpleAmazonSTS` is not part of this model. The token service is the `TokenService` value.
- Item.php:20 names the client class as `\dmleach\dynamophp\SimpleAmazonDynamoDB`, while SimpleAmazonDynamoDB.php declares it without a namespace. This class-loading mismatch is not behaviour the model represents.
- `ksort` on numeric-string keys, which PHP compares as numbers, is left out. Header names are never numeric.
- PHP strings are byte strings, and the model uses Dafny characters. Byte-wise order and code-point order agree on the ASCII header names.
- ItemAccess.Item.Fetch: requires a client (`db != null`). In PHP, calling `fetch` on an `Item` built with `new Item()` ends in a fatal error on a method call on `null`, which the model does not represent.
- ItemAccess.ExtractCredentials: fails on a missing or non-string field, where PHP carries on. For an absent field, PHP emits a warning and passes `null` to the client. For a present field that is not a string, PHP passes the value on as it is, so `"SessionToken": 12345` reaches the header as `12345`. The model returns `Failure(MissingCredential(field))` in both cases.
- ItemAccess.Item.CreateUsingTokenService: for the same reason, it returns the error above instead of a client with `null` or non-string credentials. That client is not modelled.
- DynamoDb.CanonicalOrderIndependent: stated only for header arrays with distinct keys. A PHP array cannot hold a key twice, and every array `getHeaders` builds satisfies this (`GetHeaders` ensures it).
