/**
 * The PHP library functions the client relies on and does not implement:
 * JSON encoding and decoding, SHA-256 (FIPS 180-4), HMAC-SHA-256 (RFC 2104)
 * and base64 (section 4 of RFC 4648). They are left uninterpreted: the model
 * receives them as a record of total functions, so every result is a
 * deterministic function of its arguments and nothing more is assumed.
 */
module PhpLibrary {
  import opened PhpValues

  datatype Library = Library(
    /** `json_encode($v)`. */
    jsonEncode: Value -> string,
    /** `json_decode($s, true)`; `Null` when `s` is not valid JSON. */
    jsonDecode: string -> Value,
    /** `hash('sha256', $data, true)`: the raw digest as a binary string. */
    sha256: string -> string,
    /** `hash_hmac('sha256', $data, $key, true)`, arguments in that order. */
    hmacSha256: (string, string) -> string,
    /** `base64_encode($data)`. */
    base64Encode: string -> string
  )
}
