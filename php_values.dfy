/**
 * The PHP values the client exchanges with `json_encode` and
 * `json_decode($s, true)`: scalars and ordered arrays keyed by strings.
 */
module PhpValues {
  import opened Wrappers
  import opened PhpArrays

  datatype Value =
    | Null
    | Bool(b: bool)
    | Int(i: int)
    | Str(s: string)
    | Arr(entries: seq<(string, Value)>)

  /** `$v[$k]` on a decoded response: a value when `v` is an array holding `k`. */
  function Get(v: Value, k: string): Option<Value> {
    match v
    case Arr(entries) => Lookup(entries, k)
    case _ => None
  }

  /** `$v[$p0][$p1]...`: follow a path of keys through nested arrays. */
  function GetPath(v: Value, path: seq<string>): Option<Value>
    decreases |path|
  {
    if path == [] then Some(v)
    else
      match Get(v, path[0])
      case None => None
      case Some(w) => GetPath(w, path[1..])
  }

  /** Following `path + [k]` is following `path` and then taking key `k`. */
  lemma {:induction false} GetPathSnoc(v: Value, path: seq<string>, k: string)
    ensures GetPath(v, path + [k]) == match GetPath(v, path) case None => None case Some(w) => Get(w, k)
    decreases |path|
  {
    if path == [] {
      assert [] + [k] == [k];
    } else {
      assert (path + [k])[0] == path[0];
      assert (path + [k])[1..] == path[1..] + [k];
      match Get(v, path[0])
      case None =>
      case Some(w) => GetPathSnoc(w, path[1..], k);
    }
  }
}
