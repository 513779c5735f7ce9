/**
 * Swift dictionaries as Dafny maps: reading `d[k]` yields an optional value,
 * and assigning `d[k] = v` stores `v` when it is present and removes `k` when
 * `v` is `nil`.
 */
module Dictionary {
  import opened Wrappers

  /** `d[key]` read as an optional value. */
  function Lookup<V>(d: map<string, V>, key: string): (r: Option<V>)
    ensures r.Some? <==> key in d
    ensures r.Some? ==> r.value == d[key]
  {
    if key in d then Some(d[key]) else None
  }

  /** `d[key] = value`: stores a present value, removes the key for `nil`, and leaves every other key as it was. */
  function Put<V>(d: map<string, V>, key: string, value: Option<V>): (r: map<string, V>)
    ensures Lookup(r, key) == value
    ensures r - {key} == d - {key}
  {
    match value
    case Some(v) => d[key := v]
    case None => d - {key}
  }
}
