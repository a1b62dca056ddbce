/**
 * `url.Values` from Go's standard library, as the request code uses it: a
 * map from a parameter name to the ordered list of its values. It is a
 * reference type in Go (a map), so the builder is a class whose one field
 * the methods reassign.
 */
module UrlValues {

  /** The value of a `url.Values`: parameter name to its ordered values. */
  type Query = map<string, seq<string>>

  /** All values of `key`, or none when the key is absent (`v[key]` on a Go map). */
  function ValuesOf(q: Query, key: string): seq<string>
  {
    if key in q then q[key] else []
  }

  /** `Values.Get`: the first value of `key`, or "" when there is none. */
  function First(q: Query, key: string): string
  {
    var vs := ValuesOf(q, key);
    if |vs| == 0 then "" else vs[0]
  }

  class Values {
    var entries: Query

    /** `url.Values{}`: no parameters. */
    constructor ()
      ensures entries == map[]
    {
      entries := map[];
    }

    /** `Values.Set`: `key` now holds exactly `[value]`, whatever it held before. */
    method Set(key: string, value: string)
      modifies this
      ensures entries == old(entries)[key := [value]]
    {
      entries := entries[key := [value]];
    }

    /** `Values.Add`: `value` is appended to the values of `key`. */
    method Add(key: string, value: string)
      modifies this
      ensures entries == old(entries)[key := ValuesOf(old(entries), key) + [value]]
    {
      entries := entries[key := ValuesOf(entries, key) + [value]];
    }
  }
}
