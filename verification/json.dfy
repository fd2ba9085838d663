/** The subset of serde_json's `Value` the normalisation rules look at, and
    the object accessors the rules use. */
module Json {

  /** A JSON value.  Numbers are kept as integers: no rule inspects them. */
  datatype Value =
    | Null
    | Bool(b: bool)
    | Number(n: int)
    | String(s: string)
    | Array(elems: seq<Value>)
    | Object(fields: map<string, Value>)

  /** The fields of a JSON object: one decoded trace record. */
  type Record = map<string, Value>

  /** `rec.has(key)`: the object contains the key, whatever its value. */
  predicate Has(rec: Record, key: string) {
    key in rec
  }

  /** `rec.set(key, v)`: insert the key, or overwrite its value. */
  function Set(rec: Record, key: string, v: Value): Record {
    rec[key := v]
  }

  /** `rec[key]` in serde_json: indexing by a missing key reads as `null`. */
  function Get(rec: Record, key: string): Value {
    if key in rec then rec[key] else Null
  }

  /** `big` keeps every field of `small` with its value; it may add fields. */
  ghost predicate Extends(small: Record, big: Record) {
    forall k :: k in small ==> k in big && big[k] == small[k]
  }
}
