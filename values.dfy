/** The dynamic values held by the assessment store and the forms, and the
    shallow, right-biased object spread `{ ...prev, ...data }`. */
module Values {

  import opened Wrappers

  /** A JavaScript value as the application stores it. `Null` stands for both
      `null` and a property explicitly set to `undefined`: optional chaining
      stops at either, and neither equals a string. Numbers are integers. */
  datatype Value =
    | Null
    | Bool(b: bool)
    | Num(n: int)
    | Str(s: string)
    | Arr(items: seq<Value>)
    | Obj(fields: map<string, Value>)

  /** A `Partial<T>` record: the keys that are present and their values. */
  type Record = map<string, Value>

  /** `{ ...prev, ...data }`: every key of `data` takes `data`'s value, every
      other key of `prev` keeps its value, and nothing else is present. */
  function Merge(prev: Record, data: Record): (r: Record)
    ensures r.Keys == prev.Keys + data.Keys
    ensures forall k :: k in data ==> r[k] == data[k]
    ensures forall k :: k in prev && k !in data ==> r[k] == prev[k]
  {
    prev + data
  }

  /** Merging the same partial record twice is merging it once. */
  lemma MergeIdempotent(prev: Record, data: Record)
    ensures Merge(Merge(prev, data), data) == Merge(prev, data)
  {
    assert Merge(Merge(prev, data), data).Keys == Merge(prev, data).Keys;
  }

  /** Two merges in a row are one merge with the later partial winning. */
  lemma MergeTwice(prev: Record, p: Record, q: Record)
    ensures Merge(Merge(prev, p), q) == Merge(prev, Merge(p, q))
  {
    assert Merge(Merge(prev, p), q).Keys == Merge(prev, Merge(p, q)).Keys;
  }

  /** Merging an empty partial record leaves the record as it was. */
  lemma MergeEmpty(prev: Record)
    ensures Merge(prev, map[]) == prev
  {
    assert Merge(prev, map[]).Keys == prev.Keys;
  }

  /** The merge is shallow: a nested object in the partial replaces the old
      nested object as a whole, so fields of the old object that the new one
      lacks are gone. */
  lemma MergeIsShallow(prev: Record, key: string, inner: map<string, Value>, lost: string)
    requires key in prev && prev[key].Obj? && lost in prev[key].fields
    requires lost !in inner
    ensures Merge(prev, map[key := Obj(inner)])[key] == Obj(inner)
    ensures lost !in Merge(prev, map[key := Obj(inner)])[key].fields
  {
  }

  /** `rec.key`, or None when the key is absent. */
  function Field(rec: Record, key: string): (r: Option<Value>)
    ensures r.Some? <==> key in rec
    ensures r.Some? ==> r.value == rec[key]
  {
    if key in rec then Some(rec[key]) else None
  }

  /** `rec.outer?.inner`: present only when `outer` holds an object that has the
      key `inner`; a missing, `null` or non-object `outer` yields nothing. */
  function Path(rec: Record, outer: string, inner: string): (r: Option<Value>)
    ensures r.Some? <==> outer in rec && rec[outer].Obj? && inner in rec[outer].fields
    ensures r.Some? ==> r.value == rec[outer].fields[inner]
  {
    match Field(rec, outer)
    case Some(Obj(m)) => if inner in m then Some(m[inner]) else None
    case _ => None
  }
}
