/** A PHP array used as a keyed table: an insertion-ordered map from string
    keys to records. Assigning to an existing key keeps its position,
    assigning to a new key appends it, and `unset` removes it. */
module Tables {

  import opened Wrappers
  import opened Text

  datatype OrderedMap<T> = OrderedMap(keys: seq<string>, rows: map<string, T>) {
    /** Every key once, and exactly the keys of the map. */
    ghost predicate Valid() {
      NoDup(keys) && forall k :: k in rows <==> k in keys
    }
  }

  /** Every table the program can build is a well-formed ordered map. */
  type Table<T> = t: OrderedMap<T> | t.Valid() witness OrderedMap([], map[])

  function Empty<T>(): (t: Table<T>)
    ensures t.keys == [] && t.rows == map[]
  {
    OrderedMap([], map[])
  }

  /** `$table[$k] = $v` */
  function Put<T>(t: Table<T>, k: string, v: T): (r: Table<T>)
    ensures r.rows == t.rows[k := v]
    ensures k in t.rows ==> r.keys == t.keys
    ensures k !in t.rows ==> r.keys == t.keys + [k]
  {
    if k in t.rows then
      OrderedMap(t.keys, t.rows[k := v])
    else
      var keys := t.keys + [k];
      assert NoDup(keys) by {
        forall i, j | 0 <= i < j < |keys| ensures keys[i] != keys[j] {
          if j == |t.keys| { assert keys[i] in t.keys; }
        }
      }
      OrderedMap(keys, t.rows[k := v])
  }

  /** `unset($table[$k])`: the other keys keep their order. */
  function Remove<T>(t: Table<T>, k: string): (r: Table<T>)
    ensures r.rows == t.rows - {k}
    ensures r.keys == Without(t.keys, k)
  {
    OrderedMap(Without(t.keys, k), t.rows - {k})
  }

  /** `$table[$k] ?? null` */
  function Get<T>(t: Table<T>, k: string): (r: Option<T>)
    ensures r.Some? <==> k in t.rows
    ensures r.Some? ==> r.value == t.rows[k]
  {
    if k in t.rows then Some(t.rows[k]) else None
  }

  /** `array_values($table)`: the records in key order. */
  function Values<T>(t: Table<T>): (vs: seq<T>)
    ensures |vs| == |t.keys|
    ensures forall i :: 0 <= i < |t.keys| ==> vs[i] == t.rows[t.keys[i]]
  {
    seq(|t.keys|, i requires 0 <= i < |t.keys| => t.rows[t.keys[i]])
  }

  /** Writing back the record already stored changes nothing. */
  lemma {:induction false} PutSame<T>(t: Table<T>, k: string)
    requires k in t.rows
    ensures Put(t, k, t.rows[k]) == t
  {
    assert t.rows[k := t.rows[k]] == t.rows;
  }

  /** A second write to an existing key overrides the first. */
  lemma PutTwice<T>(t: Table<T>, k: string, v: T, w: T)
    requires k in t.rows
    ensures Put(Put(t, k, v), k, w) == Put(t, k, w)
  {
  }
}
