/** The JSON values the runners build and hand on, with Python dict semantics
    for objects: keys keep their insertion order and `d[k] = v` replaces a
    present key in place or appends a new one. */
module Json {
  import opened Results

  /** The decimal text of a Python float. The runners copy float fields into
      the document and never compute with them. */
  datatype Float = Float(literal: string)

  datatype Json =
    | Null
    | Bool(b: bool)
    | Int(i: int)
    | Num(f: Float)
    | Str(s: string)
    | Array(items: seq<Json>)
    | Object(fields: seq<Field>)

  /** One key-value pair of an object, in insertion order. */
  type Field = (string, Json)

  function Keys(fields: seq<Field>): seq<string> {
    seq(|fields|, i requires 0 <= i < |fields| => fields[i].0)
  }

  /** `d.get(k)`: the value of the first pair with key `k`. */
  function Get(fields: seq<Field>, k: string): Option<Json> {
    if |fields| == 0 then None
    else if fields[0].0 == k then Some(fields[0].1)
    else Get(fields[1..], k)
  }

  /** `d.get(k)` on a value that may not be an object. */
  function Member(j: Json, k: string): Option<Json> {
    if j.Object? then Get(j.fields, k) else None
  }

  /** A Python dict never holds a key twice. */
  ghost predicate UniqueKeys(fields: seq<Field>) {
    forall i, j :: 0 <= i < j < |fields| ==> fields[i].0 != fields[j].0
  }

  /** `d[k] = v`: a present key keeps its position and takes the new value,
      a new key goes last. */
  function Put(fields: seq<Field>, k: string, v: Json): (r: seq<Field>)
    ensures k !in Keys(fields) ==> r == fields + [(k, v)]
    ensures k in Keys(fields) ==> Keys(r) == Keys(fields)
    ensures Get(r, k) == Some(v)
    ensures forall k' :: k' != k ==> Get(r, k') == Get(fields, k')
  {
    if |fields| == 0 then [(k, v)]
    else if fields[0].0 == k then
      assert Keys(fields)[0] == k;
      assert Keys([(k, v)] + fields[1..]) == Keys(fields);
      [(k, v)] + fields[1..]
    else
      var rest := Put(fields[1..], k, v);
      assert Keys(fields) == [fields[0].0] + Keys(fields[1..]);
      assert Keys([fields[0]] + rest) == [fields[0].0] + Keys(rest);
      [fields[0]] + rest
  }

  /** `if x: d[k] = x`: the assignment happens only when a value is given.
      On a key the dict does not yet hold, it appends or leaves the dict
      alone. */
  function PutOpt(fields: seq<Field>, k: string, v: Option<Json>): (r: seq<Field>)
    ensures k !in Keys(fields) ==> r == fields + (if v.Some? then [(k, v.value)] else [])
    ensures k !in Keys(fields) ==> Keys(r) == Keys(fields) + (if v.Some? then [k] else [])
    ensures k !in Keys(fields) ==> Get(r, k) == v
    ensures forall k' :: k' != k ==> Get(r, k') == Get(fields, k')
  {
    if v.Some? then Put(fields, k, v.value)
    else
      GetNone(fields, k);
      assert fields + [] == fields;
      fields
  }

  lemma KeysAppend(a: seq<Field>, b: seq<Field>)
    ensures Keys(a + b) == Keys(a) + Keys(b)
  {
  }

  /** Looking a key up in a concatenation consults the second part only when
      the first part lacks the key. */
  lemma {:induction false} GetAppend(a: seq<Field>, b: seq<Field>, k: string)
    ensures Get(a + b, k) == if k in Keys(a) then Get(a, k) else Get(b, k)
    decreases |a|
  {
    if |a| == 0 {
      assert a + b == b;
    } else {
      assert (a + b)[1..] == a[1..] + b;
      assert Keys(a) == [a[0].0] + Keys(a[1..]);
      GetAppend(a[1..], b, k);
    }
  }

  /** The lookup finds the pair at position `i` when no earlier pair has its
      key. */
  lemma {:induction false} GetAt(fields: seq<Field>, i: int)
    requires 0 <= i < |fields|
    requires fields[i].0 !in Keys(fields[..i])
    ensures Get(fields, fields[i].0) == Some(fields[i].1)
    decreases i
  {
    if i > 0 {
      assert Keys(fields[..i]) == [fields[0].0] + Keys(fields[1..][..i - 1]);
      assert fields[1..][i - 1] == fields[i];
      GetAt(fields[1..], i - 1);
    }
  }

  /** Pairs appended after the last occurrence of a key do not change its
      lookup. */
  lemma GetSkip(a: seq<Field>, b: seq<Field>, k: string)
    requires k !in Keys(b)
    ensures Get(a + b, k) == Get(a, k)
  {
    GetAppend(a, b, k);
    GetNone(b, k);
    GetNone(a, k);
  }

  /** A key is absent exactly when the lookup finds nothing. */
  lemma {:induction false} GetNone(fields: seq<Field>, k: string)
    ensures Get(fields, k) == None <==> k !in Keys(fields)
    decreases |fields|
  {
    if |fields| > 0 {
      assert Keys(fields) == [fields[0].0] + Keys(fields[1..]);
      GetNone(fields[1..], k);
    }
  }

  /** Assigning a key the value it already has changes nothing. */
  lemma {:induction false} PutSame(fields: seq<Field>, k: string, v: Json)
    requires Get(fields, k) == Some(v)
    ensures Put(fields, k, v) == fields
    decreases |fields|
  {
    if fields[0].0 != k {
      PutSame(fields[1..], k, v);
    }
  }

  /** Repeating an assignment changes nothing. */
  lemma PutTwice(fields: seq<Field>, k: string, v: Json)
    ensures Put(Put(fields, k, v), k, v) == Put(fields, k, v)
  {
    PutSame(Put(fields, k, v), k, v);
  }

  /** Assigning to a dict with unique keys keeps its keys unique. */
  lemma PutUnique(fields: seq<Field>, k: string, v: Json)
    requires UniqueKeys(fields)
    ensures UniqueKeys(Put(fields, k, v))
  {
    var r := Put(fields, k, v);
    if k !in Keys(fields) {
      forall i, j | 0 <= i < j < |r|
        ensures r[i].0 != r[j].0
      {
        if j == |fields| {
          assert Keys(fields)[i] == r[i].0;
        }
      }
    } else {
      assert Keys(r) == Keys(fields);
      forall i, j | 0 <= i < j < |r|
        ensures r[i].0 != r[j].0
      {
        assert Keys(r)[i] == r[i].0 && Keys(r)[j] == r[j].0;
        assert Keys(fields)[i] == fields[i].0 && Keys(fields)[j] == fields[j].0;
      }
    }
  }
}
