/** The JSON value tree (RFC 8259) the serializers build, and the behaviour of the
    two Gson containers they fill: a JsonObject is an insertion-ordered list of
    members in which `add` of a key already present replaces that member's value
    in place, and a JsonArray is a list that `add` extends at the end. */
module Gson {
  import opened Wrappers

  /** A number as a JsonPrimitive holds it: a Java byte, int or long, or a Java
      float kept as its 32-bit pattern (no arithmetic is done on floats). */
  datatype Num = Int(value: int) | Float(bits: bv32)

  datatype Json =
    | JNull
    | JBool(b: bool)
    | JNum(n: Num)
    | JStr(s: string)
    | JArr(items: seq<Json>)
    | JObj(fields: seq<(string, Json)>)

  /** The members of a JsonObject, in insertion order. */
  type Fields = seq<(string, Json)>

  function Keys(fs: Fields): (ks: seq<string>)
    ensures |ks| == |fs| && forall i :: 0 <= i < |fs| ==> ks[i] == fs[i].0
  {
    if fs == [] then [] else [fs[0].0] + Keys(fs[1..])
  }

  ghost predicate UniqueKeys(fs: Fields) {
    forall i, j :: 0 <= i < j < |fs| ==> fs[i].0 != fs[j].0
  }

  /** `JsonObject.get`: the value of the member named `k`, if any. */
  function Get(fs: Fields, k: string): Option<Json> {
    if fs == [] then None
    else if fs[0].0 == k then Some(fs[0].1)
    else Get(fs[1..], k)
  }

  /** `get` finds a member exactly when one has that name. */
  lemma {:induction false} GetSome(fs: Fields, k: string)
    ensures Get(fs, k).Some? <==> k in Keys(fs)
  {
    if fs != [] {
      GetSome(fs[1..], k);
    }
  }

  /** `JsonObject.add(k, v)`: a member already named `k` gets the new value and
      keeps its position; otherwise the member is appended. `get` then finds
      the new value under `k` and every other member as it was. */
  function Put(fs: Fields, k: string, v: Json): (r: Fields)
    ensures Get(r, k) == Some(v)
    ensures forall k' :: k' != k ==> Get(r, k') == Get(fs, k')
  {
    if fs == [] then [(k, v)]
    else if fs[0].0 == k then [(k, v)] + fs[1..]
    else
      var rest := Put(fs[1..], k, v);
      assert ([fs[0]] + rest)[1..] == rest;
      [fs[0]] + rest
  }

  /** A new name is appended after the existing members; a name already
      present keeps its place in the order. */
  lemma {:induction false} PutKeys(fs: Fields, k: string, v: Json)
    ensures k !in Keys(fs) ==> Put(fs, k, v) == fs + [(k, v)]
    ensures Keys(Put(fs, k, v)) == if k in Keys(fs) then Keys(fs) else Keys(fs) + [k]
  {
    if fs != [] && fs[0].0 != k {
      PutKeys(fs[1..], k, v);
      assert ([fs[0]] + Put(fs[1..], k, v))[1..] == Put(fs[1..], k, v);
    }
  }

  /** `add` under a condition: nothing changes when `c` is false. */
  function PutIf(fs: Fields, c: bool, k: string, v: Json): (r: Fields)
    ensures Get(r, k) == if c then Some(v) else Get(fs, k)
    ensures forall k' :: k' != k ==> Get(r, k') == Get(fs, k')
  {
    if c then Put(fs, k, v) else fs
  }

  /** `add` never repeats a member name. */
  lemma PutUnique(fs: Fields, k: string, v: Json)
    requires UniqueKeys(fs)
    ensures UniqueKeys(Put(fs, k, v))
  {
    var r := Put(fs, k, v);
    PutKeys(fs, k, v);
    forall i, j | 0 <= i < j < |r| ensures r[i].0 != r[j].0 {
      assert Keys(r)[i] == r[i].0 && Keys(r)[j] == r[j].0;
      if j == |fs| {
        assert Keys(fs)[i] == fs[i].0;
      } else {
        assert Keys(fs)[i] == fs[i].0 && Keys(fs)[j] == fs[j].0;
      }
    }
  }

  /** Replacing a member keeps its position and leaves every other member where
      and as it was. */
  lemma {:induction false} PutInPlace(fs: Fields, k: string, v: Json)
    requires UniqueKeys(fs) && k in Keys(fs)
    ensures var r := Put(fs, k, v);
      |r| == |fs| && forall i :: 0 <= i < |fs| ==> r[i] == if fs[i].0 == k then (k, v) else fs[i]
  {
    if fs[0].0 != k {
      PutInPlace(fs[1..], k, v);
    } else {
      assert k !in Keys(fs[1..]);
    }
  }

  /** A run of `add` calls, one per member of `src`, in order. */
  function PutAll(dst: Fields, src: Fields): Fields
    decreases |src|
  {
    if src == [] then dst else PutAll(Put(dst, src[0].0, src[0].1), src[1..])
  }

  /** An optional member: present exactly when `o` is. */
  function Member(k: string, o: Option<Json>): Fields {
    if o.Some? then [(k, o.value)] else []
  }

  function AsString(s: string): Json {
    JStr(s)
  }

  function Map<T, U>(f: T -> U, xs: seq<T>): seq<U> {
    seq(|xs|, i requires 0 <= i < |xs| => f(xs[i]))
  }

  lemma KeysAppend(a: Fields, b: Fields)
    ensures Keys(a + b) == Keys(a) + Keys(b)
  {
  }

  /** Looking a name up in two member lists placed one after the other finds
      it in the first list when it is there, otherwise in the second. */
  lemma {:induction false} GetAppend(a: Fields, b: Fields, k: string)
    ensures Get(a + b, k) == if k in Keys(a) then Get(a, k) else Get(b, k)
  {
    if a == [] {
      assert a + b == b;
    } else {
      assert (a + b)[0] == a[0] && (a + b)[1..] == a[1..] + b;
      GetAppend(a[1..], b, k);
    }
  }

  lemma PutAllOne(dst: Fields, k: string, v: Json)
    ensures PutAll(dst, [(k, v)]) == Put(dst, k, v)
  {
    assert [(k, v)][1..] == [];
  }

  /** Two `add` calls in a row. */
  lemma PutAllTwo(dst: Fields, a: (string, Json), b: (string, Json))
    ensures PutAll(dst, [a, b]) == Put(Put(dst, a.0, a.1), b.0, b.1)
  {
    assert [a, b][1..] == [b];
    PutAllOne(Put(dst, a.0, a.1), b.0, b.1);
  }

  /** In a member list without repeated names, the member at position `i` is
      the one `Get` finds. */
  lemma {:induction false} GetAt(fs: Fields, i: nat)
    requires UniqueKeys(fs) && i < |fs|
    ensures Get(fs, fs[i].0) == Some(fs[i].1)
  {
    if i > 0 {
      assert fs[1..][i - 1] == fs[i];
      GetAt(fs[1..], i - 1);
    }
  }

  /** After a run of `add` calls with distinct names, each name written has the
      value written last, and every other member is as it was. */
  lemma {:induction false} PutAllGet(dst: Fields, src: Fields, k: string)
    requires UniqueKeys(src)
    ensures Get(PutAll(dst, src), k) == if k in Keys(src) then Get(src, k) else Get(dst, k)
    decreases |src|
  {
    if src != [] {
      PutAllGet(Put(dst, src[0].0, src[0].1), src[1..], k);
    }
  }

  /** Dropping the first member keeps the names distinct, and the first name is
      not among the rest. */
  lemma UniqueRest(src: Fields)
    requires UniqueKeys(src) && src != []
    ensures UniqueKeys(src[1..]) && src[0].0 !in Keys(src[1..])
  {
    var rest := src[1..];
    forall i, j | 0 <= i < j < |rest| ensures rest[i].0 != rest[j].0 {
      assert rest[i] == src[i + 1] && rest[j] == src[j + 1];
    }
  }

  lemma SplitFirst<T>(a: seq<T>, b: seq<T>)
    requires b != []
    ensures a + b == a + [b[0]] + b[1..]
  {
    assert b == [b[0]] + b[1..];
  }

  /** When no name of `src` is already present, the run of `add` calls appends
      `src` as it stands. */
  lemma {:induction false} PutAllFresh(dst: Fields, src: Fields)
    requires UniqueKeys(src)
    requires forall k :: k in Keys(src) ==> k !in Keys(dst)
    ensures PutAll(dst, src) == dst + src
    decreases |src|
  {
    if src != [] {
      var k0, rest := src[0].0, src[1..];
      assert Keys(src) == [k0] + Keys(rest);
      UniqueRest(src);
      var d' := Put(dst, k0, src[0].1);
      PutKeys(dst, k0, src[0].1);
      assert d' == dst + [src[0]];
      assert forall k :: k in Keys(rest) ==> k !in Keys(d') by {
        KeysAppend(dst, [src[0]]);
      }
      PutAllFresh(d', rest);
      SplitFirst(dst, src);
    }
  }
}
