/**
 * The JSON tree the perspective snapshot is written to and read from.
 * An object is an association list: its members are kept in insertion order,
 * which is also the order its keys are iterated in.
 */
module Json {
  import opened Wrappers

  datatype Value =
    | Null
    | Bool(b: bool)
    | Number(n: real)
    | Str(s: string)
    | Array(items: seq<Value>)
    | Object(members: seq<Member>)

  datatype Member = Member(key: string, value: Value)

  type Obj = seq<Member>

  /** The object has a member with key `k`. */
  predicate HasKey(o: Obj, k: string) {
    exists i :: 0 <= i < |o| && o[i].key == k
  }

  /** The value stored under `k`, or None when there is none. */
  function Get(o: Obj, k: string): (r: Option<Value>)
    ensures r.Some? <==> HasKey(o, k)
    ensures r.Some? ==> Member(k, r.value) in o
  {
    if o == [] then None
    else if o[0].key == k then Some(o[0].value)
    else Get(o[1..], k)
  }

  /**
   * `put`: replaces the value of an existing key where it stands,
   * otherwise appends a new member.
   */
  function Put(o: Obj, k: string, v: Value): (r: Obj)
    ensures Get(r, k) == Some(v)
    ensures forall k' :: k' != k ==> Get(r, k') == Get(o, k')
    ensures !HasKey(o, k) ==> r == o + [Member(k, v)]
    ensures HasKey(o, k) ==> |r| == |o|
  {
    if o == [] then [Member(k, v)]
    else if o[0].key == k then [Member(k, v)] + o[1..]
    else [o[0]] + Put(o[1..], k, v)
  }

  /**
   * No two members share a key, as in a JSON object `put` builds; the read
   * side accepts any association list and takes the first member.
   */
  predicate DistinctKeys(o: Obj) {
    forall i, j :: 0 <= i < j < |o| ==> o[i].key != o[j].key
  }

  /** `put` keeps an object's keys distinct. */
  lemma {:induction false} PutKeepsDistinct(o: Obj, k: string, v: Value)
    requires DistinctKeys(o)
    ensures DistinctKeys(Put(o, k, v))
    decreases |o|
  {
    if o != [] && o[0].key != k {
      PutKeepsDistinct(o[1..], k, v);
      var t := Put(o[1..], k, v);
      forall j | 0 <= j < |t| ensures t[j].key != o[0].key {
        if t[j].key == k {
        } else {
          assert Get(t, t[j].key).Some?;
          assert Get(o[1..], t[j].key).Some?;
          assert HasKey(o[1..], t[j].key);
        }
      }
    }
  }

  /** `put` of a key no member has appends it. */
  lemma PutFresh(o: Obj, k: string, v: Value)
    requires forall i :: 0 <= i < |o| ==> o[i].key != k
    ensures Put(o, k, v) == o + [Member(k, v)]
  {
  }

  /** `JsonArray.set(i, v)` for an index at most the length: overwrite or append. */
  function ArraySet(a: seq<Value>, i: nat, v: Value): (r: seq<Value>)
    requires i <= |a|
    ensures |r| == if i == |a| then |a| + 1 else |a|
    ensures r[i] == v
    ensures forall j :: 0 <= j < |a| && j != i ==> r[j] == a[j]
  {
    if i == |a| then a + [v] else a[i := v]
  }
}
