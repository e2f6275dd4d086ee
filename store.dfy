/** The record-store logic that the three routers share: each handler reads
    a whole JSON array, scans it linearly (`find`, `findIndex`, first match
    wins), assigns new ids as "last element's id + 1", and removes records
    with `splice`. */
module Store {
  import opened Json

  /** What a handler answers. `Malformed` stands for a request or record of
      a shape the handler cannot use (JavaScript would throw a TypeError, or
      `+` would concatenate); the model then changes nothing. */
  datatype Response<+T> = Ok(value: T) | NotFound | AuthFailure | Malformed

  /** `i` is the first index of `s` whose element satisfies `p`. */
  ghost predicate IsFirst<T>(s: seq<T>, i: int, p: T -> bool) {
    && 0 <= i < |s|
    && p(s[i])
    && forall j :: 0 <= j < i ==> !p(s[j])
  }

  /** `Array.prototype.findIndex`: the first index satisfying `p`, or -1. */
  function FindIndex<T>(s: seq<T>, p: T -> bool): (i: int)
    ensures -1 <= i < |s|
    ensures i >= 0 ==> IsFirst(s, i, p)
    ensures i < 0 <==> forall j :: 0 <= j < |s| ==> !p(s[j])
    decreases |s|
  {
    if |s| == 0 then -1
    else if p(s[0]) then 0
    else
      var k := FindIndex(s[1..], p);
      if k < 0 then -1 else k + 1
  }

  /** `Array.prototype.find`: the first element satisfying `p`, or undefined. */
  function Find<T>(s: seq<T>, p: T -> bool): (r: Option<T>)
    ensures r.None? <==> forall j :: 0 <= j < |s| ==> !p(s[j])
    ensures r.Some? ==> exists i :: IsFirst(s, i, p) && s[i] == r.value
  {
    var i := FindIndex(s, p);
    if i < 0 then None else Some(s[i])
  }

  /** `r.key === n` for a number `n` parsed from the request path. */
  predicate HasKey(r: Record, key: string, n: int) {
    StrictEquals(Get(r, key), Some(Num(n)))
  }

  /** `s.findIndex(r => r.key === n)`. */
  function IndexWith(s: seq<Record>, key: string, n: int): (i: int)
    ensures -1 <= i < |s|
    ensures i >= 0 ==> key in s[i] && s[i][key] == Num(n)
    ensures i >= 0 ==> forall j :: 0 <= j < i ==> !HasKey(s[j], key, n)
    ensures i < 0 <==> forall j :: 0 <= j < |s| ==> !HasKey(s[j], key, n)
  {
    FindIndex(s, r => HasKey(r, key, n))
  }

  /** Replacing the first record with key `n` by another record with key `n`
      keeps it the first match: a later lookup finds the replacement. */
  lemma ReplacedIsFoundAgain(s: seq<Record>, key: string, n: int, v: Record)
    requires IndexWith(s, key, n) >= 0
    requires key in v && v[key] == Num(n)
    ensures IndexWith(s[IndexWith(s, key, n) := v], key, n) == IndexWith(s, key, n)
  {
    var i := IndexWith(s, key, n);
    var s' := s[i := v];
    assert HasKey(s'[i], key, n);
    assert forall j :: 0 <= j < i ==> s'[j] == s[j];
  }

  /** JavaScript's `v + 1` on a property read, as `JSON.stringify` then stores
      it: NaN (from `undefined + 1`) is written as null, `null` and booleans
      count as 0 and 1, strings and objects concatenate. */
  function PlusOne(v: Option<Value>): (r: Value)
    ensures v.Some? && v.value.Num? ==> r == Num(v.value.n + 1)
    ensures v.None? ==> r == Null
    ensures v == Some(Null) ==> r == Num(1)
    ensures v.Some? && v.value.Str? ==> r == Str(v.value.s + "1")
  {
    match v
    case None => Null
    case Some(Num(n)) => Num(n + 1)
    case Some(Null) => Num(1)
    case Some(Bool(b)) => Num(if b then 2 else 1)
    case Some(Str(s)) => Str(s + "1")
    case Some(Obj(_)) => Str("[object Object]1")
    case Some(Arr(_)) => Null
  }

  /** `s.length > 0 ? s[s.length - 1].id + 1 : 1`. */
  function NextId(s: seq<Record>): (id: Value)
    ensures |s| == 0 ==> id == Num(1)
    ensures |s| > 0 && NumField(s[|s| - 1], "id").Some? ==>
      id == Num(NumField(s[|s| - 1], "id").value + 1)
  {
    if |s| > 0 then PlusOne(Get(s[|s| - 1], "id")) else Num(1)
  }

  /** `{ id: id, ...body }`: exactly the fields of the body plus `id`; the
      body's own `id`, when it has one, overrides the given one. */
  function WithId(id: Value, body: Record): (r: Record)
    ensures r.Keys == body.Keys + {"id"}
    ensures forall k :: k in body ==> r[k] == body[k]
    ensures "id" !in body ==> r["id"] == id
  {
    Spread(map["id" := id], body)
  }

  /** The record a create appends: `{ id: NextId(s), ...body }`. */
  function NewRecord(s: seq<Record>, body: Record): (r: Record)
    ensures r.Keys == body.Keys + {"id"}
    ensures forall k :: k in body ==> r[k] == body[k]
    ensures "id" !in body ==> r["id"] == NextId(s)
  {
    WithId(NextId(s), body)
  }

  /** `s.splice(i, 1)`: the record at `i` is gone, the others keep their order. */
  function RemoveAt<T>(s: seq<T>, i: int): (r: seq<T>)
    requires 0 <= i < |s|
    ensures |r| == |s| - 1
    ensures forall j :: 0 <= j < i ==> r[j] == s[j]
    ensures forall j :: i <= j < |r| ==> r[j] == s[j + 1]
    ensures multiset(r) + multiset{s[i]} == multiset(s)
  {
    assert s == s[..i] + [s[i]] + s[i + 1..];
    s[..i] + s[i + 1..]
  }

  /** The collection after one create per body, in order. */
  function CreateAll(s: seq<Record>, bodies: seq<Record>): (r: seq<Record>)
    decreases |bodies|
  {
    if |bodies| == 0 then s
    else CreateAll(s + [NewRecord(s, bodies[0])], bodies[1..])
  }

  /** The id the next create builds on: 0 for an empty collection, else the
      last record's numeric id. */
  predicate LastIdIs(s: seq<Record>, n: int) {
    if |s| == 0 then n == 0 else NumField(s[|s| - 1], "id") == Some(n)
  }

  /** Creates whose bodies carry no `id` number their records n+1, n+2, ...
      after a collection whose last id is n, and append them after the
      records already there. */
  lemma {:induction false} CreatesNumberSequentially(s: seq<Record>, bodies: seq<Record>, n: int)
    requires LastIdIs(s, n)
    requires forall j :: 0 <= j < |bodies| ==> "id" !in bodies[j]
    ensures |CreateAll(s, bodies)| == |s| + |bodies|
    ensures CreateAll(s, bodies)[..|s|] == s
    ensures forall k :: |s| <= k < |CreateAll(s, bodies)| ==>
      "id" in CreateAll(s, bodies)[k] && CreateAll(s, bodies)[k]["id"] == Num(n + (k - |s|) + 1)
    decreases |bodies|
  {
    if |bodies| > 0 {
      var s' := s + [NewRecord(s, bodies[0])];
      assert NextId(s) == Num(n + 1);
      assert LastIdIs(s', n + 1);
      assert forall j :: 0 <= j < |bodies[1..]| ==> bodies[1..][j] == bodies[j + 1];
      CreatesNumberSequentially(s', bodies[1..], n + 1);
      var r := CreateAll(s, bodies);
      assert r == CreateAll(s', bodies[1..]);
      assert r[..|s|] == r[..|s'|][..|s|];
      assert r[|s|] == r[..|s'|][|s|] == s'[|s|];
    }
  }

  /** Starting from an empty collection, N creates without body ids yield
      the ids 1..N in creation order. */
  lemma CreatesFromEmptyNumberFromOne(bodies: seq<Record>)
    requires forall j :: 0 <= j < |bodies| ==> "id" !in bodies[j]
    ensures |CreateAll([], bodies)| == |bodies|
    ensures forall j :: 0 <= j < |bodies| ==>
      "id" in CreateAll([], bodies)[j] && CreateAll([], bodies)[j]["id"] == Num(j + 1)
  {
    CreatesNumberSequentially([], bodies, 0);
  }
}
