/** JSON values as the TypeScript code sees them once parsed: null, booleans,
    numbers, strings, arrays and objects. An object is an ordered list of
    members in insertion order, which is the order JavaScript enumerates
    string keys in (Object.entries, spread updates and JSON.stringify all
    follow it); keys that look like array indices, which JavaScript lists
    first in numeric order, are kept in insertion order too. A member that
    is looked up and absent is `undefined`, written `None`; members
    inherited from Object.prototype are not modelled. */
module Json {

  datatype Option<+T> = None | Some(value: T)

  /** The value a step produces, or the message of the error it throws. */
  datatype Outcome<+T> = Success(value: T) | Failure(error: string)

  datatype Json =
    | JNull
    | JBool(b: bool)
    | JNum(n: real)
    | JStr(s: string)
    | JArr(items: seq<Json>)
    | JObj(members: seq<(string, Json)>)

  /** JavaScript truthiness of a defined value (NaN is not a modelled number). */
  predicate Truthy(j: Json) {
    match j
    case JNull => false
    case JBool(b) => b
    case JNum(n) => n != 0.0
    case JStr(s) => s != ""
    case JArr(_) => true
    case JObj(_) => true
  }

  /** Truthiness of a possibly undefined value. */
  predicate Defined(v: Option<Json>) {
    v.Some? && Truthy(v.value)
  }

  /** `v || fallback` for a possibly undefined left operand. */
  function Or(v: Option<Json>, fallback: Json): (r: Json)
    ensures Defined(v) ==> r == v.value
    ensures !Defined(v) ==> r == fallback
  {
    if Defined(v) then v.value else fallback
  }

  /** The keys of a member list, in order. */
  function Keys(ms: seq<(string, Json)>): (ks: seq<string>)
    ensures |ks| == |ms|
    ensures forall i :: 0 <= i < |ms| ==> ks[i] == ms[i].0
  {
    if ms == [] then [] else [ms[0].0] + Keys(ms[1..])
  }

  predicate DistinctKeys(ms: seq<(string, Json)>) {
    forall i, j :: 0 <= i < j < |ms| ==> ms[i].0 != ms[j].0
  }

  /** `obj[k]` on a member list: the value of the member named `k`, if any. */
  function Get(ms: seq<(string, Json)>, k: string): (r: Option<Json>)
    ensures r.None? <==> k !in Keys(ms)
    ensures r.Some? ==> exists i :: 0 <= i < |ms| && ms[i] == (k, r.value)
  {
    if ms == [] then None
    else if ms[0].0 == k then Some(ms[0].1)
    else Get(ms[1..], k)
  }

  /** With distinct keys, each member is found by its own key. */
  lemma GetDistinct(ms: seq<(string, Json)>, i: int)
    requires DistinctKeys(ms) && 0 <= i < |ms|
    ensures Get(ms, ms[i].0) == Some(ms[i].1)
  {
    var r := Get(ms, ms[i].0);
    assert ms[i].0 == Keys(ms)[i];
  }

  /** `{...ms, [k]: v}`: an existing member keeps its position and takes the
      new value; a new key is appended. */
  function Set(ms: seq<(string, Json)>, k: string, v: Json): (r: seq<(string, Json)>)
    ensures Keys(r) == if k in Keys(ms) then Keys(ms) else Keys(ms) + [k]
  {
    if ms == [] then [(k, v)]
    else if ms[0].0 == k then [(k, v)] + ms[1..]
    else [ms[0]] + Set(ms[1..], k, v)
  }

  /** After `Set(ms, k, v)`, key `k` reads `v` and every other key reads what
      it read before. */
  lemma {:induction false} GetSet(ms: seq<(string, Json)>, k: string, v: Json, k': string)
    ensures Get(Set(ms, k, v), k') == if k' == k then Some(v) else Get(ms, k')
  {
    if ms != [] && ms[0].0 != k {
      GetSet(ms[1..], k, v, k');
    }
  }

  lemma {:induction false} SetKeepsDistinct(ms: seq<(string, Json)>, k: string, v: Json)
    requires DistinctKeys(ms)
    ensures DistinctKeys(Set(ms, k, v))
  {
    var r := Set(ms, k, v);
    forall i, j | 0 <= i < j < |r| ensures r[i].0 != r[j].0 {
      assert Keys(r)[i] == r[i].0 && Keys(r)[j] == r[j].0;
      assert |Keys(ms)| == |ms|;
      if k !in Keys(ms) {
        if j < |ms| {
          assert Keys(ms)[i] == ms[i].0 && Keys(ms)[j] == ms[j].0;
        } else {
          assert Keys(ms)[i] == ms[i].0;
        }
      } else {
        assert Keys(ms)[i] == ms[i].0 && Keys(ms)[j] == ms[j].0;
      }
    }
  }

  /** `obj.k` on any value: only objects have members that JSON can give them. */
  function Member(j: Json, k: string): (r: Option<Json>)
    ensures !j.JObj? ==> r.None?
  {
    if j.JObj? then Get(j.members, k) else None
  }
}
