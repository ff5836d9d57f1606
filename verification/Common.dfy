/** Small shared datatypes. */
module Common {

  datatype Option<+T> = None | Some(value: T)

  /** The JSON values that travel in event payloads and are stored in the database. */
  datatype Json =
    | Null
    | Bool(b: bool)
    | Number(n: real)
    | String(s: string)
    | Array(items: seq<Json>)
    | Object(fields: map<string, Json>)

  /** The top level of an event payload is always an object. */
  type Payload = map<string, Json>

  /** Elements of a sequence at the positions where `keep` holds, in order. */
  function Filter<T(!new)>(s: seq<T>, keep: T -> bool): (r: seq<T>)
    ensures forall x :: x in r <==> x in s && keep(x)
  {
    if s == [] then []
    else if keep(s[0]) then [s[0]] + Filter(s[1..], keep)
    else Filter(s[1..], keep)
  }

  lemma {:induction false} FilterConcat<T(!new)>(a: seq<T>, b: seq<T>, keep: T -> bool)
    ensures Filter(a + b, keep) == Filter(a, keep) + Filter(b, keep)
  {
    if a == [] {
      assert a + b == b;
    } else {
      assert (a + b)[1..] == a[1..] + b;
      FilterConcat(a[1..], b, keep);
    }
  }

  /** A stretch of a list, and the stretch one shorter. */
  lemma {:induction false} LastOfStretch<T>(s: seq<T>, lo: nat, hi: nat)
    requires lo < hi <= |s|
    ensures s[lo..hi] == s[lo..hi - 1] + [s[hi - 1]]
    ensures s[lo..hi][..hi - lo - 1] == s[lo..hi - 1]
  {
  }

  lemma {:induction false} TailOfStretch<T>(s: seq<T>, lo: nat, mid: nat, hi: nat)
    requires lo <= mid <= hi <= |s|
    ensures s[lo..hi][mid - lo..] == s[mid..hi]
  {
  }

  lemma {:induction false} NextOfRest<T>(s: seq<T>, n: nat, first: T, rest: seq<T>)
    requires n <= |s| && s[n..] == [first] + rest
    ensures n < |s| && s[n] == first && s[..n + 1] == s[..n] + [first] && s[n + 1..] == rest
  {
    assert s[n..][0] == first && s[n + 1..] == s[n..][1..];
  }

  function Distance(x: real, y: real): real {
    if x < y then y - x else x - y
  }

  function Map<A, B>(f: A -> B, s: seq<A>): (r: seq<B>)
    ensures |r| == |s| && forall i :: 0 <= i < |s| ==> r[i] == f(s[i])
  {
    if s == [] then [] else Map(f, s[..|s| - 1]) + [f(s[|s| - 1])]
  }
}
