/** Option and Result wrappers used by every module of the model. */
module Shared {

  datatype Option<+T> = None | Some(value: T)

  /** The outcome of an operation that either produces a value or fails with an error. */
  datatype Result<+T, +E> = Success(value: T) | Failure(error: E)

  /** JavaScript truthiness of an optional string: present and non-empty. */
  predicate Truthy(s: Option<string>)
  {
    s.Some? && s.value != ""
  }

  /** The value of `s || fallback` in JavaScript. */
  function StringOr(s: Option<string>, fallback: string): (r: string)
    ensures Truthy(s) ==> r == s.value
    ensures !Truthy(s) ==> r == fallback
  {
    if Truthy(s) then s.value else fallback
  }

  /** The indices of the elements of `s` that `keep` accepts, in increasing order. */
  function Positions<T>(s: seq<T>, keep: T -> bool): (ps: seq<nat>)
    ensures forall k :: 0 <= k < |ps| ==> ps[k] < |s| && keep(s[ps[k]])
    ensures forall k, l :: 0 <= k < l < |ps| ==> ps[k] < ps[l]
    ensures forall i :: 0 <= i < |s| && keep(s[i]) ==> i in ps
    decreases |s|
  {
    if s == [] then []
    else
      var ps := Positions(s[..|s| - 1], keep);
      if keep(s[|s| - 1]) then ps + [|s| - 1] else ps
  }

  /** Every kept index appears among the positions; `l` says where. */
  lemma PositionOf<T>(s: seq<T>, keep: T -> bool, i: nat) returns (l: nat)
    requires i < |s| && keep(s[i])
    ensures l < |Positions(s, keep)| && Positions(s, keep)[l] == i
  {
    var ps := Positions(s, keep);
    assert i in ps;
    l :| l < |ps| && ps[l] == i;
  }

  /** In an increasing sequence a smaller element sits at a smaller index. */
  lemma IndexBefore(ps: seq<nat>, a: nat, b: nat)
    requires forall k, l :: 0 <= k < l < |ps| ==> ps[k] < ps[l]
    requires a < |ps| && b < |ps| && ps[a] < ps[b]
    ensures a < b
  {
  }

  /**
   * Ranking by keys laid over increasing positions: when `k` holds the
   * earliest largest key, the key at any `l` is not above it, and is below it
   * when `l` sits at an earlier position.
   */
  lemma RankAgainstFirstMax(ps: seq<nat>, keys: seq<int>, l: nat, k: nat)
    requires forall a, b :: 0 <= a < b < |ps| ==> ps[a] < ps[b]
    requires |keys| == |ps| && l < |ps| && k < |ps|
    requires forall i :: 0 <= i < |keys| ==> keys[i] <= keys[k]
    requires forall i :: 0 <= i < k ==> keys[i] < keys[k]
    ensures keys[l] <= keys[k]
    ensures ps[l] < ps[k] ==> keys[l] < keys[k]
  {
    if ps[l] < ps[k] {
      IndexBefore(ps, l, k);
    }
  }
}
