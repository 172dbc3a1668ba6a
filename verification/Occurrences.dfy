// Where the elements of a list stand that have some property.
module Occurrences {

  // The positions, in order.
  function Where<T>(xs: seq<T>, q: T -> bool): seq<nat> {
    if xs == [] then []
    else Where(xs[..|xs| - 1], q) + if q(xs[|xs| - 1]) then [|xs| - 1] else []
  }

  predicate Below(at: seq<nat>, n: nat) { forall i :: 0 <= i < |at| ==> at[i] < n }

  ghost predicate Ascending(at: seq<nat>) { forall i, j :: 0 <= i < j < |at| ==> at[i] < at[j] }

  lemma {:induction false} WhereExact<T>(xs: seq<T>, q: T -> bool)
    ensures Below(Where(xs, q), |xs|) && Ascending(Where(xs, q))
    ensures forall k :: k in Where(xs, q) <==> 0 <= k < |xs| && q(xs[k])
  {
    if xs != [] {
      var n := |xs| - 1;
      WhereExact(xs[..n], q);
      var front, all := Where(xs[..n], q), Where(xs, q);
      assert all == front + if q(xs[n]) then [n] else [];
      hide Where;
      assert forall i :: 0 <= i < |front| ==> all[i] == front[i] && front[i] < n;
      forall k ensures k in all <==> 0 <= k < |xs| && q(xs[k]) {
        assert k in all <==> k in front || (q(xs[n]) && k == n);
        assert 0 <= k < n ==> xs[..n][k] == xs[k];
      }
    }
  }

  lemma WhereSnoc<T>(xs: seq<T>, last: T, q: T -> bool)
    ensures Where(xs + [last], q) == Where(xs, q) + if q(last) then [|xs|] else []
  {
    assert (xs + [last])[..|xs|] == xs;
  }

  lemma NoWhere<T>(xs: seq<T>, q: T -> bool)
    requires forall i :: 0 <= i < |xs| ==> !q(xs[i])
    ensures Where(xs, q) == []
  {
    WhereExact(xs, q);
    assert forall i :: 0 <= i < |Where(xs, q)| ==> Where(xs, q)[i] in Where(xs, q);
  }
}
