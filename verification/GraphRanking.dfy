// Scoring relations once per distinct triple and spreading the scores back:
// rank_relations_reranker and _scores_to_ranked_rels of ask/search/graph_strategy.py.
module GraphRanking {
  import opened GraphModel
  import opened Occurrences
  import Sorting

  // A relation with the entity it is stored under.
  datatype Flat = Flat(ent: string, rel: Relation)

  function TripleAt(f: Flat): Triple { TripleOf(f.ent, f.rel) }

  // ----- one copy of each triple -----

  // The distinct triples, in order of first occurrence.
  function Unique(flat: seq<Flat>): seq<Triple> {
    if flat == [] then []
    else
      var front, t := Unique(flat[..|flat| - 1]), TripleAt(flat[|flat| - 1]);
      if t in front then front else front + [t]
  }

  function Is(t: Triple): Flat -> bool {
    f => TripleAt(f) == t
  }

  // Where a triple occurs, in order.
  function Indices(flat: seq<Flat>, t: Triple): seq<nat> { Where(flat, Is(t)) }

  lemma IndicesExact(flat: seq<Flat>, t: Triple)
    ensures forall i :: i in Indices(flat, t) <==> 0 <= i < |flat| && TripleAt(flat[i]) == t
    ensures forall k :: 0 <= k < |Indices(flat, t)| ==> Indices(flat, t)[k] < |flat|
    ensures forall j, k :: 0 <= j < k < |Indices(flat, t)| ==> Indices(flat, t)[j] < Indices(flat, t)[k]
  {
    WhereExact(flat, Is(t));
  }

  lemma {:induction false} UniqueExact(flat: seq<Flat>)
    ensures forall j, k :: 0 <= j < k < |Unique(flat)| ==> Unique(flat)[j] != Unique(flat)[k]
    ensures forall t :: t in Unique(flat) <==> exists i :: 0 <= i < |flat| && TripleAt(flat[i]) == t
  {
    if flat != [] {
      var front, last := flat[..|flat| - 1], flat[|flat| - 1];
      UniqueExact(front);
      forall t ensures t in Unique(flat) <==> exists i :: 0 <= i < |flat| && TripleAt(flat[i]) == t {
        if t in Unique(flat) {
          if t in Unique(front) {
            var i :| 0 <= i < |front| && TripleAt(front[i]) == t;
            assert flat[i] == front[i];
          }
        }
        if i :| 0 <= i < |flat| && TripleAt(flat[i]) == t {
          if i < |front| {
            assert front[i] == flat[i];
          }
        }
      }
    }
  }

  // Every relation belongs to the group of exactly one distinct triple.
  lemma GroupsPartition(flat: seq<Flat>, i: nat)
    requires i < |flat|
    ensures exists k :: 0 <= k < |Unique(flat)| && i in Indices(flat, Unique(flat)[k])
    ensures forall j, k :: 0 <= j < |Unique(flat)| && 0 <= k < |Unique(flat)| ==>
      i in Indices(flat, Unique(flat)[j]) && i in Indices(flat, Unique(flat)[k]) ==> j == k
  {
    UniqueExact(flat);
    var t := TripleAt(flat[i]);
    assert t in Unique(flat);
    var k :| 0 <= k < |Unique(flat)| && Unique(flat)[k] == t;
    forall j | 0 <= j < |Unique(flat)| ensures i in Indices(flat, Unique(flat)[j]) <==> Unique(flat)[j] == t {
      IndicesExact(flat, Unique(flat)[j]);
    }
  }

  method Dedupe(flat: seq<Flat>) returns (unique: seq<Triple>, indices: map<Triple, seq<nat>>)
    ensures unique == Unique(flat)
    ensures forall t :: t in indices <==> t in unique
    ensures forall t :: t in indices ==> indices[t] == Indices(flat, t)
  {
    unique, indices := [], map[];
    for i := 0 to |flat|
      invariant unique == Unique(flat[..i])
      invariant forall t :: t in indices <==> t in unique
      invariant forall t :: t in indices ==> indices[t] == Indices(flat[..i], t)
    {
      assert flat[..i + 1][..i] == flat[..i];
      var key := TripleAt(flat[i]);
      if key !in indices {
        NoIndices(flat[..i], key);
        indices := indices[key := []];
        unique := unique + [key];
      }
      indices := indices[key := indices[key] + [i]];
    }
    assert flat[..|flat|] == flat;
  }

  lemma {:induction false} NoIndices(flat: seq<Flat>, t: Triple)
    requires t !in Unique(flat)
    ensures Indices(flat, t) == []
  {
    if flat != [] {
      NoIndices(flat[..|flat| - 1], t);
    }
  }

  // ----- the best triples -----

  // A score for the triple at position idx of the distinct triples.
  datatype Scored = Scored(idx: nat, score: real)

  function TripleScore(s: Scored): real { s.score }

  // heapq.nlargest(k, xs, key=score): sorted by decreasing score, cut at k
  function NLargest(k: nat, xs: seq<Scored>): seq<Scored> {
    var sorted := Sorting.ByKey(xs, TripleScore);
    if |sorted| <= k then sorted else sorted[..k]
  }

  // What nlargest leaves out is beaten or tied by everything it keeps, and it keeps k.
  lemma NLargestExact(k: nat, xs: seq<Scored>, x: Scored)
    requires x in xs && x !in NLargest(k, xs)
    ensures |NLargest(k, xs)| == k && forall y :: y in NLargest(k, xs) ==> y.score >= x.score
  {
    var sorted := Sorting.ByKey(xs, TripleScore);
    Sorting.ByKeySorts(xs, TripleScore);
    var j :| 0 <= j < |sorted| && sorted[j] == x;
    assert |sorted| > k;
    assert forall i :: 0 <= i < k ==> sorted[..k][i] != x;
    assert j >= k;
    forall y | y in NLargest(k, xs) ensures y.score >= x.score {
      var i :| 0 <= i < k && sorted[..k][i] == y;
      assert i < j && sorted[i] == y && sorted[j] == x;
      assert TripleScore(y) >= TripleScore(x);
    }
  }

  // ----- spreading the scores back -----

  // One relation put in the result, with its score.
  datatype Emission = Emission(ent: string, rel: Relation, score: real)

  function EmitGroup(flat: seq<Flat>, indices: seq<nat>, score: real): (r: seq<Emission>)
    requires forall k :: 0 <= k < |indices| ==> indices[k] < |flat|
    ensures |r| == |indices| && forall k :: 0 <= k < |r| ==>
      r[k] == Emission(flat[indices[k]].ent, flat[indices[k]].rel, score)
  {
    seq(|indices|, k requires 0 <= k < |indices| => Emission(flat[indices[k]].ent, flat[indices[k]].rel, score))
  }

  // The relations of all triples scored above the threshold, best triple first.
  function Emissions(flat: seq<Flat>, top: seq<Scored>, threshold: real): seq<Emission>
    requires forall s :: s in top ==> s.idx < |Unique(flat)|
  {
    if top == [] then []
    else
      var s, rest := top[|top| - 1], top[..|top| - 1];
      Emissions(flat, rest, threshold)
        + if s.score <= threshold then []
          else (IndicesExact(flat, Unique(flat)[s.idx]); EmitGroup(flat, Indices(flat, Unique(flat)[s.idx]), s.score))
  }

  function RelsOf(es: seq<Emission>, ent: string): seq<Relation> {
    if es == [] then []
    else RelsOf(es[..|es| - 1], ent) + if es[|es| - 1].ent == ent then [es[|es| - 1].rel] else []
  }

  function ScoresOf(es: seq<Emission>, ent: string): seq<real> {
    if es == [] then []
    else ScoresOf(es[..|es| - 1], ent) + if es[|es| - 1].ent == ent then [es[|es| - 1].score] else []
  }

  predicate Emits(es: seq<Emission>, ent: string) { exists k :: 0 <= k < |es| && es[k].ent == ent }

  // The result dictionaries hold exactly the emissions of each entity, in order.
  ghost predicate Spread(es: seq<Emission>, rels: Relations, scores: map<string, seq<real>>) {
    && rels.Keys == scores.Keys
    && (forall ent :: ent in rels <==> Emits(es, ent))
    && (forall ent :: ent in rels ==> rels[ent] == RelsOf(es, ent) && scores[ent] == ScoresOf(es, ent))
  }

  lemma {:induction false} NoEmissions(es: seq<Emission>, ent: string)
    requires !Emits(es, ent)
    ensures RelsOf(es, ent) == [] && ScoresOf(es, ent) == []
  {
    if es != [] {
      assert es[|es| - 1].ent != ent;
      var front := es[..|es| - 1];
      assert forall k :: 0 <= k < |front| ==> front[k] == es[k];
      NoEmissions(es[..|es| - 1], ent);
    }
  }

  lemma ListedSnoc(es: seq<Emission>, e: Emission, ent: string)
    ensures RelsOf(es + [e], ent) == RelsOf(es, ent) + if e.ent == ent then [e.rel] else []
    ensures ScoresOf(es + [e], ent) == ScoresOf(es, ent) + if e.ent == ent then [e.score] else []
    ensures Emits(es + [e], ent) <==> Emits(es, ent) || e.ent == ent
  {
    var es' := es + [e];
    assert es'[..|es|] == es && es'[|es|] == e;
    if k :| 0 <= k < |es| && es[k].ent == ent { assert es'[k].ent == ent; }
  }

  lemma SpreadSnoc(es: seq<Emission>, e: Emission, rels: Relations, scores: map<string, seq<real>>)
    requires Spread(es, rels, scores)
    ensures Spread(es + [e],
      rels[e.ent := (if e.ent in rels then rels[e.ent] else []) + [e.rel]],
      scores[e.ent := (if e.ent in scores then scores[e.ent] else []) + [e.score]])
  {
    hide RelsOf, ScoresOf, Emits;
    if e.ent !in rels {
      NoEmissions(es, e.ent);
    }
    forall ent
      ensures RelsOf(es + [e], ent) == RelsOf(es, ent) + if e.ent == ent then [e.rel] else []
      ensures ScoresOf(es + [e], ent) == ScoresOf(es, ent) + if e.ent == ent then [e.score] else []
      ensures Emits(es + [e], ent) <==> Emits(es, ent) || e.ent == ent
    {
      ListedSnoc(es, e, ent);
    }
  }

  // One triple's relations, all with its score.
  method AddGroup(flat: seq<Flat>, orig: seq<nat>, score: real, rels0: Relations, scores0: map<string, seq<real>>,
      ghost before: seq<Emission>)
    returns (rels: Relations, scores: map<string, seq<real>>)
    requires forall k :: 0 <= k < |orig| ==> orig[k] < |flat|
    requires Spread(before, rels0, scores0)
    ensures Spread(before + EmitGroup(flat, orig, score), rels, scores)
  {
    hide Spread;
    rels, scores := rels0, scores0;
    ghost var group := EmitGroup(flat, orig, score);
    assert before + group[..0] == before;
    for k := 0 to |orig|
      invariant Spread(before + group[..k], rels, scores)
    {
      var f := flat[orig[k]];
      SpreadSnoc(before + group[..k], group[k], rels, scores);
      assert before + group[..k] + [group[k]] == before + group[..k + 1];
      rels := rels[f.ent := (if f.ent in rels then rels[f.ent] else []) + [f.rel]];
      scores := scores[f.ent := (if f.ent in scores then scores[f.ent] else []) + [score]];
    }
    assert group[..|orig|] == group;
  }

  lemma SpreadNone()
    ensures Spread([], map[], map[])
  {
  }

  lemma TopValid(flat: seq<Flat>, topK: nat, scored: seq<Scored>)
    requires forall s :: s in scored ==> s.idx < |Unique(flat)|
    ensures forall s :: s in NLargest(topK, scored) ==> s.idx < |Unique(flat)|
  {
    Sorting.ByKeySorts(scored, TripleScore);
  }

  lemma EmissionsNone(flat: seq<Flat>, top: seq<Scored>, threshold: real)
    requires forall s :: s in top ==> s.idx < |Unique(flat)|
    ensures Emissions(flat, top[..0], threshold) == []
  {
  }

  lemma EmissionsNext(flat: seq<Flat>, top: seq<Scored>, threshold: real, n: nat)
    requires n < |top| && forall s :: s in top ==> s.idx < |Unique(flat)|
    ensures top[n].idx < |Unique(flat)|
    ensures forall k :: 0 <= k < |Indices(flat, Unique(flat)[top[n].idx])| ==>
      Indices(flat, Unique(flat)[top[n].idx])[k] < |flat|
    ensures Emissions(flat, top[..n + 1], threshold) == Emissions(flat, top[..n], threshold)
      + if top[n].score <= threshold then [] else EmitGroup(flat, Indices(flat, Unique(flat)[top[n].idx]), top[n].score)
  {
    assert top[n] in top;
    IndicesExact(flat, Unique(flat)[top[n].idx]);
    assert top[..n + 1][..n] == top[..n];
  }

  // _scores_to_ranked_rels
  method ScoresToRankedRels(unique: seq<Triple>, scored: seq<Scored>, indices: map<Triple, seq<nat>>, flat: seq<Flat>,
      topK: nat, threshold: real)
    returns (rels: Relations, scores: map<string, seq<real>>)
    requires unique == Unique(flat) && (forall t :: t in indices <==> t in unique) &&
      (forall t :: t in indices ==> indices[t] == Indices(flat, t))
    requires forall s :: s in scored ==> s.idx < |unique|
    ensures forall s :: s in NLargest(topK, scored) ==> s.idx < |Unique(flat)|
    ensures Spread(Emissions(flat, NLargest(topK, scored), threshold), rels, scores)
  {
    hide *;
    var top := NLargest(topK, scored);
    TopValid(flat, topK, scored);
    rels, scores := map[], map[];
    SpreadNone();
    EmissionsNone(flat, top, threshold);
    for n := 0 to |top|
      invariant Spread(Emissions(flat, top[..n], threshold), rels, scores)
    {
      EmissionsNext(flat, top, threshold, n);
      assert top[n] in top;
      var score := top[n].score;
      assert Emissions(flat, top[..n], threshold) + [] == Emissions(flat, top[..n], threshold);
      if score > threshold {
        var orig := indices[unique[top[n].idx]];
        IndicesExact(flat, unique[top[n].idx]);
        rels, scores := AddGroup(flat, orig, score, rels, scores, Emissions(flat, top[..n], threshold));
      }
    }
    assert top[..|top|] == top;
  }

  // ----- what the ranked relations are -----

  ghost predicate DistinctIdx(xs: seq<Scored>) {
    forall i, j :: 0 <= i < j < |xs| ==> xs[i].idx != xs[j].idx
  }

  // The triple at position idx made it into the result.
  ghost predicate Kept(top: seq<Scored>, threshold: real, idx: nat, score: real) {
    Scored(idx, score) in top && score > threshold
  }

  // Every emission is a copy of a kept triple, carrying its score.
  lemma {:induction false} EmissionsSound(flat: seq<Flat>, top: seq<Scored>, threshold: real, e: Emission)
    requires forall s :: s in top ==> s.idx < |Unique(flat)|
    requires e in Emissions(flat, top, threshold)
    ensures e.score > threshold && Flat(e.ent, e.rel) in flat
    ensures exists idx ::
      0 <= idx < |Unique(flat)| && Unique(flat)[idx] == TripleOf(e.ent, e.rel) &&
      Kept(top, threshold, idx, e.score)
  {
    var s, rest := top[|top| - 1], top[..|top| - 1];
    assert s in top;
    if e in Emissions(flat, rest, threshold) {
      EmissionsSound(flat, rest, threshold, e);
      var idx :| 0 <= idx < |Unique(flat)| && Unique(flat)[idx] == TripleOf(e.ent, e.rel) &&
        Kept(rest, threshold, idx, e.score);
      assert Kept(top, threshold, idx, e.score);
    } else {
      var own := Indices(flat, Unique(flat)[s.idx]);
      IndicesExact(flat, Unique(flat)[s.idx]);
      var group := EmitGroup(flat, own, s.score);
      var k :| 0 <= k < |group| && group[k] == e;
      assert own[k] in own;
      assert flat[own[k]] == Flat(e.ent, e.rel);
      assert Kept(top, threshold, s.idx, e.score);
    }
  }

  // All copies of a kept triple are emitted, each as often as it occurs.
  lemma {:induction false} EmissionsComplete(flat: seq<Flat>, top: seq<Scored>, threshold: real, idx: nat,
      score: real, i: nat)
    requires forall s :: s in top ==> s.idx < |Unique(flat)|
    requires Kept(top, threshold, idx, score) && i in Indices(flat, Unique(flat)[idx])
    ensures i < |flat| && Emission(flat[i].ent, flat[i].rel, score) in Emissions(flat, top, threshold)
  {
    IndicesExact(flat, Unique(flat)[idx]);
    var s, rest := top[|top| - 1], top[..|top| - 1];
    assert top == rest + [s];
    if Scored(idx, score) in rest {
      EmissionsComplete(flat, rest, threshold, idx, score, i);
    } else {
      assert s == Scored(idx, score);
      var own := Indices(flat, Unique(flat)[idx]);
      var group := EmitGroup(flat, own, score);
      var k :| 0 <= k < |own| && own[k] == i;
      assert group[k] == Emission(flat[i].ent, flat[i].rel, score);
      assert group[k] in group;
    }
  }

  function Times(es: seq<Emission>, f: Flat): nat {
    if es == [] then 0
    else Times(es[..|es| - 1], f) + if es[|es| - 1].ent == f.ent && es[|es| - 1].rel == f.rel then 1 else 0
  }

  function Occurs(flat: seq<Flat>, f: Flat): nat {
    if flat == [] then 0 else Occurs(flat[..|flat| - 1], f) + if flat[|flat| - 1] == f then 1 else 0
  }

  lemma {:induction false} TimesAppend(a: seq<Emission>, b: seq<Emission>, f: Flat)
    ensures Times(a + b, f) == Times(a, f) + Times(b, f)
  {
    if b == [] {
      assert a + b == a;
    } else {
      TimesAppend(a, b[..|b| - 1], f);
      assert (a + b)[..|a + b| - 1] == a + b[..|b| - 1];
    }
  }

  lemma EmitSnoc(flat: seq<Flat>, indices: seq<nat>, last: nat, score: real)
    requires (forall k :: 0 <= k < |indices| ==> indices[k] < |flat|) && last < |flat|
    ensures EmitGroup(flat, indices + [last], score) ==
      EmitGroup(flat, indices, score) + [Emission(flat[last].ent, flat[last].rel, score)]
  {
  }

  lemma TimesSnoc(es: seq<Emission>, e: Emission, f: Flat)
    ensures Times(es + [e], f) == Times(es, f) + if e.ent == f.ent && e.rel == f.rel then 1 else 0
  {
    assert (es + [e])[..|es|] == es;
  }

  // A triple's group holds each of its relations as often as the flat list does.
  lemma {:induction false} GroupTimes(flat: seq<Flat>, n: nat, t: Triple, score: real, f: Flat)
    requires n <= |flat|
    requires forall k :: 0 <= k < |Indices(flat[..n], t)| ==> Indices(flat[..n], t)[k] < |flat|
    ensures Times(EmitGroup(flat, Indices(flat[..n], t), score), f) == if TripleAt(f) ==
      t then Occurs(flat[..n], f) else 0
  {
    if n > 0 {
      var front, last := flat[..n - 1], flat[n - 1];
      var prev := Indices(front, t);
      IndicesExact(front, t);
      assert flat[..n][..n - 1] == front && flat[..n][n - 1] == last;
      GroupTimes(flat, n - 1, t, score, f);
      assert Occurs(flat[..n], f) == Occurs(front, f) + if last == f then 1 else 0;
      assert Indices(flat[..n], t) == prev + if TripleAt(last) == t then [n - 1] else [];
      hide Indices, Times, Occurs, EmitGroup;
      if TripleAt(last) == t {
        EmitSnoc(flat, prev, n - 1, score);
        TimesSnoc(EmitGroup(flat, prev, score), Emission(last.ent, last.rel, score), f);
      } else {
        assert Indices(flat[..n], t) == prev;
      }
    }
  }

  predicate KeepsTriple(flat: seq<Flat>, top: seq<Scored>, threshold: real, t: Triple)
    requires forall s :: s in top ==> s.idx < |Unique(flat)|
  {
    exists s :: s in top && Unique(flat)[s.idx] == t && s.score > threshold
  }

  // All copies of a triple are kept or dropped together: a relation comes out as often as it
  // went in if its triple is kept, and not at all otherwise.
  lemma {:induction false} CopiesTogether(flat: seq<Flat>, top: seq<Scored>, threshold: real, f: Flat)
    requires DistinctIdx(top) && forall s :: s in top ==> s.idx < |Unique(flat)|
    ensures Times(Emissions(flat, top, threshold), f) ==
      if KeepsTriple(flat, top, threshold, TripleAt(f)) then Occurs(flat, f) else 0
  {
    if top != [] {
      var s, rest := top[|top| - 1], top[..|top| - 1];
      assert top == rest + [s];
      hide Unique, Indices, Times, Occurs, Emissions, KeepsTriple, TripleAt;
      CopiesTogether(flat, rest, threshold, f);
      KeepsSnoc(flat, rest, s, threshold, TripleAt(f));
      var t := Unique(flat)[s.idx];
      EmissionsNext(flat, top, threshold, |rest|);
      assert top[..|rest|] == rest && top[..|rest| + 1] == top;
      if s.score > threshold {
        assert flat[..|flat|] == flat;
        GroupTimes(flat, |flat|, t, s.score, f);
        TimesAppend(Emissions(flat, rest, threshold), EmitGroup(flat, Indices(flat, t), s.score), f);
        assert Times(Emissions(flat, top, threshold), f)
          == Times(Emissions(flat, rest, threshold), f) + if TripleAt(f) == t then Occurs(flat, f) else 0;
      } else {
        assert Emissions(flat, top, threshold) == Emissions(flat, rest, threshold);
      }
    } else {
      assert !KeepsTriple(flat, top, threshold, TripleAt(f));
    }
  }

  lemma KeepsSnoc(flat: seq<Flat>, rest: seq<Scored>, s: Scored, threshold: real, t: Triple)
    requires DistinctIdx(rest + [s]) && s.idx < |Unique(flat)| && forall r :: r in rest ==> r.idx < |Unique(flat)|
    ensures KeepsTriple(flat, rest + [s], threshold, t) <==>
      KeepsTriple(flat, rest, threshold, t) || (Unique(flat)[s.idx] == t && s.score > threshold)
    ensures Unique(flat)[s.idx] == t ==> !KeepsTriple(flat, rest, threshold, t)
  {
    var top := rest + [s];
    UniqueExact(flat);
    assert s in top && forall r :: r in top <==> r in rest || r == s;
    forall r | r in rest ensures r.idx != s.idx {
      var k :| 0 <= k < |rest| && rest[k] == r;
      assert top[k].idx != top[|rest|].idx;
    }
  }

  // The result in full: score lists parallel to relation lists, only scores above the threshold,
  // and only relations that went in.
  lemma RankedExact(flat: seq<Flat>, top: seq<Scored>, threshold: real, rels: Relations, scores: map<string,
      seq<real>>, ent: string)
    requires forall s :: s in top ==> s.idx < |Unique(flat)|
    requires Spread(Emissions(flat, top, threshold), rels, scores) && ent in rels
    ensures ent in scores && |rels[ent]| == |scores[ent]|
    ensures forall k :: 0 <= k < |rels[ent]| ==> scores[ent][k] > threshold && Flat(ent, rels[ent][k]) in flat
  {
    var es := Emissions(flat, top, threshold);
    ParallelOf(es, ent);
    forall k | 0 <= k < |rels[ent]| ensures scores[ent][k] > threshold && Flat(ent, rels[ent][k]) in flat {
      EmissionsSound(flat, top, threshold, Emission(ent, rels[ent][k], scores[ent][k]));
    }
  }

  lemma {:induction false} ParallelOf(es: seq<Emission>, ent: string)
    ensures |RelsOf(es, ent)| == |ScoresOf(es, ent)|
    ensures forall k :: 0 <= k < |RelsOf(es, ent)| ==> Emission(ent, RelsOf(es, ent)[k], ScoresOf(es, ent)[k]) in es
  {
    if es != [] {
      ParallelOf(es[..|es| - 1], ent);
      assert es == es[..|es| - 1] + [es[|es| - 1]];
    }
  }

  // A scored triple that is not kept is at or below the threshold, or top_k triples scored at
  // least as much.
  lemma LeftOut(flat: seq<Flat>, scored: seq<Scored>, topK: nat, threshold: real, s: Scored)
    requires s in scored && forall x :: x in scored ==> x.idx < |Unique(flat)|
    requires !Kept(NLargest(topK, scored), threshold, s.idx, s.score)
    ensures s.score <= threshold
      || (|NLargest(topK, scored)| == topK && forall y :: y in NLargest(topK, scored) ==>
        y in scored && y.score >= s.score)
  {
    if s.score > threshold {
      NLargestExact(topK, scored, s);
      Sorting.ByKeySorts(scored, TripleScore);
    }
  }

  // ----- from the emissions to the dictionaries -----

  // Sorting and cutting keeps positions distinct.
  lemma TopDistinct(k: nat, xs: seq<Scored>)
    requires DistinctIdx(xs)
    ensures DistinctIdx(NLargest(k, xs))
  {
    var sorted := Sorting.ByKey(xs, TripleScore);
    Sorting.ByKeySorts(xs, TripleScore);
    hide Sorting.ByKey;
    forall i, j | 0 <= i < j < |sorted| ensures sorted[i].idx != sorted[j].idx {
      DistinctMoved(xs, sorted, i, j);
    }
  }

  lemma DistinctMoved(xs: seq<Scored>, ys: seq<Scored>, i: nat, j: nat)
    requires DistinctIdx(xs) && multiset(ys) == multiset(xs) && i < j < |ys|
    ensures ys[i].idx != ys[j].idx
  {
    var a, b := ys[i], ys[j];
    assert ys == ys[..i] + [a] + ys[i + 1..j] + [b] + ys[j + 1..];
    assert multiset{a, b} <= multiset(ys);
    assert a in multiset(xs) && b in multiset(xs);
    var k :| 0 <= k < |xs| && xs[k] == a;
    var l :| 0 <= l < |xs| && xs[l] == b;
    if k == l {
      OnceOnly(xs, k);
    }
  }

  lemma OnceOnly(xs: seq<Scored>, k: nat)
    requires k < |xs| && DistinctIdx(xs)
    ensures multiset(xs)[xs[k]] == 1
  {
    var rest := xs[..k] + xs[k + 1..];
    assert xs == xs[..k] + [xs[k]] + xs[k + 1..];
    assert multiset(xs) == multiset(rest) + multiset{xs[k]};
    assert xs[k] !in rest;
  }

  // A relation is listed under its entity as often as it is emitted.
  lemma {:induction false} TimesListed(es: seq<Emission>, f: Flat)
    ensures multiset(RelsOf(es, f.ent))[f.rel] == Times(es, f)
  {
    if es != [] {
      TimesListed(es[..|es| - 1], f);
    }
  }

  lemma {:induction false} OccursListed(ents: seq<string>, relations: Relations, f: Flat)
    requires (forall e :: e in ents ==> e in relations) && forall i, j :: 0 <= i < j < |ents| ==> ents[i] != ents[j]
    ensures Occurs(Flatten(ents, relations), f) == if f.ent in ents then multiset(relations[f.ent])[f.rel] else 0
  {
    if ents != [] {
      var front, last := ents[..|ents| - 1], ents[|ents| - 1];
      assert ents == front + [last];
      OccursListed(front, relations, f);
      OccursConcat(Flatten(front, relations), FlatOf(last, relations[last]), f);
      OccursOf(last, relations[last], f);
    }
  }

  lemma {:induction false} OccursConcat(a: seq<Flat>, b: seq<Flat>, f: Flat)
    ensures Occurs(a + b, f) == Occurs(a, f) + Occurs(b, f)
  {
    if b == [] {
      assert a + b == a;
    } else {
      assert (a + b)[..|a + b| - 1] == a + b[..|b| - 1];
      OccursConcat(a, b[..|b| - 1], f);
    }
  }

  lemma {:induction false} OccursOf(ent: string, rels: seq<Relation>, f: Flat)
    ensures Occurs(FlatOf(ent, rels), f) == if f.ent == ent then multiset(rels)[f.rel] else 0
  {
    if rels != [] {
      var front := rels[..|rels| - 1];
      assert rels == front + [rels[|rels| - 1]];
      assert FlatOf(ent, rels)[..|rels| - 1] == FlatOf(ent, front);
      OccursOf(ent, front, f);
    }
  }

  function Listed(rels: Relations, ent: string): seq<Relation> { if ent in rels then rels[ent] else [] }

  lemma SpreadListed(es: seq<Emission>, rels: Relations, scores: map<string, seq<real>>, f: Flat)
    requires Spread(es, rels, scores)
    ensures multiset(Listed(rels, f.ent))[f.rel] == Times(es, f)
  {
    TimesListed(es, f);
    if f.ent !in rels {
      NoEmissions(es, f.ent);
    }
  }

  // The dictionary ranks the relations it was given: every copy of a relation is there when its
  // triple is among the top ones above the threshold, and none otherwise.
  ghost predicate RanksCopies(rels: Relations, relations: Relations, flat: seq<Flat>, top: seq<Scored>, threshold: real)
    requires forall s :: s in top ==> s.idx < |Unique(flat)|
  {
    forall ent, rel :: ent in relations ==>
      multiset(Listed(rels, ent))[rel] ==
      if KeepsTriple(flat, top, threshold, TripleOf(ent, rel)) then multiset(relations[ent])[rel] else 0
  }

  lemma CopiesListed(ents: seq<string>, relations: Relations, answer: seq<Scored>, topK: nat, threshold: real,
                     rels: Relations, scores: map<string, seq<real>>)
    requires (forall e :: e in ents <==> e in relations) && forall i, j :: 0 <= i < j < |ents| ==> ents[i] != ents[j]
    requires DistinctIdx(answer) && forall s :: s in NLargest(topK, answer) ==>
      s.idx < |Unique(Flatten(ents, relations))|
    requires Spread(Emissions(Flatten(ents, relations), NLargest(topK, answer), threshold), rels, scores)
    ensures RanksCopies(rels, relations, Flatten(ents, relations), NLargest(topK, answer), threshold)
  {
    hide Unique, Emissions, Spread, NLargest, Flatten, Times, Occurs, DistinctIdx, KeepsTriple;
    var flat, top := Flatten(ents, relations), NLargest(topK, answer);
    TopDistinct(topK, answer);
    forall ent, rel | ent in relations
      ensures multiset(Listed(rels, ent))[rel] ==
        if KeepsTriple(flat, top, threshold, TripleOf(ent, rel)) then multiset(relations[ent])[rel] else 0
    {
      var f := Flat(ent, rel);
      SpreadListed(Emissions(flat, top, threshold), rels, scores, f);
      CopiesTogether(flat, top, threshold, f);
      OccursListed(ents, relations, f);
    }
  }

  // A relation whose triple was scored and that is missing from the dictionary scored at or below
  // the threshold, or top_k triples scored at least as much.
  ghost predicate MissesOnlyWorse(rels: Relations, relations: Relations, flat: seq<Flat>, answer: seq<Scored>,
      topK: nat, threshold: real)
    requires forall s :: s in answer ==> s.idx < |Unique(flat)|
  {
    forall ent, rel, s ::
      ent in relations && rel in relations[ent] && rel !in Listed(rels, ent)
      && s in answer && Unique(flat)[s.idx] == TripleOf(ent, rel) ==>
        || s.score <= threshold
        || (|NLargest(topK, answer)| == topK && forall y :: y in NLargest(topK, answer) ==>
          y in answer && y.score >= s.score)
  }

  lemma MissingWorse(relations: Relations, flat: seq<Flat>, answer: seq<Scored>, topK: nat, threshold: real,
      rels: Relations)
    requires forall s :: s in answer ==> s.idx < |Unique(flat)|
    requires forall s :: s in NLargest(topK, answer) ==> s.idx < |Unique(flat)|
    requires RanksCopies(rels, relations, flat, NLargest(topK, answer), threshold)
    ensures MissesOnlyWorse(rels, relations, flat, answer, topK, threshold)
  {
    hide Unique, NLargest;
    forall ent, rel, s |
      ent in relations && rel in relations[ent] && rel !in Listed(rels, ent)
      && s in answer && Unique(flat)[s.idx] == TripleOf(ent, rel)
      ensures s.score <= threshold
        || (|NLargest(topK, answer)| == topK && forall y :: y in NLargest(topK, answer) ==>
          y in answer && y.score >= s.score)
    {
      assert multiset(Listed(rels, ent))[rel] == 0 && multiset(relations[ent])[rel] > 0;
      assert !KeepsTriple(flat, NLargest(topK, answer), threshold, TripleOf(ent, rel));
      LeftOut(flat, answer, topK, threshold, s);
    }
  }

  // ----- rank_relations_reranker -----

  function Flatten(ents: seq<string>, relations: Relations): seq<Flat>
    requires forall e :: e in ents ==> e in relations
  {
    if ents == [] then []
    else
      var last := ents[|ents| - 1];
      Flatten(ents[..|ents| - 1], relations) + FlatOf(last, relations[last])
  }

  function FlatOf(ent: string, rels: seq<Relation>): (r: seq<Flat>)
    ensures |r| == |rels| && forall i :: 0 <= i < |rels| ==> r[i] == Flat(ent, rels[i])
  {
    seq(|rels|, i requires 0 <= i < |rels| => Flat(ent, rels[i]))
  }

  lemma {:induction false} FlattenSound(ents: seq<string>, relations: Relations, f: Flat)
    requires forall e :: e in ents ==> e in relations
    requires f in Flatten(ents, relations)
    ensures f.ent in relations && f.rel in relations[f.ent]
  {
    var last := ents[|ents| - 1];
    if f in Flatten(ents[..|ents| - 1], relations) {
      FlattenSound(ents[..|ents| - 1], relations, f);
    } else {
      var i :| 0 <= i < |FlatOf(last, relations[last])| && FlatOf(last, relations[last])[i] == f;
    }
  }

  // `ents` are the entities in dictionary order; `answer` gives the model's score for each
  // distinct triple it chose to score, by position.
  method RankRelations(ents: seq<string>, relations: Relations, answer: seq<Scored>, topK: nat, threshold: real)
    returns (rels: Relations, scores: map<string, seq<real>>)
    requires (forall e :: e in ents <==> e in relations) && forall i, j :: 0 <= i < j < |ents| ==> ents[i] != ents[j]
    requires DistinctIdx(answer) && forall s :: s in answer ==> s.idx < |Unique(Flatten(ents, relations))|
    ensures rels.Keys == scores.Keys && forall ent :: ent in rels ==> |rels[ent]| == |scores[ent]|
    ensures forall ent, k :: ent in rels && 0 <= k < |rels[ent]| ==> scores[ent][k] > threshold
    ensures SubRelations(rels, relations)
    ensures forall s :: s in NLargest(topK, answer) ==> s.idx < |Unique(Flatten(ents, relations))|
    ensures Spread(Emissions(Flatten(ents, relations), NLargest(topK, answer), threshold), rels, scores)
    ensures RanksCopies(rels, relations, Flatten(ents, relations), NLargest(topK, answer), threshold)
    ensures MissesOnlyWorse(rels, relations, Flatten(ents, relations), answer, topK, threshold)
  {
    hide RanksCopies, MissesOnlyWorse, Spread, DistinctIdx, NLargest, SubRelations, Emissions, Unique;
    var flat: seq<Flat> := [];
    for i := 0 to |ents|
      invariant flat == Flatten(ents[..i], relations)
    {
      assert ents[..i + 1][..i] == ents[..i];
      flat := flat + FlatOf(ents[i], relations[ents[i]]);
    }
    assert ents[..|ents|] == ents;
    var unique, indices := Dedupe(flat);
    rels, scores := ScoresToRankedRels(unique, answer, indices, flat, topK, threshold);
    RankedAll(ents, relations, flat, NLargest(topK, answer), threshold, rels, scores);
    CopiesListed(ents, relations, answer, topK, threshold, rels, scores);
    MissingWorse(relations, flat, answer, topK, threshold, rels);
  }

  lemma RankedAll(ents: seq<string>, relations: Relations, flat: seq<Flat>, top: seq<Scored>, threshold: real,
    rels: Relations, scores: map<string, seq<real>>)
    requires forall e :: e in ents ==> e in relations
    requires flat == Flatten(ents, relations) && forall s :: s in top ==> s.idx < |Unique(flat)|
    requires Spread(Emissions(flat, top, threshold), rels, scores)
    ensures rels.Keys == scores.Keys && forall ent :: ent in rels ==> |rels[ent]| == |scores[ent]|
    ensures forall ent, k :: ent in rels && 0 <= k < |rels[ent]| ==> scores[ent][k] > threshold
    ensures SubRelations(rels, relations)
  {
    hide Emissions, Flatten, Unique;
    forall ent | ent in rels
      ensures |rels[ent]| == |scores[ent]|
      ensures forall k :: 0 <= k < |rels[ent]| ==> scores[ent][k] > threshold
      ensures ent in relations && forall rel :: rel in rels[ent] ==> rel in relations[ent]
    {
      RankedFrom(ents, relations, flat, top, threshold, rels, scores, ent);
    }
  }

  lemma RankedFrom(ents: seq<string>, relations: Relations, flat: seq<Flat>, top: seq<Scored>, threshold: real,
    rels: Relations, scores: map<string, seq<real>>, ent: string)
    requires forall e :: e in ents ==> e in relations
    requires flat == Flatten(ents, relations) && forall s :: s in top ==> s.idx < |Unique(flat)|
    requires Spread(Emissions(flat, top, threshold), rels, scores) && ent in rels
    ensures ent in scores && |rels[ent]| == |scores[ent]|
    ensures forall k :: 0 <= k < |rels[ent]| ==> scores[ent][k] > threshold
    ensures ent in relations && forall rel :: rel in rels[ent] ==> rel in relations[ent]
  {
    RankedExact(flat, top, threshold, rels, scores, ent);
    var es := Emissions(flat, top, threshold);
    assert Emits(es, ent);
    var n :| 0 <= n < |es| && es[n].ent == ent;
    EmissionsSound(flat, top, threshold, es[n]);
    FlattenSound(ents, relations, Flat(ent, es[n].rel));
    forall rel | rel in rels[ent] ensures rel in relations[ent] {
      var k :| 0 <= k < |rels[ent]| && rels[ent][k] == rel;
      FlattenSound(ents, relations, Flat(ent, rel));
    }
  }
}
