// Weighted rank fusion: ask/search/rank_fusion.py (RankFusionAlgorithm.fuse, WeightedCombSum)
// and compute_best_matches of ask/search/ask.py.
module RankFusion {
  import opened Basics
  import Sorting
  import Text

  type ParagraphId = string

  datatype ScoreType = BM25 | VECTOR | BOTH | RERANKER | RELATION_RELEVANCE

  // A scored text block; its current score is the last of its score history.
  datatype Item = Item(id: ParagraphId, scores: seq<real>, scoreType: ScoreType, text: string)

  predicate Scored(item: Item) { |item.scores| > 0 }

  function ScoreOf(item: Item): real {
    if |item.scores| > 0 then item.scores[|item.scores| - 1] else 0.0
  }

  // Multiplication by name, so that proofs about sums need not unfold it.
  function Times(x: real, y: real): real { x * y }

  function Share(x: real, total: real): real
    requires total != 0.0
  {
    x / total
  }

  datatype Source = Source(name: string, items: seq<Item>)

  // One match of a paragraph, with the weight of the source it came from.
  datatype Match = Match(item: Item, weight: real)

  function WeightOf(weights: map<string, real>, defaultWeight: real, name: string): real {
    if name in weights then weights[name] else defaultWeight
  }

  function Weigh(items: seq<Item>, weight: real): (r: seq<Match>)
    ensures |r| == |items| && forall i :: 0 <= i < |items| ==> r[i] == Match(items[i], weight)
  {
    seq(|items|, i requires 0 <= i < |items| => Match(items[i], weight))
  }

  // All matches, source by source.
  function Matches(sources: seq<Source>, weights: map<string, real>, defaultWeight: real): seq<Match> {
    if sources == [] then []
    else
      var last := sources[|sources| - 1];
      Matches(sources[..|sources| - 1], weights, defaultWeight) +
        Weigh(last.items, WeightOf(weights, defaultWeight, last.name))
  }

  // ----- what fusion computes for one paragraph -----

  predicate Has(ms: seq<Match>, id: ParagraphId) {
    exists i :: 0 <= i < |ms| && ms[i].item.id == id
  }

  // The weighted sum over every match of the paragraph.
  function Total(ms: seq<Match>, id: ParagraphId): real {
    if ms == [] then 0.0
    else
      var m := ms[|ms| - 1];
      Total(ms[..|ms| - 1], id) + if m.item.id == id then Times(ScoreOf(m.item), m.weight) else 0.0
  }

  function History(ms: seq<Match>, id: ParagraphId): seq<real> {
    if ms == [] then []
    else
      var m := ms[|ms| - 1];
      History(ms[..|ms| - 1], id) + if m.item.id == id then [ScoreOf(m.item)] else []
  }

  function First(ms: seq<Match>, id: ParagraphId): Item
    requires Has(ms, id)
  {
    if ms[0].item.id == id then ms[0].item else First(ms[1..], id)
  }

  // A keyword match joined with a semantic one becomes BOTH.
  function Join(a: ScoreType, b: ScoreType): ScoreType {
    if (a == BM25 && b == VECTOR) || (a == VECTOR && b == BM25) then BOTH else a
  }

  function TypeOf(ms: seq<Match>, id: ParagraphId): ScoreType
    requires Has(ms, id)
  {
    var m, front := ms[|ms| - 1], ms[..|ms| - 1];
    if Has(front, id) then
      (if m.item.id == id then Join(TypeOf(front, id), m.item.scoreType) else TypeOf(front, id))
    else m.item.scoreType
  }

  // The paragraphs in order of first match.
  function Ids(ms: seq<Match>): seq<ParagraphId> {
    if ms == [] then []
    else
      var m, front := ms[|ms| - 1], ms[..|ms| - 1];
      Ids(front) + if Has(front, m.item.id) then [] else [m.item.id]
  }

  function Fused(ms: seq<Match>, id: ParagraphId): Item
    requires Has(ms, id)
  {
    First(ms, id).(scores := History(ms, id) + [Total(ms, id)], scoreType := TypeOf(ms, id))
  }

  predicate Distinct(ids: seq<ParagraphId>) {
    forall i, j :: 0 <= i < j < |ids| ==> ids[i] != ids[j]
  }

  lemma {:induction false} IdsExact(ms: seq<Match>)
    ensures Distinct(Ids(ms))
    ensures forall id :: id in Ids(ms) <==> Has(ms, id)
  {
    if ms != [] {
      var m, front := ms[|ms| - 1], ms[..|ms| - 1];
      IdsExact(front);
      forall id ensures id in Ids(ms) <==> Has(ms, id) {
        HasSnoc(front, m, id);
        assert ms == front + [m];
      }
    }
  }

  lemma HasSnoc(front: seq<Match>, m: Match, id: ParagraphId)
    ensures Has(front + [m], id) <==> Has(front, id) || m.item.id == id
  {
    var ms := front + [m];
    if i :| 0 <= i < |front| && front[i].item.id == id {
      assert ms[i].item.id == id;
    }
    if m.item.id == id {
      assert ms[|front|].item.id == id;
    }
  }

  lemma {:induction false} FirstSnoc(front: seq<Match>, m: Match, id: ParagraphId)
    requires Has(front + [m], id)
    ensures First(front + [m], id) == if Has(front, id) then First(front, id) else m.item
  {
    var ms := front + [m];
    if front == [] {
    } else if front[0].item.id == id {
      assert ms[0] == front[0];
    } else {
      assert ms[1..] == front[1..] + [m];
      assert Has(front, id) <==> Has(front[1..], id) by {
        if i :| 0 <= i < |front| && front[i].item.id == id {
          assert front[1..][i - 1].item.id == id;
        }
      }
      assert Has(ms[1..], id) by {
        var i :| 0 <= i < |ms| && ms[i].item.id == id;
        assert ms[1..][i - 1].item.id == id;
      }
      FirstSnoc(front[1..], m, id);
    }
  }

  function FusedList(ms: seq<Match>): (r: seq<Item>)
    ensures |r| == |Ids(ms)|
    ensures forall k :: 0 <= k < |r| ==> Has(ms, Ids(ms)[k]) && r[k] == Fused(ms, Ids(ms)[k])
  {
    IdsExact(ms);
    seq(|Ids(ms)|, k requires 0 <= k < |Ids(ms)| => Fused(ms, Ids(ms)[k]))
  }

  // ----- WeightedCombSum._fuse -----

  datatype Entry = Entry(score: real, scoreType: ScoreType, history: seq<real>)

  ghost predicate Accumulated(ms: seq<Match>, order: seq<ParagraphId>, scores: map<ParagraphId, Entry>,
      first: map<ParagraphId, Item>) {
    order == Ids(ms) && ScoresOf(ms, scores) && FirstsOf(ms, first)
  }

  ghost predicate ScoresOf(ms: seq<Match>, scores: map<ParagraphId, Entry>) {
    forall id :: (id in scores <==> Has(ms, id)) && (Has(ms, id) ==> scores[id] == EntryOf(ms, id))
  }

  ghost predicate FirstsOf(ms: seq<Match>, first: map<ParagraphId, Item>) {
    forall id :: (id in first <==> Has(ms, id)) && (Has(ms, id) ==> first[id] == First(ms, id))
  }

  function EntryOf(ms: seq<Match>, id: ParagraphId): Entry
    requires Has(ms, id)
  {
    Entry(Total(ms, id), TypeOf(ms, id), History(ms, id))
  }

  // One more match of a paragraph, recorded.
  function Recorded(scores: map<ParagraphId, Entry>, m: Match): Entry {
    var e := if m.item.id in scores then scores[m.item.id] else Entry(0.0, m.item.scoreType, []);
    Entry(e.score + Times(ScoreOf(m.item), m.weight), Join(e.scoreType, m.item.scoreType), e.history +
      [ScoreOf(m.item)])
  }

  lemma ScoresStep(ms: seq<Match>, m: Match, scores: map<ParagraphId, Entry>)
    requires ScoresOf(ms, scores)
    ensures ScoresOf(ms + [m], scores[m.item.id := Recorded(scores, m)])
  {
    hide Times, Join, Total, History, TypeOf, Has, ScoreOf;
    var scores' := scores[m.item.id := Recorded(scores, m)];
    forall id
      ensures id in scores' <==> Has(ms + [m], id)
      ensures Has(ms + [m], id) ==> scores'[id] == EntryOf(ms + [m], id)
    {
      HasSnoc(ms, m, id);
      if Has(ms + [m], id) {
        EntrySnoc(ms, m, id);
      }
    }
  }

  lemma FirstsStep(ms: seq<Match>, m: Match, first: map<ParagraphId, Item>)
    requires FirstsOf(ms, first)
    ensures FirstsOf(ms + [m], if m.item.id in first then first else first[m.item.id := m.item])
  {
    hide First, Has;
    forall id
      ensures Has(ms + [m], id) <==> Has(ms, id) || m.item.id == id
      ensures Has(ms + [m], id) ==> First(ms + [m], id) == if Has(ms, id) then First(ms, id) else m.item
    {
      HasSnoc(ms, m, id);
      if Has(ms + [m], id) {
        FirstSnoc(ms, m, id);
      }
    }
  }

  lemma AccumulatedStep(ms: seq<Match>, m: Match, order: seq<ParagraphId>, scores: map<ParagraphId, Entry>,
      first: map<ParagraphId, Item>)
    requires Accumulated(ms, order, scores, first)
    ensures Accumulated(ms + [m], if m.item.id in scores then order else order + [m.item.id],
      scores[m.item.id := Recorded(scores, m)], if m.item.id in first then first else first[m.item.id := m.item])
  {
    hide Has, Ids, First, Recorded, EntryOf;
    IdsSnoc(ms, m);
    assert m.item.id in scores <==> Has(ms, m.item.id);
    hide ScoresOf, FirstsOf;
    ScoresStep(ms, m, scores);
    FirstsStep(ms, m, first);
  }

  lemma IdsSnoc(ms: seq<Match>, m: Match)
    ensures Ids(ms + [m]) == Ids(ms) + if Has(ms, m.item.id) then [] else [m.item.id]
  {
    assert (ms + [m])[..|ms|] == ms;
  }

  // How one more match changes what is recorded for a paragraph.
  lemma EntrySnoc(ms: seq<Match>, m: Match, id: ParagraphId)
    requires Has(ms + [m], id)
    ensures m.item.id != id ==> Has(ms, id)
    ensures m.item.id != id ==>
      Total(ms + [m], id) == Total(ms, id) && History(ms + [m], id) == History(ms, id) &&
        TypeOf(ms + [m], id) == TypeOf(ms, id)
    ensures m.item.id == id ==>
      && Total(ms + [m], id) == (if Has(ms, id) then Total(ms, id) else 0.0) + Times(ScoreOf(m.item), m.weight)
      && History(ms + [m], id) == (if Has(ms, id) then History(ms, id) else []) + [ScoreOf(m.item)]
      && TypeOf(ms + [m], id) == Join(if Has(ms, id) then TypeOf(ms, id) else m.item.scoreType, m.item.scoreType)
  {
    hide Times;
    assert (ms + [m])[..|ms|] == ms;
    HasSnoc(ms, m, id);
    if !Has(ms, id) {
      NothingYet(ms, id);
    }
  }

  lemma {:induction false} NothingYet(ms: seq<Match>, id: ParagraphId)
    requires !Has(ms, id)
    ensures Total(ms, id) == 0.0 && History(ms, id) == []
  {
    if ms != [] {
      var front := ms[..|ms| - 1];
      assert ms == front + [ms[|ms| - 1]];
      HasSnoc(front, ms[|ms| - 1], id);
      NothingYet(front, id);
    }
  }

  // The accumulating dictionaries of _fuse.
  class Accumulator {
    var order: seq<ParagraphId>
    var scores: map<ParagraphId, Entry>
    var first: map<ParagraphId, Item>

    constructor ()
      ensures Accumulated([], order, scores, first)
    {
      order, scores, first := [], map[], map[];
    }

    method Add(item: Item, weight: real, ghost ms: seq<Match>)
      requires Accumulated(ms, order, scores, first)
      modifies this
      ensures Accumulated(ms + [Match(item, weight)], order, scores, first)
    {
      hide Accumulated, Times, Join;
      ghost var order0, scores0, first0 := order, scores, first;
      var id := item.id;
      var e := if id in scores then scores[id] else Entry(0.0, item.scoreType, []);
      if id !in scores {
        order := order + [id];
      }
      scores := scores[id := Entry(e.score + Times(ScoreOf(item), weight), Join(e.scoreType, item.scoreType),
        e.history + [ScoreOf(item)])];
      if id !in first {
        first := first[id := item];
      }
      AccumulatedStep(ms, Match(item, weight), order0, scores0, first0);
    }

    method AddRanking(ranking: seq<Item>, weight: real, ghost ms: seq<Match>)
      requires Accumulated(ms, order, scores, first)
      modifies this
      ensures Accumulated(ms + Weigh(ranking, weight), order, scores, first)
    {
      hide Accumulated;
      assert ms + Weigh([], weight) == ms;
      for j := 0 to |ranking|
        invariant Accumulated(ms + Weigh(ranking[..j], weight), order, scores, first)
      {
        Add(ranking[j], weight, ms + Weigh(ranking[..j], weight));
        assert ms + Weigh(ranking[..j], weight) + [Match(ranking[j], weight)] == ms + Weigh(ranking[..j + 1], weight);
      }
      assert ranking[..|ranking|] == ranking;
    }

    // One item per paragraph: the first match, with the accumulated history, sum and type.
    method Merge(ghost ms: seq<Match>) returns (merged: seq<Item>)
      requires Accumulated(ms, order, scores, first)
      ensures merged == FusedList(ms)
    {
      IdsExact(ms);
      merged := [];
      for k := 0 to |order|
        invariant merged == FusedList(ms)[..k]
      {
        var id := order[k];
        assert id in Ids(ms);
        merged := merged + [first[id].(scores := scores[id].history +
          [scores[id].score], scoreType := scores[id].scoreType)];
      }
    }
  }

  method FuseAll(sources: seq<Source>, weights: map<string, real>, defaultWeight: real) returns (merged: seq<Item>)
    ensures merged == FusedList(Matches(sources, weights, defaultWeight))
  {
    hide Accumulated;
    var acc := new Accumulator();
    for i := 0 to |sources|
      invariant fresh(acc)
      invariant Accumulated(Matches(sources[..i], weights, defaultWeight), acc.order, acc.scores, acc.first)
    {
      var weight := WeightOf(weights, defaultWeight, sources[i].name);
      acc.AddRanking(sources[i].items, weight, Matches(sources[..i], weights, defaultWeight));
      assert sources[..i + 1][..i] == sources[..i];
    }
    assert sources[..|sources|] == sources;
    merged := acc.Merge(Matches(sources, weights, defaultWeight));
  }

  // ----- RankFusionAlgorithm.fuse -----

  function NonEmpty(sources: seq<Source>): seq<Source> {
    if sources == [] then []
    else (if |sources[0].items| > 0 then [sources[0]] else []) + NonEmpty(sources[1..])
  }

  method Fuse(sources: seq<Source>, weights: map<string, real>, defaultWeight: real) returns (merged: seq<Item>)
    ensures |NonEmpty(sources)| == 1 ==> merged == Sorting.ByKey(NonEmpty(sources)[0].items, ScoreOf)
    ensures |NonEmpty(sources)| != 1 ==>
      merged ==
      Sorting.ByKey(FusedList(Matches(sources, weights, defaultWeight)), ScoreOf)
  {
    var withResults: seq<Source> := [];
    for i := 0 to |sources|
      invariant withResults == NonEmpty(sources[..i])
    {
      NonEmptySnoc(sources[..i], sources[i]);
      assert sources[..i + 1] == sources[..i] + [sources[i]];
      if |sources[i].items| > 0 {
        withResults := withResults + [sources[i]];
      }
    }
    assert sources[..|sources|] == sources;
    if |withResults| == 1 {
      merged := withResults[0].items;
    } else {
      merged := FuseAll(sources, weights, defaultWeight);
    }
    merged := Sorting.ByKey(merged, ScoreOf);
  }

  lemma {:induction false} NonEmptySnoc(front: seq<Source>, s: Source)
    ensures NonEmpty(front + [s]) == NonEmpty(front) + if |s.items| > 0 then [s] else []
  {
    if front != [] {
      assert (front + [s])[1..] == front[1..] + [s];
      NonEmptySnoc(front[1..], s);
    }
  }

  // ----- what a fused ranking is -----

  lemma {:induction false} FirstId(ms: seq<Match>, id: ParagraphId)
    requires Has(ms, id)
    ensures First(ms, id).id == id
  {
    if ms[0].item.id != id {
      var i :| 0 <= i < |ms| && ms[i].item.id == id;
      assert ms[1..][i - 1].item.id == id;
      FirstId(ms[1..], id);
    }
  }

  lemma FusedIds(ms: seq<Match>)
    ensures IdsOf(FusedList(ms)) == Ids(ms)
  {
    forall k | 0 <= k < |Ids(ms)| ensures FusedList(ms)[k].id == Ids(ms)[k] {
      assert Has(ms, Ids(ms)[k]) && FusedList(ms)[k] == Fused(ms, Ids(ms)[k]);
      FirstId(ms, Ids(ms)[k]);
    }
  }

  // Fusion gives one item per distinct paragraph: it has some match, no other item has its id,
  // and its score is the weighted sum over all its matches.
  lemma FusedExact(ms: seq<Match>)
    ensures Distinct(IdsOf(FusedList(ms)))
    ensures forall id :: id in IdsOf(FusedList(ms)) <==> Has(ms, id)
    ensures forall x :: x in FusedList(ms) ==>
      ScoreOf(x) == Total(ms, x.id) && ScoreOf(x) == SumWeights(Contributions(ms, x.id))
  {
    IdsExact(ms);
    FusedIds(ms);
    forall x | x in FusedList(ms)
      ensures ScoreOf(x) == Total(ms, x.id) && ScoreOf(x) == SumWeights(Contributions(ms, x.id))
    {
      var k :| 0 <= k < |FusedList(ms)| && FusedList(ms)[k] == x;
      assert IdsOf(FusedList(ms))[k] == Ids(ms)[k];
      TotalExact(ms, x.id);
      hide Contributions;
    }
  }

  ghost predicate FirstMatch(ms: seq<Match>, id: ParagraphId, i: nat) {
    i < |ms| && ms[i].item.id == id && forall j :: 0 <= j < i ==> ms[j].item.id != id
  }

  lemma {:induction false} FirstExact(ms: seq<Match>, id: ParagraphId, i: nat)
    requires FirstMatch(ms, id, i)
    ensures Has(ms, id) && First(ms, id) == ms[i].item
  {
    if i > 0 {
      FirstExact(ms[1..], id, i - 1);
    }
  }

  ghost predicate FusesInto(ms: seq<Match>, first: Item, x: Item) {
    && x.id == first.id && x.text == first.text
    && x.scores == Scores(ms, x.id) + [SumWeights(Contributions(ms, x.id))]
  }

  // The fused item is its first match, with the scores of all its matches and then their sum.
  lemma FusedFrom(ms: seq<Match>, i: nat)
    requires i < |ms| && FirstMatch(ms, ms[i].item.id, i)
    ensures exists x :: x in FusedList(ms) && FusesInto(ms, ms[i].item, x)
  {
    var id := ms[i].item.id;
    FirstExact(ms, id, i);
    IdsExact(ms);
    TotalExact(ms, id);
    var k :| 0 <= k < |Ids(ms)| && Ids(ms)[k] == id;
    assert FusedList(ms)[k] == Fused(ms, id);
    hide Contributions, Scores;
    assert FusesInto(ms, ms[i].item, FusedList(ms)[k]);
  }

  function Matching(id: ParagraphId): Match -> bool {
    (m: Match) => m.item.id == id
  }

  function MatchScore(m: Match): real { ScoreOf(m.item) }

  // What a match adds to the score of its paragraph.
  function Contribution(m: Match): real { ScoreOf(m.item) * m.weight }

  function Contributions(ms: seq<Match>, id: ParagraphId): seq<real> {
    Sorting.Map(Sorting.Filter(ms, Matching(id)), Contribution)
  }

  function Scores(ms: seq<Match>, id: ParagraphId): seq<real> {
    Sorting.Map(Sorting.Filter(ms, Matching(id)), MatchScore)
  }

  lemma MapSnoc(ms: seq<Match>, m: Match, f: Match -> real)
    ensures Sorting.Map(ms + [m], f) == Sorting.Map(ms, f) + [f(m)]
  {
  }

  lemma {:induction false} FilterSnoc(ms: seq<Match>, m: Match, q: Match -> bool)
    ensures Sorting.Filter(ms + [m], q) == Sorting.Filter(ms, q) + if q(m) then [m] else []
  {
    if ms == [] {
      assert [m][1..] == [];
    } else {
      assert (ms + [m])[1..] == ms[1..] + [m];
      FilterSnoc(ms[1..], m, q);
    }
  }

  // The total is the sum of the contributions, the history their scores, in order.
  lemma {:induction false} TotalExact(ms: seq<Match>, id: ParagraphId)
    ensures Total(ms, id) == SumWeights(Contributions(ms, id))
    ensures History(ms, id) == Scores(ms, id)
  {
    if ms != [] {
      var front, m := ms[..|ms| - 1], ms[|ms| - 1];
      TotalExact(front, id);
      assert ms == front + [m];
      FilterSnoc(front, m, Matching(id));
      hide Sorting.Filter, Contribution, MatchScore, Times, SumWeights;
      if m.item.id == id {
        MapSnoc(Sorting.Filter(front, Matching(id)), m, Contribution);
        MapSnoc(Sorting.Filter(front, Matching(id)), m, MatchScore);
        SumAppend(Contributions(front, id), Contribution(m));
        Contributes(m);
      } else {
        assert Sorting.Filter(ms, Matching(id)) == Sorting.Filter(front, Matching(id));
      }
    }
  }

  lemma Contributes(m: Match)
    ensures Contribution(m) == Times(ScoreOf(m.item), m.weight) && MatchScore(m) == ScoreOf(m.item)
  {
  }

  // A sum of nothing is zero, and each further term counts once.
  lemma SumAppend(ws: seq<real>, w: real)
    ensures SumWeights(ws + [w]) == SumWeights(ws) + w && SumWeights([]) == 0.0
  {
    assert (ws + [w])[..|ws|] == ws;
  }

  ghost predicate Matched(ms: seq<Match>, id: ParagraphId, t: ScoreType) {
    exists i :: 0 <= i < |ms| && ms[i].item.id == id && ms[i].item.scoreType == t
  }

  // A paragraph keeps the type of its first match, but is BOTH when that is one of keyword and
  // semantic and it is matched by the other as well.
  lemma {:induction false} TypeExact(ms: seq<Match>, id: ParagraphId)
    requires Has(ms, id)
    ensures var first := First(ms, id).scoreType;
      TypeOf(ms, id) ==
        if (first == BM25 && Matched(ms, id, VECTOR)) || (first == VECTOR && Matched(ms, id, BM25)) then BOTH else first
  {
    var front, m := ms[..|ms| - 1], ms[|ms| - 1];
    hide First, Has;
    assert ms == front + [m];
    HasSnoc(front, m, id);
    FirstSnoc(front, m, id);
    MatchedSnoc(front, m, id, VECTOR);
    MatchedSnoc(front, m, id, BM25);
    if Has(front, id) {
      TypeExact(front, id);
    } else {
      NotMatched(front, id);
    }
  }

  lemma MatchedSnoc(front: seq<Match>, m: Match, id: ParagraphId, t: ScoreType)
    ensures Matched(front + [m], id, t) <==> Matched(front, id, t) || (m.item.id == id && m.item.scoreType == t)
  {
    var ms := front + [m];
    assert ms[|front|] == m;
    assert forall i :: 0 <= i < |front| ==> ms[i] == front[i];
  }

  lemma NotMatched(ms: seq<Match>, id: ParagraphId)
    requires !Has(ms, id)
    ensures forall t :: !Matched(ms, id, t)
  {
  }

  function IdsOf(xs: seq<Item>): (r: seq<ParagraphId>)
    ensures |r| == |xs| && forall i :: 0 <= i < |xs| ==> r[i] == xs[i].id
  {
    seq(|xs|, i requires 0 <= i < |xs| => xs[i].id)
  }

  // Two lists of the same paragraphs whose scores compare alike sort into the same order.
  lemma SameOrder(xs: seq<Item>, ys: seq<Item>)
    requires |xs| == |ys| && IdsOf(xs) == IdsOf(ys)
    requires forall i, j :: 0 <= i < |xs| && 0 <= j < |xs| ==>
      (ScoreOf(xs[i]) >= ScoreOf(xs[j]) <==> ScoreOf(ys[i]) >= ScoreOf(ys[j]))
    ensures IdsOf(Sorting.ByKey(xs, ScoreOf)) == IdsOf(Sorting.ByKey(ys, ScoreOf))
  {
    var pairs := seq(|xs|, i requires 0 <= i < |xs| => (xs[i], ys[i]));
    var fst, snd := (p: (Item, Item)) => p.0, (p: (Item, Item)) => p.1;
    var le := Sorting.Desc(ScoreOf);
    var lePair := (p: (Item, Item), q: (Item, Item)) => ScoreOf(p.0) >= ScoreOf(q.0);
    assert Sorting.Map(pairs, fst) == xs && Sorting.Map(pairs, snd) == ys;
    Sorting.SortMap(pairs, fst, lePair, le);
    Sorting.SortMap(pairs, snd, lePair, le);
    Sorting.SortMembers(pairs, lePair);
    var sorted := Sorting.Sort(pairs, lePair);
    forall k | 0 <= k < |xs| ensures Sorting.ByKey(xs, ScoreOf)[k].id == Sorting.ByKey(ys, ScoreOf)[k].id {
      assert sorted[k] in pairs;
      var i :| 0 <= i < |xs| && pairs[i] == sorted[k];
      assert IdsOf(xs)[i] == IdsOf(ys)[i];
    }
  }

  function HasTotal(ms: seq<Match>, v: real): ParagraphId -> bool {
    id => Total(ms, id) == v
  }

  // Paragraphs with equal totals come in the order of their first match.
  lemma TiesByFirstMatch(ms: seq<Match>, v: real)
    ensures IdsOf(Sorting.Filter(Sorting.ByKey(FusedList(ms), ScoreOf), Sorting.Tied(ScoreOf, v)))
         == Sorting.Filter(Ids(ms), HasTotal(ms, v))
  {
    hide Sorting.ByKey, FusedList, Total, Sorting.Filter, Sorting.Tied, HasTotal, ScoreOf;
    Sorting.TiesKeepOrder(FusedList(ms), ScoreOf, v);
    FusedExact(ms);
    FusedIds(ms);
    FilterIds(ms, FusedList(ms), v);
  }

  lemma {:induction false} FilterIds(ms: seq<Match>, xs: seq<Item>, v: real)
    requires forall x :: x in xs ==> ScoreOf(x) == Total(ms, x.id)
    ensures IdsOf(Sorting.Filter(xs, Sorting.Tied(ScoreOf, v))) == Sorting.Filter(IdsOf(xs), HasTotal(ms, v))
    decreases |xs|
  {
    if xs != [] {
      var x, rest := xs[0], xs[1..];
      assert x in xs && forall y :: y in rest ==> y in xs;
      FilterIds(ms, rest, v);
      FilterIdsCons(ms, x, rest, v);
      hide Sorting.Filter, Sorting.Tied, HasTotal, ScoreOf, Total;
      assert xs == [x] + rest;
    }
  }

  lemma FilterIdsCons(ms: seq<Match>, x: Item, rest: seq<Item>, v: real)
    requires ScoreOf(x) == Total(ms, x.id)
    requires IdsOf(Sorting.Filter(rest, Sorting.Tied(ScoreOf, v))) == Sorting.Filter(IdsOf(rest), HasTotal(ms, v))
    ensures IdsOf(Sorting.Filter([x] + rest, Sorting.Tied(ScoreOf, v))) ==
      Sorting.Filter(IdsOf([x] + rest), HasTotal(ms, v))
  {
    var q, p := Sorting.Tied(ScoreOf, v), HasTotal(ms, v);
    assert q(x) == p(x.id);
    hide Total, ScoreOf, Sorting.Tied, HasTotal, Sorting.Filter;
    IdsCons(x, rest);
    IdsCons(x, Sorting.Filter(rest, q));
    Sorting.FilterCons(x, rest, q);
    Sorting.FilterCons(x.id, IdsOf(rest), p);
    NoneFirst(Sorting.Filter(rest, q));
    NoneFirst(Sorting.Filter(IdsOf(rest), p));
  }

  lemma IdsCons(x: Item, xs: seq<Item>)
    ensures IdsOf([x] + xs) == [x.id] + IdsOf(xs)
  {
  }

  lemma NoneFirst<T>(xs: seq<T>)
    ensures [] + xs == xs
  {
  }

  // ----- the order does not depend on the scale of the weights -----

  function ScaleWeights(ms: seq<Match>, c: real): (r: seq<Match>)
    ensures |r| == |ms| && forall i :: 0 <= i < |ms| ==> r[i] == Match(ms[i].item, Times(c, ms[i].weight))
  {
    seq(|ms|, i requires 0 <= i < |ms| => Match(ms[i].item, Times(c, ms[i].weight)))
  }

  lemma {:induction false} ScaledTotal(ms: seq<Match>, c: real, id: ParagraphId)
    ensures Total(ScaleWeights(ms, c), id) == Times(c, Total(ms, id))
  {
    hide Times;
    if ms != [] {
      var m, front := ms[|ms| - 1], ms[..|ms| - 1];
      ScaledTotal(front, c, id);
      assert ScaleWeights(ms, c)[..|ms| - 1] == ScaleWeights(front, c);
      TimesScale(ScoreOf(m.item), c, m.weight);
      TimesAdd(c, Total(front, id), Times(ScoreOf(m.item), m.weight));
      TimesAdd(c, Total(front, id), 0.0);
    } else {
      TimesAdd(c, 0.0, 0.0);
    }
  }

  lemma TimesScale(x: real, c: real, w: real)
    ensures Times(x, Times(c, w)) == Times(c, Times(x, w))
  {
    assert x * (c * w) == c * (x * w);
  }

  lemma TimesAdd(c: real, x: real, y: real)
    ensures Times(c, x + y) == Times(c, x) + Times(c, y) && Times(c, 0.0) == 0.0
  {
  }

  lemma {:induction false} ScaledIds(ms: seq<Match>, c: real)
    ensures Ids(ScaleWeights(ms, c)) == Ids(ms)
    ensures forall id :: Has(ScaleWeights(ms, c), id) <==> Has(ms, id)
  {
    hide Times;
    var scaled := ScaleWeights(ms, c);
    forall id ensures Has(scaled, id) <==> Has(ms, id) {
      if i :| 0 <= i < |ms| && ms[i].item.id == id {
        assert scaled[i].item.id == id;
      }
    }
    if ms != [] {
      var front := ms[..|ms| - 1];
      ScaledIds(front, c);
      assert scaled[..|ms| - 1] == ScaleWeights(front, c);
    }
  }

  lemma TimesCompare(c: real, x: real, y: real)
    requires c > 0.0
    ensures Times(c, x) >= Times(c, y) <==> x >= y
    ensures Times(x, c) >= Times(y, c) <==> x >= y
  {
    assert x > y ==> c * (x - y) > 0.0;
    assert x < y ==> c * (y - x) > 0.0;
  }

  // Scaling every weight by a positive constant leaves the order of the fused paragraphs alone.
  lemma ScaleInvariant(ms: seq<Match>, c: real)
    requires c > 0.0
    ensures IdsOf(Sorting.ByKey(FusedList(ScaleWeights(ms, c)), ScoreOf)) ==
      IdsOf(Sorting.ByKey(FusedList(ms), ScoreOf))
  {
    hide Times, Sorting.ByKey, FusedList;
    var scaled := ScaleWeights(ms, c);
    var xs, ys := FusedList(ms), FusedList(scaled);
    ScaledIds(ms, c);
    FusedIds(ms);
    FusedIds(scaled);
    FusedExact(ms);
    FusedExact(scaled);
    forall i, j | 0 <= i < |xs| && 0 <= j < |xs|
      ensures ScoreOf(xs[i]) >= ScoreOf(xs[j]) <==> ScoreOf(ys[i]) >= ScoreOf(ys[j])
    {
      assert IdsOf(xs)[i] == IdsOf(ys)[i] && IdsOf(xs)[j] == IdsOf(ys)[j];
      assert xs[i] in xs && ys[i] in ys && xs[j] in xs && ys[j] in ys;
      ScaledTotal(ms, c, xs[i].id);
      ScaledTotal(ms, c, xs[j].id);
      TimesCompare(c, Total(ms, xs[i].id), Total(ms, xs[j].id));
    }
    SameOrder(xs, ys);
  }

  // ----- skipping fusion for a single source is harmless -----

  lemma WeighSnoc(items: seq<Item>, item: Item, weight: real)
    ensures Weigh(items + [item], weight) == Weigh(items, weight) + [Match(item, weight)]
    ensures IdsOf(items + [item]) == IdsOf(items) + [item.id]
  {
  }

  lemma WeighHas(items: seq<Item>, weight: real, id: ParagraphId)
    ensures Has(Weigh(items, weight), id) <==> id in IdsOf(items)
  {
    if id in IdsOf(items) {
      var i :| 0 <= i < |items| && IdsOf(items)[i] == id;
      assert Weigh(items, weight)[i].item.id == id;
    }
    if i :| 0 <= i < |items| && Weigh(items, weight)[i].item.id == id {
      assert IdsOf(items)[i] == id;
    }
  }

  // Each paragraph having one match, fusing keeps the paragraphs and weighs their scores.
  lemma {:induction false} SingleIds(items: seq<Item>, weight: real)
    requires Distinct(IdsOf(items))
    ensures Ids(Weigh(items, weight)) == IdsOf(items)
    ensures forall i :: 0 <= i < |items| ==>
      Total(Weigh(items, weight), items[i].id) ==
      Times(ScoreOf(items[i]), weight)
    decreases |items|
  {
    if items != [] {
      var front, last := items[..|items| - 1], items[|items| - 1];
      assert items == front + [last];
      var ms, m := Weigh(front, weight), Match(last, weight);
      WeighSnoc(front, last, weight);
      assert forall i :: 0 <= i < |front| ==> IdsOf(items)[i] == IdsOf(front)[i];
      SingleIds(front, weight);
      WeighHas(front, weight, last.id);
      hide Times, ScoreOf, Total, Has, Weigh, Ids;
      assert last.id == IdsOf(items)[|front|];
      assert !Has(ms, last.id);
      IdsSnoc(ms, m);
      forall i | 0 <= i < |items| ensures Total(ms + [m], items[i].id) == Times(ScoreOf(items[i]), weight) {
        SingleTotal(front, last, weight, i);
      }
    }
  }

  lemma SingleTotal(front: seq<Item>, last: Item, weight: real, i: nat)
    requires i <= |front| && !Has(Weigh(front, weight), last.id)
    requires forall k :: 0 <= k < |front| ==>
      Total(Weigh(front, weight), front[k].id) ==
      Times(ScoreOf(front[k]), weight)
    ensures var item := (front + [last])[i];
      Total(Weigh(front, weight) + [Match(last, weight)], item.id) == Times(ScoreOf(item), weight)
  {
    hide Times, ScoreOf, Total, Has;
    var ms, m := Weigh(front, weight), Match(last, weight);
    var item := (front + [last])[i];
    HasSnoc(ms, m, item.id);
    if i < |front| {
      HasOwn(front, weight, i);
      assert item.id != last.id;
    }
    EntrySnoc(ms, m, item.id);
    ZeroPlus(Times(ScoreOf(item), weight));
  }

  lemma HasOwn(items: seq<Item>, weight: real, i: nat)
    requires i < |items|
    ensures Has(Weigh(items, weight), items[i].id)
  {
    assert Weigh(items, weight)[i].item.id == items[i].id;
  }

  lemma ZeroPlus(x: real)
    ensures 0.0 + x == x
  {
  }

  // With distinct paragraphs and a positive weight, sorting the only source with results gives
  // the same order of paragraphs as fusing it.
  lemma ShortcutSameOrder(items: seq<Item>, weight: real)
    requires Distinct(IdsOf(items)) && weight > 0.0
    ensures IdsOf(Sorting.ByKey(items, ScoreOf)) == IdsOf(Sorting.ByKey(FusedList(Weigh(items, weight)), ScoreOf))
  {
    hide Times, Sorting.ByKey, FusedList;
    var ms := Weigh(items, weight);
    var ys := FusedList(ms);
    SingleIds(items, weight);
    FusedIds(ms);
    FusedExact(ms);
    forall i, j | 0 <= i < |items| && 0 <= j < |items|
      ensures ScoreOf(items[i]) >= ScoreOf(items[j]) <==> ScoreOf(ys[i]) >= ScoreOf(ys[j])
    {
      assert IdsOf(ys)[i] == items[i].id && IdsOf(ys)[j] == items[j].id;
      assert ys[i] in ys && ys[j] in ys;
      TimesCompare(weight, ScoreOf(items[i]), ScoreOf(items[j]));
    }
    SameOrder(items, ys);
  }

  // ----- compute_best_matches -----

  datatype Error = ZeroDivision

  function SumWeights(ws: seq<real>): real {
    if ws == [] then 0.0 else SumWeights(ws[..|ws| - 1]) + ws[|ws| - 1]
  }

  datatype Weighted = Weighted(items: seq<Item>, weight: real)

  // The matches of the main query and the prequeries under some weights.
  function WeightedMatches(rs: seq<Weighted>): seq<Match> {
    if rs == [] then [] else WeightedMatches(rs[..|rs| - 1]) + Weigh(rs[|rs| - 1].items, rs[|rs| - 1].weight)
  }

  function Weights(rs: seq<Weighted>): (ws: seq<real>)
    ensures |ws| == |rs| && forall i :: 0 <= i < |rs| ==> ws[i] == rs[i].weight
  {
    seq(|rs|, i requires 0 <= i < |rs| => rs[i].weight)
  }

  function Scaled(rs: seq<Weighted>, c: real): (r: seq<Weighted>)
    ensures |r| == |rs| && forall i :: 0 <= i < |rs| ==> r[i] == Weighted(rs[i].items, Times(c, rs[i].weight))
  {
    seq(|rs|, i requires 0 <= i < |rs| => Weighted(rs[i].items, Times(c, rs[i].weight)))
  }

  lemma {:induction false} ScaledMatches(rs: seq<Weighted>, c: real)
    ensures WeightedMatches(Scaled(rs, c)) == ScaleWeights(WeightedMatches(rs), c)
  {
    hide Times;
    if rs != [] {
      var front, last := rs[..|rs| - 1], rs[|rs| - 1];
      ScaledMatches(front, c);
      assert Scaled(rs, c)[..|rs| - 1] == Scaled(front, c);
      assert ScaleWeights(WeightedMatches(rs), c)
        == ScaleWeights(WeightedMatches(front), c) + ScaleWeights(Weigh(last.items, last.weight), c);
    }
  }

  function WithResults(rs: seq<Weighted>): seq<Weighted> {
    if rs == [] then []
    else WithResults(rs[..|rs| - 1]) + if |rs[|rs| - 1].items| > 0 then [rs[|rs| - 1]] else []
  }

  // Results (main query first, then the prequeries) fused under weights divided by their sum.
  method ComputeBestMatches(rs: seq<Weighted>) returns (r: Result<seq<Item>, Error>)
    ensures r.Err? <==> SumWeights(Weights(rs)) == 0.0
    ensures r.Ok? && |WithResults(rs)| != 1 ==>
      r.value == Sorting.ByKey(FusedList(WeightedMatches(Scaled(rs, Share(1.0, SumWeights(Weights(rs)))))), ScoreOf)
    // dividing by a positive sum leaves the order that the given weights would give
    ensures r.Ok? && |WithResults(rs)| != 1 && SumWeights(Weights(rs)) > 0.0 ==>
      IdsOf(r.value) == IdsOf(Sorting.ByKey(FusedList(WeightedMatches(rs)), ScoreOf))
    ensures r.Ok? && |WithResults(rs)| == 1 ==> r.value == Sorting.ByKey(WithResults(rs)[0].items, ScoreOf)
  {
    var total := TotalWeight(rs);
    if total == 0.0 {
      return Err(ZeroDivision);
    }
    var sources, weights := BuildSources(rs, total);
    var merged := Fuse(sources, weights, 1.0);
    NormalisedSources(rs, sources, weights, total);
    SameResults(rs, sources);
    if total > 0.0 {
      NormalisedOrder(rs, total);
    }
    return Ok(merged);
  }

  lemma NormalisedOrder(rs: seq<Weighted>, total: real)
    requires total > 0.0
    ensures IdsOf(Sorting.ByKey(FusedList(WeightedMatches(Scaled(rs, Share(1.0, total)))), ScoreOf)) ==
      IdsOf(Sorting.ByKey(FusedList(WeightedMatches(rs)), ScoreOf))
  {
    ScaledMatches(rs, Share(1.0, total));
    ScaleInvariant(WeightedMatches(rs), Share(1.0, total));
  }

  // The shares of the weights add up to one.
  lemma SharesAddUp(rs: seq<Weighted>)
    requires SumWeights(Weights(rs)) != 0.0
    ensures SumWeights(Weights(Scaled(rs, Share(1.0, SumWeights(Weights(rs)))))) == 1.0
  {
    var total := SumWeights(Weights(rs));
    SumScaled(rs, Share(1.0, total));
  }

  lemma {:induction false} SumScaled(rs: seq<Weighted>, c: real)
    ensures SumWeights(Weights(Scaled(rs, c))) == c * SumWeights(Weights(rs))
  {
    if rs != [] {
      var n := |rs| - 1;
      SumScaled(rs[..n], c);
      assert Weights(rs)[..n] == Weights(rs[..n]);
      assert Weights(Scaled(rs, c))[..n] == Weights(Scaled(rs[..n], c));
    }
  }

  method TotalWeight(rs: seq<Weighted>) returns (total: real)
    ensures total == SumWeights(Weights(rs))
  {
    total := 0.0;
    for i := 0 to |rs|
      invariant total == SumWeights(Weights(rs)[..i])
    {
      assert Weights(rs)[..i + 1][..i] == Weights(rs)[..i];
      total := total + rs[i].weight;
    }
    assert Weights(rs)[..|rs|] == Weights(rs);
  }

  ghost predicate Normalised(rs: seq<Weighted>, sources: seq<Source>, weights: map<string, real>, total: real)
    requires total != 0.0
  {
    && |sources| <= |rs|
    && forall k :: 0 <= k < |sources| ==>
      && sources[k].name == SourceName(k) && sources[k].items == rs[k].items
      && SourceName(k) in weights && weights[SourceName(k)] == Share(rs[k].weight, total)
  }

  method BuildSources(rs: seq<Weighted>, total: real) returns (sources: seq<Source>, weights: map<string, real>)
    requires total != 0.0
    ensures |sources| == |rs| && Normalised(rs, sources, weights, total)
  {
    hide Share, SourceName;
    sources, weights := [], map[];
    for i := 0 to |rs|
      invariant |sources| == i && Normalised(rs, sources, weights, total)
    {
      forall k | 0 <= k < i ensures SourceName(k) != SourceName(i) {
        SourceNamesDiffer(k, i);
      }
      sources := sources + [Source(SourceName(i), rs[i].items)];
      weights := weights[SourceName(i) := Share(rs[i].weight, total)];
    }
  }

  // "main", "prequery-0", "prequery-1", ...
  function SourceName(i: nat): string {
    if i == 0 then "main" else "prequery-" + Text.Dec(i - 1)
  }

  lemma SourceNamesDiffer(i: nat, j: nat)
    requires i != j
    ensures SourceName(i) != SourceName(j)
  {
    if i > 0 && j > 0 {
      assert SourceName(i)[9..] == Text.Dec(i - 1) && SourceName(j)[9..] == Text.Dec(j - 1);
      if Text.Dec(i - 1) == Text.Dec(j - 1) {
        Text.DecInjective(i - 1, j - 1);
      }
    } else {
      assert forall k :: k > 0 ==> SourceName(k)[0] == 'p';
    }
  }

  lemma {:induction false} NormalisedSources(rs: seq<Weighted>, sources: seq<Source>, weights: map<string, real>,
      total: real)
    requires total != 0.0 && |sources| == |rs| && Normalised(rs, sources, weights, total)
    ensures Matches(sources, weights, 1.0) == WeightedMatches(Scaled(rs, Share(1.0, total)))
  {
    hide Times, Share;
    if rs != [] {
      var n := |rs| - 1;
      NormalisedSources(rs[..n], sources[..n], weights, total);
      assert Scaled(rs, Share(1.0, total))[..n] == Scaled(rs[..n], Share(1.0, total));
      QuotientTimes(rs[n].weight, total);
    }
  }

  lemma {:induction false} SameResults(rs: seq<Weighted>, sources: seq<Source>)
    requires |sources| == |rs| && forall k :: 0 <= k < |rs| ==> sources[k].items == rs[k].items
    ensures |NonEmpty(sources)| == |WithResults(rs)|
    ensures forall k :: 0 <= k < |NonEmpty(sources)| ==> NonEmpty(sources)[k].items == WithResults(rs)[k].items
  {
    if rs != [] {
      var n := |rs| - 1;
      SameResults(rs[..n], sources[..n]);
      assert sources == sources[..n] + [sources[n]];
      NonEmptySnoc(sources[..n], sources[n]);
    }
  }

  lemma QuotientTimes(w: real, total: real)
    requires total != 0.0
    ensures Share(w, total) == Times(Share(1.0, total), w)
  {
  }
}
