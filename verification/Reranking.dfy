// Reranking and composing results: hydrate_and_rerank and compose_find_resources of
// ask/search/retrieval.py, ask/search/rerankers.py, and the window arithmetic of
// ask/search/parsers/find.py.
module Reranking {
  import opened Basics
  import Sorting

  datatype Error = KeyError

  datatype ScoreType = RERANKER | OTHER(code: int)

  // A text block: its paragraph id with the resource and field it belongs to, its score history
  // (the last one is current), and the position the result gives it.
  datatype TextBlock = TextBlock(id: string, rid: string, field: string, scores: seq<real>, scoreType: ScoreType,
      text: Option<string>, order: int)

  datatype Item = Item(id: string, score: real, scoreType: ScoreType)

  function CurrentScore(b: TextBlock): real {
    if b.scores == [] then 0.0 else b.scores[|b.scores| - 1]
  }

  function ItemScore(i: Item): real { i.score }

  // ----- rerankers -----

  // A Predict reranker answers with scores by id, or fails.
  datatype Reranker = Noop | Predict(window: nat, answer: seq<(string, string)> -> Option<seq<(string, real)>>)

  function Head<T>(xs: seq<T>, n: nat): seq<T> { if |xs| <= n then xs else xs[..n] }

  function Answered(answer: seq<(string, real)>): (r: seq<Item>)
    ensures |r| == |answer| && forall i :: 0 <= i < |r| ==> r[i] == Item(answer[i].0, answer[i].1, RERANKER)
  {
    seq(|answer|, i requires 0 <= i < |answer| => Item(answer[i].0, answer[i].1, RERANKER))
  }

  function ItemsOf(bs: seq<TextBlock>): (r: seq<Item>)
    ensures |r| == |bs| && forall i :: 0 <= i < |bs| ==> r[i] == Item(bs[i].id, CurrentScore(bs[i]), bs[i].scoreType)
  {
    seq(|bs|, i requires 0 <= i < |bs| => Item(bs[i].id, CurrentScore(bs[i]), bs[i].scoreType))
  }

  function ContentsOf(bs: seq<TextBlock>): (r: seq<(string, string)>)
    ensures |r| == |bs| && forall i :: 0 <= i < |bs| ==>
      r[i].0 == bs[i].id && (bs[i].text == Some(r[i].1) || (bs[i].text.None? && r[i].1 == ""))
  {
    seq(|bs|, i requires 0 <= i < |bs| => (bs[i].id, if bs[i].text.Some? then bs[i].text.value else ""))
  }

  // Reranker.rerank: cut to the window, then score; a failed Predict call keeps the given scores.
  function Rerank(reranker: Reranker, bs: seq<TextBlock>): seq<Item> {
    match reranker
    case Noop => ItemsOf(bs)
    case Predict(window, answer) =>
      var cut := Head(bs, window);
      if cut == [] then []
      else
        match answer(ContentsOf(cut))
        case None => Sorting.ByKey(ItemsOf(cut), ItemScore)
        case Some(scores) => Sorting.ByKey(Answered(scores), ItemScore)
  }

  // The item stands for one of the blocks and has its current score.
  ghost predicate StandsFor(x: Item, bs: seq<TextBlock>) {
    exists i :: 0 <= i < |bs| && x.id == bs[i].id && x.scoreType == bs[i].scoreType &&
      x.score == if bs[i].scores == [] then 0.0 else bs[i].scores[|bs[i].scores| - 1]
  }

  ghost predicate IsAnswered(x: Item, scores: seq<(string, real)>) {
    x.scoreType.RERANKER? && exists i :: 0 <= i < |scores| && scores[i] == (x.id, x.score)
  }

  ghost predicate Falling(xs: seq<Item>) { forall i, j :: 0 <= i < j < |xs| ==> xs[i].score >= xs[j].score }

  // Without reranking every block stands where it stood; Predict sees the window, and answers
  // with exactly the scores it was given for it or, when the call fails, with those it had.
  lemma RerankExact(reranker: Reranker, bs: seq<TextBlock>)
    ensures reranker.Noop? ==>
      |Rerank(reranker, bs)| == |bs| && forall i :: 0 <= i < |bs| ==> StandsFor(Rerank(reranker, bs)[i], bs[i..i + 1])
    ensures reranker.Predict? ==>
      var r, cut := Rerank(reranker, bs), if |bs| <= reranker.window then bs else bs[..reranker.window];
      && Falling(r)
      && (cut == [] ==> r == [])
      && (cut != [] ==>
            var answered := reranker.answer(ContentsOf(cut));
            if answered.None? then |r| == |cut| && forall x :: x in r <==> StandsFor(x, cut)
            else |r| == |answered.value| && forall x :: x in r <==> IsAnswered(x, answered.value))
  {
    match reranker
    case Noop =>
      forall i | 0 <= i < |bs| ensures StandsFor(ItemsOf(bs)[i], bs[i..i + 1]) { assert bs[i..i + 1][0] == bs[i]; }
    case Predict(window, answer) =>
      var cut := Head(bs, window);
      if cut != [] {
        var answered := answer(ContentsOf(cut));
        var items := if answered.None? then ItemsOf(cut) else Answered(answered.value);
        Sorting.ByKeySorts(items, ItemScore);
        if answered.None? {
          ItemsStand(cut);
        } else {
          AnsweredExact(answered.value);
        }
        hide Sorting.ByKey, ItemsOf, Answered, StandsFor, IsAnswered;
      }
  }

  lemma ItemsStand(bs: seq<TextBlock>)
    ensures |ItemsOf(bs)| == |bs| && forall x :: x in ItemsOf(bs) <==> StandsFor(x, bs)
  {
    forall x | StandsFor(x, bs) ensures x in ItemsOf(bs) {
      var i :| 0 <= i < |bs| && x.id == bs[i].id && x.scoreType == bs[i].scoreType &&
        x.score == if bs[i].scores == [] then 0.0 else bs[i].scores[|bs[i].scores| - 1];
      assert ItemsOf(bs)[i] == x;
    }
  }

  lemma AnsweredExact(scores: seq<(string, real)>)
    ensures |Answered(scores)| == |scores| && forall x :: x in Answered(scores) <==> IsAnswered(x, scores)
  {
    forall x | IsAnswered(x, scores) ensures x in Answered(scores) {
      var i :| 0 <= i < |scores| && scores[i] == (x.id, x.score);
      assert Answered(scores)[i] == x;
    }
  }

  predicate DistinctIds(xs: seq<Item>) { forall i, j :: 0 <= i < j < |xs| ==> xs[i].id != xs[j].id }

  lemma {:induction false} PermutedDistinct(xs: seq<Item>, ys: seq<Item>)
    requires multiset(xs) == multiset(ys) && DistinctIds(xs)
    ensures DistinctIds(ys)
  {
    forall i, j | 0 <= i < j < |ys| ensures ys[i].id != ys[j].id {
      var a, b := ys[i], ys[j];
      assert ys == ys[..i] + [a] + ys[i + 1..j] + [b] + ys[j + 1..];
      assert multiset{a, b} <= multiset(ys);
      assert a in multiset(xs) && b in multiset(xs);
      var k :| 0 <= k < |xs| && xs[k] == a;
      var l :| 0 <= l < |xs| && xs[l] == b;
      if k == l {
        assert a == b && multiset(xs)[a] >= 2;
        OnceOnly(xs, k);
      }
    }
  }

  lemma OnceOnly(xs: seq<Item>, k: nat)
    requires k < |xs| && DistinctIds(xs)
    ensures multiset(xs)[xs[k]] == 1
  {
    NotElsewhere(xs, k);
    hide DistinctIds;
    var x, front, back := xs[k], xs[..k], xs[k + 1..];
    assert xs == front + [x] + back;
    assert multiset(xs) == multiset(front) + multiset{x} + multiset(back);
    assert multiset(front)[x] == 0 && multiset(back)[x] == 0;
  }

  lemma NotElsewhere(xs: seq<Item>, k: nat)
    requires k < |xs| && DistinctIds(xs)
    ensures xs[k] !in xs[..k] && xs[k] !in xs[k + 1..]
  {
    var front, back := xs[..k], xs[k + 1..];
    assert forall i :: 0 <= i < |front| ==> front[i].id != xs[k].id;
    assert forall i :: 0 <= i < |back| ==> back[i].id != xs[k].id;
  }

  // What Predict keeps after a cut is at least as good as anything it drops.
  lemma PredictCut(xs: seq<Item>, k: nat, kept: Item, dropped: Item)
    requires kept in Head(Sorting.ByKey(xs, ItemScore), k) && dropped in xs &&
      dropped !in Head(Sorting.ByKey(xs, ItemScore), k)
    ensures kept.score >= dropped.score && |Head(Sorting.ByKey(xs, ItemScore), k)| == k
  {
    Sorting.ByKeySorts(xs, ItemScore);
    var sorted := Sorting.ByKey(xs, ItemScore);
    var j :| 0 <= j < |sorted| && sorted[j] == dropped;
    assert |sorted| > k;
    assert forall i :: 0 <= i < k ==> sorted[..k][i] != dropped;
    var i :| 0 <= i < k && sorted[..k][i] == kept;
    assert sorted[i] == kept && i < j;
  }

  // ----- hydrate_and_rerank -----

  predicate DistinctBlocks(bs: seq<TextBlock>) { forall i, j :: 0 <= i < j < |bs| ==> bs[i].id != bs[j].id }

  function WithText(b: TextBlock, hydrated: map<string, string>): TextBlock {
    if b.id in hydrated then b.(text := Some(hydrated[b.id])) else b
  }

  function Hydrated(bs: seq<TextBlock>, hydrated: map<string, string>): (r: seq<TextBlock>)
    ensures |r| == |bs| && forall i :: 0 <= i < |bs| ==>
      && r[i] == bs[i].(text := r[i].text)
      && r[i].text == if bs[i].id in hydrated then Some(hydrated[bs[i].id]) else bs[i].text
  {
    seq(|bs|, i requires 0 <= i < |bs| => WithText(bs[i], hydrated))
  }

  // The ranking the user gets: reranked, cut to top_k, by decreasing score.
  function Ranking(reranker: Reranker, bs: seq<TextBlock>, topK: nat): seq<Item> {
    Sorting.ByKey(Head(Rerank(reranker, bs), topK), ItemScore)
  }

  // The ranking holds exactly what comes first in the reranked list, by falling score.
  lemma RankingExact(reranker: Reranker, bs: seq<TextBlock>, topK: nat)
    ensures var r, ranking := Rerank(reranker, bs), Ranking(reranker, bs, topK);
      && multiset(ranking) == multiset(if |r| <= topK then r else r[..topK])
      && Falling(ranking)
  {
    hide Rerank, Sorting.ByKey;
    Sorting.ByKeySorts(Head(Rerank(reranker, bs), topK), ItemScore);
    assert |multiset(Ranking(reranker, bs, topK))| == |multiset(Head(Rerank(reranker, bs), topK))|;
  }

  function Rescored(b: TextBlock, item: Item): TextBlock {
    b.(scores := b.scores + [item.score], scoreType := item.scoreType)
  }

  // text_blocks_by_id
  ghost predicate Indexed(byId: map<string, TextBlock>, bs: seq<TextBlock>) {
    && (forall i :: 0 <= i < |bs| ==> bs[i].id in byId && byId[bs[i].id] == bs[i])
    && (forall id :: id in byId ==> byId[id] in bs && byId[id].id == id)
  }

  predicate Known(bs: seq<TextBlock>, id: string) { exists b :: b in bs && b.id == id }

  // The blocks at the ranking's positions: block k is the one item k names, rescored by it.
  ghost predicate BestOf(best: seq<TextBlock>, ranking: seq<Item>, bs: seq<TextBlock>) {
    && |best| == |ranking|
    && forall k :: 0 <= k < |best| ==> PlacedAt(best[k], ranking[k], k, bs)
  }

  ghost predicate PlacedAt(b: TextBlock, item: Item, k: nat, bs: seq<TextBlock>) {
    exists original :: original in bs && original.id == item.id && IsRescored(b, original, item) && b.order == k
  }

  // The same block with one more score, that of the item, and the item's type of score.
  ghost predicate IsRescored(b: TextBlock, original: TextBlock, item: Item) {
    && b.id == original.id && b.rid == original.rid && b.field == original.field && b.text == original.text
    && b.scores == original.scores + [item.score] && b.scoreType == item.scoreType
  }

  method IndexById(bs: seq<TextBlock>) returns (byId: map<string, TextBlock>)
    requires DistinctBlocks(bs)
    ensures Indexed(byId, bs)
  {
    byId := map[];
    for i := 0 to |bs|
      invariant forall k :: 0 <= k < i ==> bs[k].id in byId && byId[bs[k].id] == bs[k]
      invariant forall id :: id in byId ==> byId[id] in bs && byId[id].id == id
    {
      byId := byId[bs[i].id := bs[i]];
    }
  }

  ghost predicate RescoredBy(updated: map<string, TextBlock>, byId: map<string, TextBlock>, items: seq<Item>) {
    && updated.Keys == byId.Keys
    && (forall k :: 0 <= k < |items| ==>
      items[k].id in byId &&
      updated[items[k].id] == Rescored(byId[items[k].id], items[k]))
    && (forall id :: id in byId && (forall k :: 0 <= k < |items| ==> items[k].id != id) ==> updated[id] == byId[id])
  }

  lemma RescoredSnoc(updated: map<string, TextBlock>, byId: map<string, TextBlock>, items: seq<Item>, item: Item)
    requires RescoredBy(updated, byId, items) && item.id in byId && DistinctIds(items + [item])
    ensures item.id in updated
    ensures RescoredBy(updated[item.id := Rescored(updated[item.id], item)], byId, items + [item])
  {
    hide Rescored;
    var all := items + [item];
    assert all[|items|] == item;
    assert forall k :: 0 <= k < |items| ==> all[k] == items[k];
    assert forall k :: 0 <= k < |items| ==> items[k].id != item.id;
    assert updated[item.id] == byId[item.id];
  }

  lemma TakeOneMore(items: seq<Item>, i: nat)
    requires i < |items| && DistinctIds(items)
    ensures items[..i + 1] == items[..i] + [items[i]] && DistinctIds(items[..i] + [items[i]])
  {
  }

  // Append the reranker's scores; an id nobody sent is a KeyError.
  method Rescore(byId: map<string, TextBlock>, items: seq<Item>) returns (r: Result<map<string, TextBlock>, Error>)
    requires DistinctIds(items)
    ensures r.Err? <==> exists k :: 0 <= k < |items| && items[k].id !in byId
    ensures r.Ok? ==> RescoredBy(r.value, byId, items)
  {
    var updated := byId;
    assert items[..0] == [];
    assert updated.Keys == byId.Keys;
    hide RescoredBy, Rescored, DistinctIds;
    for i := 0 to |items|
      invariant updated.Keys == byId.Keys
      invariant forall k :: 0 <= k < i ==> items[k].id in byId
      invariant RescoredBy(updated, byId, items[..i])
    {
      var item := items[i];
      if item.id !in updated {
        return Err(KeyError);
      }
      TakeOneMore(items, i);
      RescoredSnoc(updated, byId, items[..i], item);
      updated := updated[item.id := Rescored(updated[item.id], item)];
    }
    assert items[..|items|] == items;
    return Ok(updated);
  }

  // Position the matches; the ids in order are the best matches.
  method Place(updated: map<string, TextBlock>, matches: seq<Item>)
    returns (best: seq<TextBlock>, bestMatches: seq<string>)
    requires forall x :: x in matches ==> x.id in updated
    ensures |best| == |bestMatches| == |matches|
    ensures forall k :: 0 <= k < |matches| ==> matches[k].id in updated
    ensures forall k :: 0 <= k < |matches| ==> best[k] == updated[matches[k].id].(order := k)
    ensures forall k :: 0 <= k < |matches| ==> bestMatches[k] == matches[k].id
  {
    best, bestMatches := [], [];
    for order := 0 to |matches|
      invariant |best| == order && |bestMatches| == order
      invariant forall k :: 0 <= k < order ==>
        best[k] == updated[matches[k].id].(order := k) &&
        bestMatches[k] == matches[k].id
    {
      assert matches[order] in matches;
      best := best + [updated[matches[order].id].(order := order)];
      bestMatches := bestMatches + [matches[order].id];
    }
  }

  lemma IndexedKnown(byId: map<string, TextBlock>, bs: seq<TextBlock>, id: string)
    requires Indexed(byId, bs)
    ensures id in byId <==> Known(bs, id)
  {
    if b :| b in bs && b.id == id {
      var i :| 0 <= i < |bs| && bs[i] == b;
    }
  }

  // The rescored block of a match is the block its id names, rescored by that match.
  lemma MatchRescored(updated: map<string, TextBlock>, byId: map<string, TextBlock>, bs: seq<TextBlock>,
      items: seq<Item>, x: Item, k: nat)
    requires Indexed(byId, bs) && RescoredBy(updated, byId, items) && x in items
    ensures x.id in updated && updated[x.id].id == x.id && PlacedAt(updated[x.id].(order := k), x, k, bs)
  {
    var i :| 0 <= i < |items| && items[i] == x;
    var original := byId[x.id];
    assert updated[x.id] == Rescored(original, x);
    assert original in bs && original.id == x.id;
  }

  method HydrateAndRerank(given: seq<TextBlock>, hydrated: map<string, string>, reranker: Reranker, topK: nat)
    returns (r: Result<(seq<TextBlock>, seq<string>), Error>)
    requires DistinctBlocks(given) && DistinctIds(Rerank(reranker, Hydrated(given, hydrated)))
    ensures r.Err? <==> exists x ::
      x in Head(Rerank(reranker, Hydrated(given, hydrated)), topK) &&
      !Known(Hydrated(given, hydrated), x.id)
    ensures r.Ok? ==> BestOf(r.value.0, Ranking(reranker, Hydrated(given, hydrated), topK), Hydrated(given, hydrated))
    ensures r.Ok? ==> |r.value.1| == |r.value.0| && forall k :: 0 <= k < |r.value.1| ==> r.value.1[k] == r.value.0[k].id
  {
    hide Rerank, Sorting.ByKey, RescoredBy, Indexed, PlacedAt, Known;
    var bs := Hydrated(given, hydrated);
    var byId := IndexById(bs);
    var reranked := Head(Rerank(reranker, bs), topK);
    forall id ensures id in byId <==> Known(bs, id) {
      IndexedKnown(byId, bs, id);
    }
    var updated := Rescore(byId, reranked);
    if updated.Err? { return Err(updated.error); }
    var matches := Sorting.ByKey(reranked, ItemScore);
    Sorting.ByKeySorts(reranked, ItemScore);
    forall k | 0 <= k < |matches|
      ensures matches[k].id in updated.value && updated.value[matches[k].id].id == matches[k].id
      ensures PlacedAt(updated.value[matches[k].id].(order := k), matches[k], k, bs)
    {
      assert matches[k] in matches;
      MatchRescored(updated.value, byId, bs, reranked, matches[k], k);
    }
    var best, bestMatches := Place(updated.value, matches);
    return Ok((best, bestMatches));
  }

  // What the user gets: scores never increase, `order` is the position, ids are distinct, and
  // there are as many blocks as top_k and the reranker allow.
  lemma BestExact(reranker: Reranker, bs: seq<TextBlock>, topK: nat, best: seq<TextBlock>)
    requires DistinctIds(Rerank(reranker, bs)) && BestOf(best, Ranking(reranker, bs, topK), bs)
    ensures |best| == if |Rerank(reranker, bs)| <= topK then |Rerank(reranker, bs)| else topK
    ensures forall i, j :: 0 <= i < j < |best| ==> CurrentScore(best[i]) >= CurrentScore(best[j])
    ensures forall k :: 0 <= k < |best| ==> best[k].order == k
    ensures DistinctBlocks(best)
  {
    var cut := Head(Rerank(reranker, bs), topK);
    var ranking := Ranking(reranker, bs, topK);
    Sorting.ByKeySorts(cut, ItemScore);
    PermutedDistinct(cut, ranking);
    assert |multiset(ranking)| == |multiset(cut)|;
    forall k | 0 <= k < |best|
      ensures CurrentScore(best[k]) == ranking[k].score && best[k].order == k && best[k].id == ranking[k].id
    {
      assert PlacedAt(best[k], ranking[k], k, bs);
    }
  }

  // The items a reranker has to put in order: the given ones, or the ones it was answered.
  function Offered(reranker: Reranker, bs: seq<TextBlock>): seq<Item> {
    match reranker
    case Noop => ItemsOf(bs)
    case Predict(window, answer) =>
      var cut := Head(bs, window);
      if cut == [] then []
      else match answer(ContentsOf(cut)) case None => ItemsOf(cut) case Some(scores) => Answered(scores)
  }

  // Blocks with equal scores stay in the order they were offered in, the best-ranked first being
  // the ones kept: retrieval order without Predict or when it fails, else the order of its answer.
  lemma TiesKeepOfferedOrder(reranker: Reranker, bs: seq<TextBlock>, topK: nat, v: real)
    ensures Sorting.Filter(Ranking(reranker, bs, topK), Sorting.Tied(ItemScore, v))
         <= Sorting.Filter(Offered(reranker, bs), Sorting.Tied(ItemScore, v))
  {
    hide Sorting.Filter, Sorting.ByKey, Sorting.Tied;
    var reranked := Rerank(reranker, bs);
    Sorting.TiesKeepOrder(Head(reranked, topK), ItemScore, v);
    Sorting.TiesKeepOrder(Offered(reranker, bs), ItemScore, v);
    if |reranked| > topK {
      Sorting.FilterPrefix(reranked, topK, Sorting.Tied(ItemScore, v));
    }
    if reranker.Predict? && Head(bs, reranker.window) == [] {
      NothingOffered(reranker, bs);
    }
  }

  lemma NothingOffered(reranker: Reranker, bs: seq<TextBlock>)
    requires reranker.Predict? && Head(bs, reranker.window) == []
    ensures Rerank(reranker, bs) == Offered(reranker, bs)
  {
  }

  // ----- compose_find_resources -----

  type Fields = map<string, map<string, TextBlock>>

  // One resource of the result: its fields, each with its paragraphs by id.
  type FindResources = map<string, Fields>

  predicate Holds(r: FindResources, rid: string, field: string, id: string) {
    rid in r && field in r[rid] && id in r[rid][field]
  }

  function AddBlock(r: FindResources, b: TextBlock): FindResources {
    if b.rid !in r then r
    else
      var fields := r[b.rid];
      r[b.rid := fields[b.field := (if b.field in fields then fields[b.field] else map[])[b.id := b]]]
  }

  // Every kept block whose resource was hydrated appears exactly once, in its own resource and
  // field; nothing else appears.
  ghost predicate Composed(r: FindResources, resources: seq<string>, blocks: seq<TextBlock>) {
    && (forall rid :: rid in r <==> rid in resources)
    && (forall b :: b in blocks && b.rid in r ==> Holds(r, b.rid, b.field, b.id) && r[b.rid][b.field][b.id] == b)
    && (forall rid, field, id :: Holds(r, rid, field, id) ==>
          var b := r[rid][field][id]; b in blocks && b.rid == rid && b.field == field && b.id == id)
  }

  lemma AddBlockComposed(r: FindResources, resources: seq<string>, blocks: seq<TextBlock>, b: TextBlock)
    requires Composed(r, resources, blocks) && forall c :: c in blocks ==> c.id != b.id
    ensures Composed(AddBlock(r, b), resources, blocks + [b])
  {
    var r' := AddBlock(r, b);
    forall rid, field, id | Holds(r', rid, field, id)
      ensures var c := r'[rid][field][id]; c in blocks + [b] && c.rid == rid && c.field == field && c.id == id
    {
      if rid == b.rid && field == b.field && id == b.id {
        assert r'[rid][field][id] == b;
      } else {
        assert Holds(r, rid, field, id) && r[rid][field][id] == r'[rid][field][id];
      }
    }
    forall c | c in blocks + [b] && c.rid in r'
      ensures Holds(r', c.rid, c.field, c.id) && r'[c.rid][c.field][c.id] == c
    {
      if c in blocks {
        assert Holds(r, c.rid, c.field, c.id) && c.id != b.id;
      }
    }
  }

  method ComposeFindResources(blocks: seq<TextBlock>, resources: seq<string>) returns (r: FindResources)
    requires DistinctBlocks(blocks)
    ensures Composed(r, resources, blocks)
  {
    r := map[];
    for i := 0 to |resources|
      invariant forall rid :: rid in r <==> rid in resources[..i]
      invariant forall rid :: rid in r ==> r[rid] == map[]
    {
      if resources[i] !in r {
        r := r[resources[i] := map[]];
      }
    }
    assert resources[..|resources|] == resources;
    for i := 0 to |blocks|
      invariant Composed(r, resources, blocks[..i])
    {
      var b := blocks[i];
      AddBlockComposed(r, resources, blocks[..i], b);
      assert blocks[..i + 1] == blocks[..i] + [b];
      if b.rid !in r {
        continue;
      }
      var fields := r[b.rid];
      var paragraphs := if b.field in fields then fields[b.field] else map[];
      r := r[b.rid := fields[b.field := paragraphs[b.id := b]]];
    }
    assert blocks[..|blocks|] == blocks;
  }

  // ----- windows -----

  // What the request says: the name alone, or an object with an optional window.
  datatype PredictRequest = ByName | WithWindow(window: Option<nat>)

  function Min(a: nat, b: nat): nat { if a <= b then a else b }
  function Max(a: nat, b: nat): nat { if a >= b then a else b }

  // _parse_reranker: twice top_k, or the user's window but no less than top_k; never over 200
  function PredictWindow(request: PredictRequest, topK: nat): nat {
    match request
    case ByName => Min(topK * 2, 200)
    case WithWindow(window) => Min(Max(if window.Some? then window.value else 0, topK), 200)
  }

  // The number of results asked from retrieval.
  function RetrievalTopK(request: PredictRequest, topK: nat): nat { Max(topK, PredictWindow(request, topK)) }

  // The window leaves room for top_k results exactly when top_k is at most 200, and retrieval is
  // always asked for enough results to fill the window.
  lemma WindowExact(request: PredictRequest, topK: nat)
    ensures PredictWindow(request, topK) >= topK <==> topK <= 200
    ensures RetrievalTopK(request, topK) >= PredictWindow(request, topK) && PredictWindow(request, topK) <= 200
    ensures RetrievalTopK(request, topK) in {topK, PredictWindow(request, topK)} && RetrievalTopK(request, topK) >= topK
    ensures request.ByName? && topK <= 100 ==> PredictWindow(request, topK) == 2 * topK
    ensures request.WithWindow? && topK <= 200 && (request.window.None? || request.window.value <= topK) ==>
      PredictWindow(request, topK) == topK
    ensures request.WithWindow? && request.window.Some? && topK <= request.window.value <= 200 ==>
      PredictWindow(request, topK) == request.window.value
    ensures topK > 200 || (request.ByName? && topK > 100) ==> PredictWindow(request, topK) == 200
    ensures request.WithWindow? && request.window.Some? && request.window.value > 200 ==>
      PredictWindow(request, topK) == 200
  {
  }
}
