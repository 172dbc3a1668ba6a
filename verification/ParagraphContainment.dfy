// Removing paragraphs contained in others: get_paragraph_info_from_relations of
// ask/search/graph_strategy.py.
module ParagraphContainment {
  import opened GraphModel
  import opened Occurrences
  import Sorting

  // One entry of a relations dictionary, in insertion order.
  datatype Entry = Entry(ent: string, rels: seq<Relation>)

  // RelationsParagraphMatch
  datatype Match = Match(pid: Paragraph, score: real, relations: seq<Entry>)

  // The relations held by a dictionary, each with the entity it is stored under.
  function Bag(entries: seq<Entry>): multiset<(string, Relation)> {
    if entries == [] then multiset{}
    else Bag(entries[..|entries| - 1]) + Pairs(entries[|entries| - 1].ent, entries[|entries| - 1].rels)
  }

  function Pairs(ent: string, rels: seq<Relation>): multiset<(string, Relation)> {
    if rels == [] then multiset{}
    else Pairs(ent, rels[..|rels| - 1]) + multiset{(ent, rels[|rels| - 1])}
  }

  function BagOf(ms: seq<Match>): multiset<(string, Relation)> {
    if ms == [] then multiset{} else BagOf(ms[..|ms| - 1]) + Bag(ms[|ms| - 1].relations)
  }

  // entities[ent].related_to.extend(rels), creating the entry when it is missing
  function Extend(entries: seq<Entry>, ent: string, rels: seq<Relation>): seq<Entry> {
    if entries == [] then [Entry(ent, rels)]
    else
      var last, front := entries[|entries| - 1], entries[..|entries| - 1];
      if last.ent == ent then front + [Entry(ent, last.rels + rels)]
      else Extend(front, ent, rels) + [last]
  }

  lemma {:induction false} PairsAppend(ent: string, a: seq<Relation>, b: seq<Relation>)
    ensures Pairs(ent, a + b) == Pairs(ent, a) + Pairs(ent, b)
  {
    if b == [] {
      assert a + b == a;
    } else {
      hide Pairs;
      var front, last := b[..|b| - 1], b[|b| - 1];
      assert front + [last] == b;
      assert a + front + [last] == a + b;
      PairsAppend(ent, a, front);
      PairsSnoc(ent, a + front, last);
      PairsSnoc(ent, front, last);
    }
  }

  lemma PairsSnoc(ent: string, rels: seq<Relation>, last: Relation)
    ensures Pairs(ent, rels + [last]) == Pairs(ent, rels) + multiset{(ent, last)}
  {
    assert (rels + [last])[..|rels|] == rels;
  }

  lemma {:induction false} ExtendBag(entries: seq<Entry>, ent: string, rels: seq<Relation>)
    ensures Bag(Extend(entries, ent, rels)) == Bag(entries) + Pairs(ent, rels)
  {
    var r := Extend(entries, ent, rels);
    if entries == [] {
      assert r[..0] == [];
    } else {
      var last, front := entries[|entries| - 1], entries[..|entries| - 1];
      if last.ent == ent {
        PairsAppend(ent, last.rels, rels);
        assert r[..|r| - 1] == front;
      } else {
        ExtendBag(front, ent, rels);
        assert r[..|r| - 1] == Extend(front, ent, rels);
      }
    }
  }

  function Max(x: real, y: real): real { if x >= y then x else y }

  function MergeEntries(into: seq<Entry>, from: seq<Entry>): seq<Entry> {
    if from == [] then into
    else
      var last := from[|from| - 1];
      Extend(MergeEntries(into, from[..|from| - 1]), last.ent, last.rels)
  }

  // What merging a contained match does to its container.
  function Absorb(container: Match, m: Match): Match {
    Match(container.pid, Max(container.score, m.score), MergeEntries(container.relations, m.relations))
  }

  lemma {:induction false} MergeEntriesBag(into: seq<Entry>, from: seq<Entry>)
    ensures Bag(MergeEntries(into, from)) == Bag(into) + Bag(from)
  {
    if from != [] {
      MergeEntriesBag(into, from[..|from| - 1]);
      ExtendBag(MergeEntries(into, from[..|from| - 1]), from[|from| - 1].ent, from[|from| - 1].rels);
    }
  }

  // ----- the one-pass containment removal -----

  predicate Contains(outer: Paragraph, inner: Paragraph) {
    outer.field == inner.field && outer.start <= inner.start && inner.end <= outer.end
  }

  // start ascending, then end descending
  predicate Before(x: Match, y: Match) {
    x.pid.start < y.pid.start || (x.pid.start == y.pid.start && x.pid.end >= y.pid.end)
  }

  // A kept match and the matches merged into it.
  datatype Group = Group(head: Match, rest: seq<Match>)

  function Members(g: Group): seq<Match> { [g.head] + g.rest }

  // A match joins the last group when it ends within its head, and opens a new group otherwise.
  function Place(gs: seq<Group>, m: Match): seq<Group> {
    if gs != [] && m.pid.end <= gs[|gs| - 1].head.pid.end then
      gs[..|gs| - 1] + [Group(gs[|gs| - 1].head, gs[|gs| - 1].rest + [m])]
    else gs + [Group(m, [])]
  }

  function Groups(ms: seq<Match>): seq<Group> {
    if ms == [] then [] else Place(Groups(ms[..|ms| - 1]), ms[|ms| - 1])
  }

  // A group folded into its head.
  function Folded(head: Match, rest: seq<Match>): Match {
    if rest == [] then head else Absorb(Folded(head, rest[..|rest| - 1]), rest[|rest| - 1])
  }

  function Concat(gs: seq<Group>): seq<Match> {
    if gs == [] then [] else Concat(gs[..|gs| - 1]) + Members(gs[|gs| - 1])
  }

  // The groups are the input, cut; nothing is lost or reordered.
  lemma {:induction false} GroupsConcat(ms: seq<Match>)
    ensures Concat(Groups(ms)) == ms
  {
    if ms != [] {
      var front, m := ms[..|ms| - 1], ms[|ms| - 1];
      GroupsConcat(front);
      assert Groups(ms) == Place(Groups(front), m) && front + [m] == ms;
      hide Place, Concat, Groups;
      PlaceConcat(Groups(front), m);
    }
  }

  lemma PlaceConcat(gs: seq<Group>, m: Match)
    ensures Concat(Place(gs, m)) == Concat(gs) + [m]
  {
    var r := Place(gs, m);
    assert r[..|r| - 1] == (if |r| == |gs| then gs[..|gs| - 1] else gs);
    assert gs == [] ==> r[..0] == [];
  }

  // Each member of a group lies inside its head.
  ghost predicate Nested(g: Group) {
    forall m :: m in g.rest ==> Contains(g.head.pid, m.pid)
  }

  ghost predicate SameField(ms: seq<Match>, field: string) {
    forall m :: m in ms ==> m.pid.field == field
  }

  ghost predicate Rising(gs: seq<Group>) {
    forall i, j :: 0 <= i < j < |gs| ==>
      gs[i].head.pid.start < gs[j].head.pid.start &&
      gs[i].head.pid.end < gs[j].head.pid.end
  }

  ghost predicate AllNested(gs: seq<Group>) {
    forall k :: 0 <= k < |gs| ==> Nested(gs[k])
  }

  lemma PlaceNested(gs: seq<Group>, m: Match)
    requires Rising(gs) && AllNested(gs)
    requires gs != [] ==> Before(gs[|gs| - 1].head, m) && m.pid.field == gs[|gs| - 1].head.pid.field
    ensures Rising(Place(gs, m)) && AllNested(Place(gs, m))
  {
    var r := Place(gs, m);
    forall k | 0 <= k < |r| ensures Nested(r[k]) {
      if k < |gs| {
        assert Nested(gs[k]);
      }
    }
    forall i, j | 0 <= i < j < |r|
      ensures r[i].head.pid.start < r[j].head.pid.start && r[i].head.pid.end < r[j].head.pid.end
    {
      if j == |gs| && i < |gs| - 1 {
        assert gs[i].head.pid.end < gs[|gs| - 1].head.pid.end;
      }
    }
  }

  // One pass over matches of one field, sorted, leaves heads with strictly increasing starts and
  // ends, and every other match inside the head it joined.
  lemma {:induction false} GroupsNested(ms: seq<Match>, field: string)
    requires Sorting.Sorted(ms, Before) && SameField(ms, field)
    ensures Rising(Groups(ms)) && AllNested(Groups(ms))
    ensures Groups(ms) != [] ==> Groups(ms)[|Groups(ms)| - 1].head in ms
  {
    if ms != [] {
      var front, m := ms[..|ms| - 1], ms[|ms| - 1];
      GroupsNested(front, field);
      var gs := Groups(front);
      assert Groups(ms) == Place(gs, m);
      hide Groups, Rising, AllNested;
      if gs != [] {
        HeadBefore(ms, field, gs[|gs| - 1].head);
      }
      PlaceNested(gs, m);
    }
  }

  lemma HeadBefore(ms: seq<Match>, field: string, head: Match)
    requires ms != [] && Sorting.Sorted(ms, Before) && SameField(ms, field) && head in ms[..|ms| - 1]
    ensures Before(head, ms[|ms| - 1]) && ms[|ms| - 1].pid.field == head.pid.field
  {
    var k :| 0 <= k < |ms| - 1 && ms[k] == head;
    assert ms[k] in ms && ms[|ms| - 1] in ms;
    assert Before(ms[k], ms[|ms| - 1]);
  }

  // Folding keeps the head's paragraph and all the relations of a group.
  lemma {:induction false} FoldedBag(head: Match, rest: seq<Match>)
    ensures Folded(head, rest).pid == head.pid
    ensures Bag(Folded(head, rest).relations) == Bag(head.relations) + BagOf(rest)
  {
    if rest != [] {
      var front, m := rest[..|rest| - 1], rest[|rest| - 1];
      FoldedBag(head, front);
      MergeEntriesBag(Folded(head, front).relations, m.relations);
    }
  }

  // Its score is the largest of the group.
  lemma {:induction false} FoldedScore(head: Match, rest: seq<Match>)
    ensures forall m :: m in [head] + rest ==> m.score <= Folded(head, rest).score
    ensures exists m :: m in [head] + rest && m.score == Folded(head, rest).score
  {
    if rest == [] {
      assert head in [head];
    } else {
      var front, last := rest[..|rest| - 1], rest[|rest| - 1];
      FoldedScore(head, front);
      assert [head] + rest == ([head] + front) + [last];
      var top :| top in [head] + front && top.score == Folded(head, front).score;
      assert top in [head] + rest && last in [head] + rest;
    }
  }

  // ----- the methods -----

  // container.relations.entities[ent].related_to.extend(...) for every entity of the match
  method AbsorbInto(container: Match, m: Match) returns (r: Match)
    ensures r == Absorb(container, m)
  {
    var score := Max(container.score, m.score);
    var entries := container.relations;
    for i := 0 to |m.relations|
      invariant entries == MergeEntries(container.relations, m.relations[..i])
    {
      assert m.relations[..i + 1][..i] == m.relations[..i];
      entries := Extend(entries, m.relations[i].ent, m.relations[i].rels);
    }
    assert m.relations[..|m.relations|] == m.relations;
    r := Match(container.pid, score, entries);
  }

  method OnePass(paragraphs: seq<Match>) returns (kept: seq<Match>)
    ensures kept == FoldAll(Groups(paragraphs))
  {
    kept := [];
    var currentMaxEnd: int := -1;
    assert Groups(paragraphs[..0]) == [] && FoldAll([]) == [];
    hide Groups, Place, FoldAll, LastEnd;
    for i := 0 to |paragraphs|
      invariant kept == FoldAll(Groups(paragraphs[..i]))
      invariant currentMaxEnd == LastEnd(Groups(paragraphs[..i]))
    {
      var m := paragraphs[i];
      GroupsStep(paragraphs, i);
      FoldPlace(Groups(paragraphs[..i]), m);
      if m.pid.end <= currentMaxEnd {
        var merged := AbsorbInto(kept[|kept| - 1], m);
        kept := kept[..|kept| - 1] + [merged];
      } else {
        kept := kept + [m];
        currentMaxEnd := m.pid.end;
      }
    }
    assert paragraphs[..|paragraphs|] == paragraphs;
  }

  lemma GroupsStep(ms: seq<Match>, i: nat)
    requires i < |ms|
    ensures Groups(ms[..i + 1]) == Place(Groups(ms[..i]), ms[i])
  {
    assert ms[..i + 1][..i] == ms[..i];
  }

  function FoldAll(gs: seq<Group>): (r: seq<Match>)
    ensures |r| == |gs| && forall k :: 0 <= k < |gs| ==> r[k] == Folded(gs[k].head, gs[k].rest)
  {
    seq(|gs|, k requires 0 <= k < |gs| => Folded(gs[k].head, gs[k].rest))
  }

  function LastEnd(gs: seq<Group>): int {
    if gs == [] then -1 else gs[|gs| - 1].head.pid.end
  }

  lemma FoldPlace(gs: seq<Group>, m: Match)
    ensures m.pid.end <= LastEnd(gs) ==>
      && gs != []
      && FoldAll(Place(gs, m)) == FoldAll(gs)[..|gs| - 1] + [Absorb(FoldAll(gs)[|gs| - 1], m)]
      && LastEnd(Place(gs, m)) == LastEnd(gs)
    ensures m.pid.end > LastEnd(gs) ==> FoldAll(Place(gs, m)) == FoldAll(gs) + [m] && LastEnd(Place(gs, m)) == m.pid.end
  {
    if m.pid.end <= LastEnd(gs) {
      var last := gs[|gs| - 1];
      assert (last.rest + [m])[..|last.rest|] == last.rest;
    }
  }

  // ----- the whole function -----

  // The matches of one entity: its relations that name a paragraph, zipped with their scores.
  function EntityMatches(ent: string, rels: seq<Relation>, scores: seq<real>): seq<Match> {
    if rels == [] || scores == [] then []
    else
      (match rels[0].paragraph
       case Some(pid) => [Match(pid, scores[0], [Entry(ent, [rels[0]])])]
       case None => [])
      + EntityMatches(ent, rels[1..], scores[1..])
  }

  // All matches, entity by entity; entities without scores are skipped.
  function Inputs(relations: seq<Entry>, scores: map<string, seq<real>>): seq<Match> {
    if relations == [] then []
    else
      var last := relations[|relations| - 1];
      Inputs(relations[..|relations| - 1], scores)
        + if last.ent in scores then EntityMatches(last.ent, last.rels, scores[last.ent]) else []
  }

  // A match of one relation holds it once, under its entity.
  lemma BagOne(pid: Paragraph, score: real, ent: string, rel: Relation)
    ensures BagOf([]) == multiset{} && BagOf([Match(pid, score, [Entry(ent, [rel])])]) == multiset{(ent, rel)}
  {
    var entry := Entry(ent, [rel]);
    assert Pairs(ent, [rel]) == multiset{(ent, rel)} by { assert [rel][..0] == []; }
    assert Bag([entry]) == Pairs(ent, [rel]) by { assert [entry][..0] == []; }
    assert [Match(pid, score, [entry])][..0] == [];
  }

  // ----- which matches there are -----

  function HasParagraph(r: Relation): bool { r.paragraph.Some? }

  // The matches stand for the relations at these positions, in order, each with its own score.
  ghost predicate Paired(ms: seq<Match>, at: seq<nat>, ent: string, rels: seq<Relation>, scores: seq<real>) {
    && |ms| == |at| && |rels| == |scores| && Below(at, |rels|)
    && forall j :: 0 <= j < |at| ==>
      && rels[at[j]].paragraph.Some? && rels[at[j]].paragraph.value == ms[j].pid && ms[j].score == scores[at[j]]
      && ms[j].relations == [Entry(ent, [rels[at[j]]])]
  }

  function Shorter(m: nat, n: nat): nat { if m <= n then m else n }

  lemma {:induction false} MatchesCut(ent: string, rels: seq<Relation>, scores: seq<real>)
    ensures var n := Shorter(|rels|, |scores|);
      EntityMatches(ent, rels, scores) == EntityMatches(ent, rels[..n], scores[..n])
  {
    var n := Shorter(|rels|, |scores|);
    if n > 0 {
      MatchesCut(ent, rels[1..], scores[1..]);
      assert rels[..n][1..] == rels[1..][..n - 1] && scores[..n][1..] == scores[1..][..n - 1];
    }
  }

  lemma {:induction false} MatchesSnoc(ent: string, rels: seq<Relation>, scores: seq<real>, r: Relation, s: real)
    requires |rels| == |scores|
    ensures EntityMatches(ent, rels + [r], scores + [s]) == EntityMatches(ent, rels, scores) +
      if r.paragraph.Some? then [Match(r.paragraph.value, s, [Entry(ent, [r])])] else []
  {
    if rels != [] {
      MatchesSnoc(ent, rels[1..], scores[1..], r, s);
      assert (rels + [r])[1..] == rels[1..] + [r] && (scores + [s])[1..] == scores[1..] + [s];
    } else {
      assert (rels + [r])[1..] == [] && (scores + [s])[1..] == [];
    }
  }

  lemma {:induction false} MatchesPaired(ent: string, rels: seq<Relation>, scores: seq<real>)
    requires |rels| == |scores|
    ensures Paired(EntityMatches(ent, rels, scores), Where(rels, HasParagraph), ent, rels, scores)
  {
    if rels != [] {
      var n := |rels| - 1;
      MatchesPaired(ent, rels[..n], scores[..n]);
      MatchesSnoc(ent, rels[..n], scores[..n], rels[n], scores[n]);
      WhereSnoc(rels[..n], rels[n], HasParagraph);
      hide EntityMatches, Where;
      assert rels == rels[..n] + [rels[n]] && scores == scores[..n] + [scores[n]];
      PairedSnoc(EntityMatches(ent, rels[..n], scores[..n]), Where(rels[..n], HasParagraph), ent, rels[..n],
        scores[..n], rels[n], scores[n]);
    }
  }

  lemma PairedSnoc(ms: seq<Match>, at: seq<nat>, ent: string, rels: seq<Relation>, scores: seq<real>, r: Relation,
      s: real)
    requires Paired(ms, at, ent, rels, scores)
    ensures Paired(ms, at, ent, rels + [r], scores + [s])
    ensures r.paragraph.Some? ==>
      Paired(ms + [Match(r.paragraph.value, s, [Entry(ent, [r])])], at + [|rels|], ent, rels + [r], scores + [s])
  {
  }

  // One match for each relation of the entity that has a score and a paragraph, in order.
  lemma EntityMatchesExact(ent: string, rels: seq<Relation>, scores: seq<real>)
    ensures var n := Shorter(|rels|, |scores|);
      Paired(EntityMatches(ent, rels, scores), Where(rels[..n], HasParagraph), ent, rels[..n], scores[..n])
  {
    MatchesCut(ent, rels, scores);
    MatchesPaired(ent, rels[..Shorter(|rels|, |scores|)], scores[..Shorter(|rels|, |scores|)]);
  }

  // The matches of the entities that have scores, one entity after the other.
  lemma InputsSnoc(relations: seq<Entry>, last: Entry, scores: map<string, seq<real>>)
    ensures Inputs([], scores) == []
    ensures Inputs(relations + [last], scores) == Inputs(relations, scores) +
      if last.ent in scores then EntityMatches(last.ent, last.rels, scores[last.ent]) else []
  {
    assert (relations + [last])[..|relations|] == relations;
  }

  function OfField(ms: seq<Match>, field: string): seq<Match> {
    if ms == [] then []
    else OfField(ms[..|ms| - 1], field) + if ms[|ms| - 1].pid.field == field then [ms[|ms| - 1]] else []
  }

  // The fields in order of first match.
  function Fields(ms: seq<Match>): seq<string> {
    if ms == [] then []
    else
      var fs, f := Fields(ms[..|ms| - 1]), ms[|ms| - 1].pid.field;
      if f in fs then fs else fs + [f]
  }

  lemma {:induction false} FieldsDistinct(ms: seq<Match>)
    ensures forall i, j :: 0 <= i < j < |Fields(ms)| ==> Fields(ms)[i] != Fields(ms)[j]
  {
    if ms != [] {
      FieldsDistinct(ms[..|ms| - 1]);
    }
  }

  // The sorted matches of one field, grouped.
  function FieldGroups(ms: seq<Match>, field: string): seq<Group> {
    Groups(Sorting.Sort(OfField(ms, field), Before))
  }

  function AllGroups(ms: seq<Match>, fields: seq<string>): seq<Group> {
    if fields == [] then []
    else AllGroups(ms, fields[..|fields| - 1]) + FieldGroups(ms, fields[|fields| - 1])
  }

  lemma FieldGroupsSorted(ms: seq<Match>, field: string)
    ensures FieldGroups(ms, field) == Groups(Sorting.Sort(OfField(ms, field), Before))
  {
  }

  lemma {:induction false} OfFieldOnly(ms: seq<Match>, field: string)
    ensures SameField(OfField(ms, field), field)
  {
    if ms != [] {
      OfFieldOnly(ms[..|ms| - 1], field);
    }
  }

  lemma BeforeIsOrder()
    ensures Sorting.TotalPreorder(Before)
  {
  }

  lemma FieldGroupsExact(ms: seq<Match>, field: string)
    ensures Rising(FieldGroups(ms, field)) && AllNested(FieldGroups(ms, field))
    ensures multiset(Concat(FieldGroups(ms, field))) == multiset(OfField(ms, field))
    ensures forall k :: 0 <= k < |FieldGroups(ms, field)| ==> FieldGroups(ms, field)[k].head.pid.field == field
  {
    var own := OfField(ms, field);
    var sorted := Sorting.Sort(own, Before);
    BeforeIsOrder();
    OfFieldOnly(ms, field);
    Sorting.SortSorted(own, Before);
    Sorting.SortPermutes(own, Before);
    Sorting.SortMembers(own, Before);
    GroupsNested(sorted, field);
    GroupsConcat(sorted);
    HeadsIn(Groups(sorted));
  }

  lemma {:induction false} HeadsIn(gs: seq<Group>)
    ensures forall k :: 0 <= k < |gs| ==> gs[k].head in Concat(gs)
  {
    if gs != [] {
      HeadsIn(gs[..|gs| - 1]);
      assert gs[|gs| - 1].head == Members(gs[|gs| - 1])[0];
    }
  }

  lemma {:induction false} ConcatAppend(a: seq<Group>, b: seq<Group>)
    ensures Concat(a + b) == Concat(a) + Concat(b)
  {
    if b == [] {
      assert a + b == a;
    } else {
      var front, g := b[..|b| - 1], b[|b| - 1];
      ConcatAppend(a, front);
      hide Concat, Members;
      assert b == front + [g] && a + b == (a + front) + [g];
      ConcatSnoc(a + front, g);
      ConcatSnoc(front, g);
      assert Concat(a) + Concat(front) + Members(g) == Concat(a) + (Concat(front) + Members(g));
    }
  }

  function InFields(ms: seq<Match>, fields: seq<string>): seq<Match> {
    if ms == [] then []
    else InFields(ms[..|ms| - 1], fields) + if ms[|ms| - 1].pid.field in fields then [ms[|ms| - 1]] else []
  }

  lemma {:induction false} InFieldsSnoc(ms: seq<Match>, fields: seq<string>, f: string)
    requires f !in fields
    ensures multiset(InFields(ms, fields + [f])) == multiset(InFields(ms, fields)) + multiset(OfField(ms, f))
  {
    if ms != [] {
      InFieldsSnoc(ms[..|ms| - 1], fields, f);
    }
  }

  lemma {:induction false} InAllFields(ms: seq<Match>, fields: seq<string>)
    requires forall m :: m in ms ==> m.pid.field in fields
    ensures InFields(ms, fields) == ms
  {
    if ms != [] {
      assert ms[|ms| - 1] in ms;
      InAllFields(ms[..|ms| - 1], fields);
    }
  }

  lemma {:induction false} FieldsCover(ms: seq<Match>)
    ensures forall m :: m in ms ==> m.pid.field in Fields(ms)
  {
    if ms != [] {
      FieldsCover(ms[..|ms| - 1]);
      assert ms == ms[..|ms| - 1] + [ms[|ms| - 1]];
    }
  }

  lemma {:induction false} AllGroupsPermute(ms: seq<Match>, fields: seq<string>)
    requires forall i, j :: 0 <= i < j < |fields| ==> fields[i] != fields[j]
    ensures multiset(Concat(AllGroups(ms, fields))) == multiset(InFields(ms, fields))
  {
    hide FieldGroups, InFields, Fields;
    if fields == [] {
      NoFields(ms);
    } else {
      var front, f := fields[..|fields| - 1], fields[|fields| - 1];
      AllGroupsPermute(ms, front);
      FieldGroupsExact(ms, f);
      ConcatAppend(AllGroups(ms, front), FieldGroups(ms, f));
      InFieldsSnoc(ms, front, f);
      assert fields == front + [f];
      assert Concat(AllGroups(ms, fields)) == Concat(AllGroups(ms, front)) + Concat(FieldGroups(ms, f));
    }
  }

  lemma {:induction false} NoFields(ms: seq<Match>)
    ensures InFields(ms, []) == []
  {
    if ms != [] {
      NoFields(ms[..|ms| - 1]);
    }
  }

  // Groups of one field rise; groups of different fields never mix.
  ghost predicate RisingPerField(gs: seq<Group>) {
    forall i, j :: 0 <= i < j < |gs| && gs[i].head.pid.field == gs[j].head.pid.field ==>
      gs[i].head.pid.start < gs[j].head.pid.start && gs[i].head.pid.end < gs[j].head.pid.end
  }

  lemma {:induction false} AllGroupsRise(ms: seq<Match>, fields: seq<string>)
    requires forall i, j :: 0 <= i < j < |fields| ==> fields[i] != fields[j]
    ensures RisingPerField(AllGroups(ms, fields)) && AllNested(AllGroups(ms, fields))
    ensures forall k :: 0 <= k < |AllGroups(ms, fields)| ==> AllGroups(ms, fields)[k].head.pid.field in fields
  {
    if fields != [] {
      var front, f := fields[..|fields| - 1], fields[|fields| - 1];
      assert fields == front + [f] && f !in front;
      AllGroupsRise(ms, front);
      FieldGroupsExact(ms, f);
      assert AllGroups(ms, fields) == AllGroups(ms, front) + FieldGroups(ms, f);
      hide AllGroups, FieldGroups, RisingPerField, AllNested, Rising;
      RisingAppend(AllGroups(ms, front), FieldGroups(ms, f), front, f);
    }
  }

  lemma RisingAppend(a: seq<Group>, b: seq<Group>, fields: seq<string>, f: string)
    requires RisingPerField(a) && AllNested(a) && Rising(b) && AllNested(b) && f !in fields
    requires forall k :: 0 <= k < |a| ==> a[k].head.pid.field in fields
    requires forall k :: 0 <= k < |b| ==> b[k].head.pid.field == f
    ensures RisingPerField(a + b) && AllNested(a + b)
    ensures forall k :: 0 <= k < |a + b| ==> (a + b)[k].head.pid.field in fields || (a + b)[k].head.pid.field == f
  {
    var r := a + b;
    forall k | 0 <= k < |r| ensures Nested(r[k]) {
      if k < |a| { assert Nested(a[k]); } else { assert Nested(b[k - |a|]); }
    }
    forall i, j | 0 <= i < j < |r| && r[i].head.pid.field == r[j].head.pid.field
      ensures r[i].head.pid.start < r[j].head.pid.start && r[i].head.pid.end < r[j].head.pid.end
    {
      if j < |a| {
        assert a[i].head.pid.field == a[j].head.pid.field;
      } else if i >= |a| {
        assert b[i - |a|].head.pid.start < b[j - |a|].head.pid.start;
      }
    }
  }

  lemma BagOfSnoc(ms: seq<Match>, m: Match)
    ensures BagOf(ms + [m]) == BagOf(ms) + Bag(m.relations)
  {
    hide Bag;
    assert (ms + [m])[..|ms|] == ms;
  }

  lemma BagOfOne(m: Match)
    ensures BagOf([m]) == Bag(m.relations)
  {
    hide Bag;
    assert [m][..0] == [];
  }

  lemma FoldAllSnoc(gs: seq<Group>, g: Group)
    ensures FoldAll(gs + [g]) == FoldAll(gs) + [Folded(g.head, g.rest)]
  {
    hide Folded;
  }

  lemma ConcatSnoc(gs: seq<Group>, g: Group)
    ensures Concat(gs + [g]) == Concat(gs) + Members(g)
  {
    hide Members;
    assert (gs + [g])[..|gs|] == gs;
  }

  lemma MembersBag(g: Group)
    ensures BagOf(Members(g)) == Bag(Folded(g.head, g.rest).relations)
  {
    hide Bag, Folded, BagOf;
    BagOfAppend([g.head], g.rest);
    BagOfOne(g.head);
    FoldedBag(g.head, g.rest);
  }

  lemma {:induction false} ConcatBag(gs: seq<Group>)
    ensures BagOf(Concat(gs)) == BagOf(FoldAll(gs))
  {
    if gs != [] {
      var front, g := gs[..|gs| - 1], gs[|gs| - 1];
      assert gs == front + [g];
      ConcatBag(front);
      hide BagOf, Bag, Folded, Concat, FoldAll, Members;
      ConcatSnoc(front, g);
      FoldAllSnoc(front, g);
      BagOfAppend(Concat(front), Members(g));
      MembersBag(g);
      BagOfSnoc(FoldAll(front), Folded(g.head, g.rest));
    }
  }

  lemma AppendSnoc(a: seq<Match>, b: seq<Match>, m: Match)
    ensures a + (b + [m]) == (a + b) + [m]
  {
  }

  lemma BagOfLonger(a: seq<Match>, b: seq<Match>, m: Match)
    requires BagOf(a + b) == BagOf(a) + BagOf(b)
    ensures BagOf(a + (b + [m])) == BagOf(a) + BagOf(b + [m])
  {
    hide BagOf, Bag;
    AppendSnoc(a, b, m);
    BagOfSnoc(a + b, m);
    BagOfSnoc(b, m);
  }

  lemma BagOfNone(a: seq<Match>)
    ensures BagOf(a + []) == BagOf(a) + BagOf([])
  {
    assert a + [] == a;
  }

  lemma {:induction false} BagOfAppend(a: seq<Match>, b: seq<Match>)
    ensures BagOf(a + b) == BagOf(a) + BagOf(b)
  {
    hide BagOf;
    if b == [] {
      BagOfNone(a);
    } else {
      BagOfAppend(a, b[..|b| - 1]);
      BagOfLonger(a, b[..|b| - 1], b[|b| - 1]);
      assert b == b[..|b| - 1] + [b[|b| - 1]];
    }
  }

  lemma {:induction false} BagOfRemove(ms: seq<Match>, k: nat)
    requires k < |ms|
    ensures BagOf(ms) == BagOf(ms[..k] + ms[k + 1..]) + Bag(ms[k].relations)
  {
    assert ms == ms[..k] + [ms[k]] + ms[k + 1..];
    BagOfAppend(ms[..k] + [ms[k]], ms[k + 1..]);
    BagOfAppend(ms[..k], [ms[k]]);
    BagOfAppend(ms[..k], ms[k + 1..]);
    assert [ms[k]][..0] == [];
  }

  // The relations of a list depend on its members only, not on their order.
  lemma {:induction false} BagOfPermuted(a: seq<Match>, b: seq<Match>)
    requires multiset(a) == multiset(b)
    ensures BagOf(a) == BagOf(b)
    decreases |a|
  {
    if a == [] {
      assert |multiset(b)| == |b|;
    } else {
      var m, front := a[|a| - 1], a[..|a| - 1];
      assert a == front + [m];
      assert m in multiset(b);
      var k :| 0 <= k < |b| && b[k] == m;
      var rest := b[..k] + b[k + 1..];
      assert b == b[..k] + [m] + b[k + 1..];
      assert multiset(rest) == multiset(b) - multiset{m};
      BagOfPermuted(front, rest);
      BagOfRemove(b, k);
    }
  }

  // The match kept for a group: it contains every member, and its score is their largest.
  ghost predicate KeptFor(kept: Match, g: Group) {
    && (forall m :: m in Members(g) ==> Contains(kept.pid, m.pid) && m.score <= kept.score)
    && (exists m :: m in Members(g) && m.score == kept.score)
  }

  ghost predicate KeptRise(kept: seq<Match>) {
    forall i, j :: 0 <= i < j < |kept| && kept[i].pid.field == kept[j].pid.field ==>
      kept[i].pid.start < kept[j].pid.start && kept[i].pid.end < kept[j].pid.end
  }

  // What comes out of a list of matches: one kept match for each group.
  ghost predicate Reduced(ms: seq<Match>, kept: seq<Match>, gs: seq<Group>) {
    // the groups partition the input
    && multiset(Concat(gs)) == multiset(ms)
    && |kept| == |gs| && (forall k :: 0 <= k < |gs| ==> KeptFor(kept[k], gs[k]))
    // within a field starts and ends strictly increase, so no kept match contains another
    && KeptRise(kept)
    // no relation is lost or duplicated
    && BagOf(kept) == BagOf(ms)
  }

  lemma FoldedKept(g: Group)
    requires Nested(g)
    ensures KeptFor(Folded(g.head, g.rest), g)
  {
    FoldedBag(g.head, g.rest);
    FoldedScore(g.head, g.rest);
  }

  lemma FoldAllRises(gs: seq<Group>)
    requires RisingPerField(gs)
    ensures KeptRise(FoldAll(gs))
  {
    forall k | 0 <= k < |gs| ensures FoldAll(gs)[k].pid == gs[k].head.pid {
      FoldedBag(gs[k].head, gs[k].rest);
    }
  }

  lemma FieldwiseReduced(ms: seq<Match>)
    ensures Reduced(ms, FoldAll(AllGroups(ms, Fields(ms))), AllGroups(ms, Fields(ms)))
  {
    hide Fields, AllGroups, Concat, BagOf, InFields, KeptFor, KeptRise, RisingPerField;
    var gs := AllGroups(ms, Fields(ms));
    FieldsDistinct(ms);
    FieldsCover(ms);
    AllGroupsPermute(ms, Fields(ms));
    InAllFields(ms, Fields(ms));
    AllGroupsRise(ms, Fields(ms));
    ConcatBag(gs);
    BagOfPermuted(Concat(gs), ms);
    FoldAllRises(gs);
    forall k | 0 <= k < |gs| ensures KeptFor(FoldAll(gs)[k], gs[k]) {
      assert Nested(gs[k]);
      FoldedKept(gs[k]);
    }
  }

  // ----- grouping the matches by field -----

  ghost predicate Grouped(ms: seq<Match>, order: seq<string>, byField: map<string, seq<Match>>) {
    && order == Fields(ms)
    && (forall f :: f in byField <==> f in order)
    && (forall f :: f in byField ==> byField[f] == OfField(ms, f))
  }

  lemma {:induction false} OfNewField(ms: seq<Match>, f: string)
    requires f !in Fields(ms)
    ensures OfField(ms, f) == []
  {
    if ms != [] {
      OfNewField(ms[..|ms| - 1], f);
    }
  }

  lemma GroupedSnoc(ms: seq<Match>, m: Match, order: seq<string>, byField: map<string, seq<Match>>)
    requires Grouped(ms, order, byField)
    ensures Grouped(ms + [m],
      if m.pid.field in byField then order else order + [m.pid.field],
      byField[m.pid.field := (if m.pid.field in byField then byField[m.pid.field] else []) + [m]])
  {
    assert (ms + [m])[..|ms|] == ms;
    if m.pid.field !in byField {
      OfNewField(ms, m.pid.field);
    }
  }

  lemma GroupedNone(ms: seq<Match>)
    ensures Grouped(ms[..0], [], map[])
  {
  }

  lemma GroupedNext(ms: seq<Match>, i: nat, order: seq<string>, byField: map<string, seq<Match>>)
    requires i < |ms| && Grouped(ms[..i], order, byField)
    ensures Grouped(ms[..i + 1],
      if ms[i].pid.field in byField then order else order + [ms[i].pid.field],
      byField[ms[i].pid.field := (if ms[i].pid.field in byField then byField[ms[i].pid.field] else []) + [ms[i]]])
  {
    hide Grouped;
    GroupedSnoc(ms[..i], ms[i], order, byField);
    assert ms[..i + 1] == ms[..i] + [ms[i]];
  }

  method GroupByField(ms: seq<Match>) returns (order: seq<string>, byField: map<string, seq<Match>>)
    ensures Grouped(ms, order, byField)
  {
    hide *;
    order, byField := [], map[];
    GroupedNone(ms);
    for i := 0 to |ms|
      invariant Grouped(ms[..i], order, byField)
    {
      GroupedNext(ms, i, order, byField);
      var field := ms[i].pid.field;
      order := if field in byField then order else order + [field];
      byField := byField[field := (if field in byField then byField[field] else []) + [ms[i]]];
    }
    assert ms[..|ms|] == ms;
  }

  method CollectMatches(relations: seq<Entry>, scores: map<string, seq<real>>) returns (ms: seq<Match>)
    ensures ms == Inputs(relations, scores)
  {
    ms := [];
    hide EntityMatches;
    for i := 0 to |relations|
      invariant ms == Inputs(relations[..i], scores)
    {
      assert relations[..i + 1][..i] == relations[..i];
      var ent := relations[i].ent;
      if ent in scores {
        ms := CollectEntity(ms, ent, relations[i].rels, scores[ent]);
      }
    }
    assert relations[..|relations|] == relations;
  }

  // zip(rels, scores)
  method CollectEntity(before: seq<Match>, ent: string, rels: seq<Relation>, scores: seq<real>) returns (ms: seq<Match>)
    ensures ms == before + EntityMatches(ent, rels, scores)
  {
    ms := before;
    var j := 0;
    assert rels[0..] == rels && scores[0..] == scores;
    while j < |rels| && j < |scores|
      invariant 0 <= j <= |rels| && j <= |scores|
      invariant before + EntityMatches(ent, rels, scores) == ms + EntityMatches(ent, rels[j..], scores[j..])
    {
      MatchesNext(ent, rels, scores, j);
      hide EntityMatches;
      ghost var rest := EntityMatches(ent, rels[j + 1..], scores[j + 1..]);
      if rels[j].paragraph.Some? {
        ghost var m := Match(rels[j].paragraph.value, scores[j], [Entry(ent, [rels[j]])]);
        assert ms + ([m] + rest) == (ms + [m]) + rest;
        ms := ms + [Match(rels[j].paragraph.value, scores[j], [Entry(ent, [rels[j]])])];
      } else {
        assert [] + rest == rest;
      }
      j := j + 1;
    }
    assert EntityMatches(ent, rels[j..], scores[j..]) == [];
  }

  lemma MatchesNext(ent: string, rels: seq<Relation>, scores: seq<real>, j: nat)
    requires j < |rels| && j < |scores|
    ensures EntityMatches(ent, rels[j..], scores[j..]) ==
      (if rels[j].paragraph.Some? then [Match(rels[j].paragraph.value, scores[j], [Entry(ent, [rels[j]])])] else [])
      + EntityMatches(ent, rels[j + 1..], scores[j + 1..])
  {
    assert rels[j..][1..] == rels[j + 1..] && scores[j..][1..] == scores[j + 1..];
  }

  lemma NoGroups(ms: seq<Match>, order: seq<string>)
    ensures FoldAll(AllGroups(ms, order[..0])) == []
  {
  }

  lemma AllGroupsNext(ms: seq<Match>, order: seq<string>, i: nat)
    requires i < |order|
    ensures FoldAll(AllGroups(ms, order[..i + 1])) ==
      FoldAll(AllGroups(ms, order[..i])) + FoldAll(FieldGroups(ms, order[i]))
  {
    hide FieldGroups, Folded;
    assert order[..i + 1][..i] == order[..i];
  }

  // get_paragraph_info_from_relations
  method GetParagraphInfo(relations: seq<Entry>, scores: map<string, seq<real>>) returns (kept: seq<Match>)
    ensures kept == FoldAll(AllGroups(Inputs(relations, scores), Fields(Inputs(relations, scores))))
    ensures Reduced(Inputs(relations, scores), kept,
      AllGroups(Inputs(relations, scores), Fields(Inputs(relations, scores))))
  {
    hide Inputs, Reduced, Fields, FieldGroups, FoldAll, AllGroups;
    var ms := CollectMatches(relations, scores);
    var order, byField := GroupByField(ms);
    NoGroups(ms, order);
    kept := [];
    for i := 0 to |order|
      invariant kept == FoldAll(AllGroups(ms, order[..i]))
    {
      var field := order[i];
      var sorted := Sorting.Sort(byField[field], Before);
      var own := OnePass(sorted);
      assert own == FoldAll(FieldGroups(ms, field)) by {
        FieldGroupsSorted(ms, field);
      }
      AllGroupsNext(ms, order, i);
      kept := kept + own;
    }
    assert order[..|order|] == order;
    FieldwiseReduced(ms);
  }
}
