// The multi-hop exploration of get_graph_results and merge_relations_results
// (ask/search/graph_strategy.py).
module GraphHops {
  import opened Basics
  import opened GraphModel
  import opened Occurrences

  // A path returned by the graph search.
  datatype Path = Path(source: Node, name: string, destination: Node, metadata: Option<Metadata>)
  datatype Metadata = Metadata(fieldResource: Option<string>, paragraph: Option<Paragraph>)

  // Edges by value, in either direction.
  type Edges = set<(string, string)>

  function EdgesOf(paths: seq<Path>): Edges {
    set i | 0 <= i < |paths| :: (paths[i].source.value, paths[i].destination.value)
  }

  predicate Adjacent(edges: Edges, u: string, v: string) { (u, v) in edges || (v, u) in edges }

  // v is reached from some start in at most h edges.
  ghost predicate Within(edges: Edges, starts: set<string>, v: string, h: nat)
    decreases h
  {
    v in starts || (h > 0 && exists u :: Adjacent(edges, u, v) && Within(edges, starts, u, h - 1))
  }

  lemma {:induction false} WithinMore(edges: Edges, edges': Edges, starts: set<string>, v: string, h: nat, h': nat)
    requires Within(edges, starts, v, h) && edges <= edges' && h <= h'
    ensures Within(edges', starts, v, h')
    decreases h
  {
    if v !in starts {
      var u :| Adjacent(edges, u, v) && Within(edges, starts, u, h - 1);
      WithinMore(edges, edges', starts, u, h - 1, h' - 1);
      assert Adjacent(edges', u, v);
    }
  }

  // ----- merge_relations_results -----

  function Directed(other: Node, name: string, direction: Direction, m: Option<Metadata>, resource: string): Relation {
    Relation(other.value, other.ntype, other.subtype, name, direction, if m.Some? then m.value.paragraph else None,
      resource)
  }

  // The resource a path is given: the last one named up to it, its own or an earlier path's.
  function ResourceAt(paths: seq<Path>): Option<string> {
    if paths == [] then None
    else
      var m := paths[|paths| - 1].metadata;
      if m.Some? && m.value.fieldResource.Some? then m.value.fieldResource else ResourceAt(paths[..|paths| - 1])
  }

  // The entity a path is stored under, with the relation it gives.
  function Stored(p: Path, resource: string, entries: set<string>): Option<(string, Relation)> {
    if p.source.value in entries then Some((p.source.value, Directed(p.destination, p.name, OUT, p.metadata, resource)))
    else if p.destination.value in entries then Some((p.destination.value,
      Directed(p.source, p.name, IN, p.metadata, resource)))
    else None
  }

  predicate Touches(p: Path, entries: set<string>, onlyWithMetadata: bool) {
    !(onlyWithMetadata && p.metadata.None?) && (p.source.value in entries || p.destination.value in entries)
  }

  // Each entry point gets the paths that touch it, in order; None when a path to store has no
  // resource to point at, which the code turns into an exception.
  function Merged(paths: seq<Path>, entries: set<string>, onlyWithMetadata: bool): (r: Option<Relations>)
    ensures r.Some? ==> r.value.Keys == entries
  {
    if paths == [] then Some(map v | v in entries :: [])
    else
      var before, p := Merged(paths[..|paths| - 1], entries, onlyWithMetadata), paths[|paths| - 1];
      if before.None? || !Touches(p, entries, onlyWithMetadata) then before
      else if ResourceAt(paths).None? then None
      else
        var stored := Stored(p, ResourceAt(paths).value, entries).value;
        Some(before.value[stored.0 := before.value[stored.0] + [stored.1]])
  }

  method MergeRelations(paths: seq<Path>, entryPoints: set<Node>, onlyWithMetadata: bool) returns (r: Option<Relations>)
    ensures r == Merged(paths, Values(entryPoints), onlyWithMetadata)
  {
    var relations: Relations := map v | v in Values(entryPoints) :: [];
    var resource: Option<string> := None;
    for i := 0 to |paths|
      invariant resource == ResourceAt(paths[..i])
      invariant Merged(paths[..i], Values(entryPoints), onlyWithMetadata) == Some(relations)
    {
      var p := paths[i];
      assert paths[..i + 1][..i] == paths[..i];
      if p.metadata.Some? && p.metadata.value.fieldResource.Some? {
        resource := p.metadata.value.fieldResource;
      }
      if onlyWithMetadata && p.metadata.None? {
        continue;
      }
      if p.source.value in relations {
        if resource.None? {
          StaysFailed(paths, i + 1, Values(entryPoints), onlyWithMetadata);
          return None;
        }
        var rel := Directed(p.destination, p.name, OUT, p.metadata, resource.value);
        relations := relations[p.source.value := relations[p.source.value] + [rel]];
      } else if p.destination.value in relations {
        if resource.None? {
          StaysFailed(paths, i + 1, Values(entryPoints), onlyWithMetadata);
          return None;
        }
        var rel := Directed(p.source, p.name, IN, p.metadata, resource.value);
        relations := relations[p.destination.value := relations[p.destination.value] + [rel]];
      }
    }
    assert paths[..|paths|] == paths;
    return Some(relations);
  }

  lemma {:induction false} StaysFailed(paths: seq<Path>, n: nat, entries: set<string>, onlyWithMetadata: bool)
    requires n <= |paths| && Merged(paths[..n], entries, onlyWithMetadata).None?
    ensures Merged(paths, entries, onlyWithMetadata).None?
  {
    if n == |paths| {
      assert paths[..n] == paths;
    } else {
      assert paths[..|paths| - 1][..n] == paths[..n];
      StaysFailed(paths[..|paths| - 1], n, entries, onlyWithMetadata);
    }
  }

  // Every relation comes from one of the paths, read from the entity it is stored under.
  lemma {:induction false} MergedSound(paths: seq<Path>, entries: set<string>, onlyWithMetadata: bool, ent: string,
      rel: Relation)
    requires Merged(paths, entries, onlyWithMetadata).Some?
    requires ent in entries && rel in Merged(paths, entries, onlyWithMetadata).value[ent]
    ensures FromPath(paths, ent, rel)
  {
    hide ResourceAt;
    if paths != [] {
      var n := |paths| - 1;
      var before := Merged(paths[..n], entries, onlyWithMetadata).value;
      if rel in before[ent] {
        MergedSound(paths[..n], entries, onlyWithMetadata, ent, rel);
        var i :| 0 <= i < n && PathGives(paths[..n][i], ent, rel);
        assert PathGives(paths[i], ent, rel);
      } else {
        assert PathGives(paths[n], ent, rel);
      }
    }
  }

  // Every path that touches an entry point is stored, once, under its source if that is one.
  lemma {:induction false} MergedComplete(paths: seq<Path>, entries: set<string>, onlyWithMetadata: bool, i: nat)
    requires Merged(paths, entries, onlyWithMetadata).Some? && i < |paths| &&
      Touches(paths[i], entries, onlyWithMetadata)
    ensures ResourceAt(paths[..i + 1]).Some?
    ensures var stored := Stored(paths[i], ResourceAt(paths[..i + 1]).value, entries).value;
            stored.0 in entries && stored.1 in Merged(paths, entries, onlyWithMetadata).value[stored.0]
  {
    hide ResourceAt, Directed;
    var n := |paths| - 1;
    if i == n {
      assert paths[..i + 1] == paths;
    } else {
      assert paths[..n][..i + 1] == paths[..i + 1];
      MergedComplete(paths[..n], entries, onlyWithMetadata, i);
    }
  }

  function Named(p: Path): Option<string> { if p.metadata.Some? then p.metadata.value.fieldResource else None }

  // The resource is the one named last among the paths up to i.
  ghost predicate NamedAt(paths: seq<Path>, i: nat, resource: string) {
    exists k :: 0 <= k <= i < |paths| && Named(paths[k]) == Some(resource) &&
      forall m :: k < m <= i ==> Named(paths[m]).None?
  }

  lemma {:induction false} ResourceAtExact(paths: seq<Path>, i: nat, resource: string)
    requires i < |paths|
    ensures ResourceAt(paths[..i + 1]) == Some(resource) <==> NamedAt(paths, i, resource)
  {
    assert paths[..i + 1][..i] == paths[..i];
    if Named(paths[i]).None? {
      if i > 0 {
        ResourceAtExact(paths, i - 1, resource);
        if NamedAt(paths, i - 1, resource) {
          var k :| 0 <= k <= i - 1 && Named(paths[k]) == Some(resource) && forall m :: k < m <= i - 1 ==>
            Named(paths[m]).None?;
          assert forall m :: k < m <= i ==> Named(paths[m]).None?;
        }
      }
    }
  }

  // The entity a path is filed under: its source if that is an entry point, else its destination.
  function Under(p: Path, entries: set<string>, onlyWithMetadata: bool): Option<string> {
    if onlyWithMetadata && p.metadata.None? then None
    else if p.source.value in entries then Some(p.source.value)
    else if p.destination.value in entries then Some(p.destination.value)
    else None
  }

  // The path as seen from ent: out of it, or else into it.
  ghost predicate SeenFrom(p: Path, ent: string, rel: Relation) {
    && (if p.source.value == ent
        then rel.direction == OUT && p.destination == Node(rel.entityType, rel.entitySubtype, rel.entity)
        else rel.direction == IN && p.source == Node(rel.entityType, rel.entitySubtype, rel.entity))
    && rel.name == p.name
    && rel.paragraph == (if p.metadata.Some? then p.metadata.value.paragraph else None)
  }

  // From whichever end a path is seen, the relation is read back as the path's own triple.
  lemma SeenTriple(p: Path, ent: string, rel: Relation)
    requires SeenFrom(p, ent, rel) && ent in {p.source.value, p.destination.value}
    ensures TripleOf(ent, rel) == Triple(p.source.value, p.name, p.destination.value)
  {
  }

  // The list is, in order, the paths filed under ent, each as seen from there.
  ghost predicate Files(paths: seq<Path>, at: seq<nat>, ent: string, rels: seq<Relation>) {
    && |rels| == |at| && Below(at, |paths|)
    && forall k :: 0 <= k < |at| ==> SeenFrom(paths[at[k]], ent, rels[k]) && NamedAt(paths, at[k], rels[k].resource)
  }

  lemma NamedAtMore(paths: seq<Path>, last: Path, i: nat, resource: string)
    requires NamedAt(paths, i, resource)
    ensures NamedAt(paths + [last], i, resource)
  {
    var k :| 0 <= k <= i < |paths| && Named(paths[k]) == Some(resource) && forall m :: k < m <= i ==>
      Named(paths[m]).None?;
    var paths' := paths + [last];
    assert forall m :: 0 <= m <= i ==> paths'[m] == paths[m];
  }

  lemma FilesMore(paths: seq<Path>, last: Path, at: seq<nat>, ent: string, rels: seq<Relation>)
    requires Files(paths, at, ent, rels)
    ensures Files(paths + [last], at, ent, rels)
  {
    hide NamedAt, SeenFrom;
    forall k | 0 <= k < |at|
      ensures SeenFrom((paths + [last])[at[k]], ent, rels[k]) && NamedAt(paths + [last], at[k], rels[k].resource)
    {
      NamedAtMore(paths, last, at[k], rels[k].resource);
    }
  }

  // Each entry point has exactly the paths filed under it, in the order they came.
  lemma {:induction false} MergedListed(paths: seq<Path>, entries: set<string>, onlyWithMetadata: bool, ent: string)
    requires Merged(paths, entries, onlyWithMetadata).Some? && ent in entries
    ensures Files(paths, Where(paths, p => Under(p, entries, onlyWithMetadata) == Some(ent)), ent,
                  Merged(paths, entries, onlyWithMetadata).value[ent])
  {
    hide ResourceAt, NamedAt, SeenFrom;
    if paths != [] {
      var n := |paths| - 1;
      var q := (p: Path) => Under(p, entries, onlyWithMetadata) == Some(ent);
      MergedListed(paths[..n], entries, onlyWithMetadata, ent);
      var rels := Merged(paths[..n], entries, onlyWithMetadata).value[ent];
      assert paths == paths[..n] + [paths[n]];
      FilesMore(paths[..n], paths[n], Where(paths[..n], q), ent, rels);
      if q(paths[n]) {
        assert paths[..n + 1] == paths;
        ResourceAtExact(paths, n, ResourceAt(paths).value);
        StoredSeen(paths[n], ResourceAt(paths).value, entries, onlyWithMetadata, ent);
      }
    }
  }

  lemma StoredSeen(p: Path, resource: string, entries: set<string>, onlyWithMetadata: bool, ent: string)
    requires Under(p, entries, onlyWithMetadata) == Some(ent)
    ensures var stored := Stored(p, resource, entries);
      stored.Some? && stored.value.0 == ent && SeenFrom(p, ent, stored.value.1) && stored.value.1.resource == resource
  {
  }

  // Merging fails exactly on a path to file before which, itself included, no resource is named.
  lemma {:induction false} MergedFails(paths: seq<Path>, entries: set<string>, onlyWithMetadata: bool)
    ensures Merged(paths, entries, onlyWithMetadata).None? <==>
      exists i :: 0 <= i < |paths| && Under(paths[i], entries, onlyWithMetadata).Some? && Unnamed(paths, i)
  {
    hide ResourceAt, Unnamed;
    if paths != [] {
      var n := |paths| - 1;
      MergedFails(paths[..n], entries, onlyWithMetadata);
      assert paths[..n + 1] == paths;
      UnnamedExact(paths, n);
      forall i | 0 <= i < n ensures Unnamed(paths[..n], i) <==> Unnamed(paths, i) { UnnamedPrefix(paths, n, i); }
      assert forall i :: 0 <= i < n ==> paths[..n][i] == paths[i];
    }
  }

  ghost predicate Unnamed(paths: seq<Path>, i: nat) {
    i < |paths| && forall k :: 0 <= k <= i ==> Named(paths[k]).None?
  }

  lemma UnnamedPrefix(paths: seq<Path>, n: nat, i: nat)
    requires i < n <= |paths|
    ensures Unnamed(paths[..n], i) <==> Unnamed(paths, i)
  {
    assert forall k :: 0 <= k <= i ==> paths[..n][k] == paths[k];
  }

  lemma {:induction false} UnnamedExact(paths: seq<Path>, i: nat)
    requires i < |paths|
    ensures ResourceAt(paths[..i + 1]).None? <==> Unnamed(paths, i)
  {
    assert paths[..i + 1][..i] == paths[..i];
    if i > 0 {
      UnnamedExact(paths, i - 1);
    }
  }

  function Values(nodes: set<Node>): set<string> { set n | n in nodes :: n.value }

  // rel, stored under ent, is one of the returned paths read from ent.
  ghost predicate FromPath(paths: seq<Path>, ent: string, rel: Relation) {
    exists i :: 0 <= i < |paths| && PathGives(paths[i], ent, rel)
  }

  predicate PathGives(p: Path, ent: string, rel: Relation) {
    if rel.direction == OUT then
      p.source.value == ent && p.destination == Node(rel.entityType, rel.entitySubtype, rel.entity)
    else
      p.destination.value == ent && p.source == Node(rel.entityType, rel.entitySubtype, rel.entity)
  }

  // ----- the hop loop -----

  // What the remote services answer: the graph search for a frontier and a set of entities to
  // leave out (None when the call fails), and the ranking of the relations (None when it fails).
  datatype Remote = Remote(
    search: (nat, set<Node>, set<Node>) -> Option<seq<Path>>,
    rank: (nat, Relations) -> Option<(Relations, Scores)>)

  type Scores = map<string, seq<real>>

  // One score for each relation, in the same order.
  ghost predicate Parallel(relations: Relations, scores: Scores) {
    relations.Keys == scores.Keys && forall ent :: ent in relations ==> |relations[ent]| == |scores[ent]|
  }

  // The graph query asks for relations between entities; ranking only drops relations, and scores
  // those that stay.
  ghost predicate RemoteOk(remote: Remote) {
    && (forall hop, frontier, known :: remote.search(hop, frontier, known).Some? ==>
      EntityPaths(remote.search(hop, frontier, known).value))
    && (forall hop, rels :: remote.rank(hop, rels).Some? ==>
          SubRelations(remote.rank(hop, rels).value.0, rels) &&
            Parallel(remote.rank(hop, rels).value.0, remote.rank(hop, rels).value.1))
  }

  ghost predicate EntityPaths(paths: seq<Path>) {
    forall i :: 0 <= i < |paths| ==> paths[i].source.ntype == ENTITY && paths[i].destination.ntype == ENTITY
  }

  datatype Request = Request(frontier: set<Node>, known: set<Node>)

  datatype Error = NoGraphResponse

  // relations whose other end has not been explored yet
  function NextFrontier(relations: Relations, explored: set<Node>): set<Node> {
    set ent, k | ent in relations && 0 <= k < |relations[ent]|
      && Node(relations[ent][k].entityType, relations[ent][k].entitySubtype, relations[ent][k].entity) !in explored
      :: Node(ENTITY, relations[ent][k].entitySubtype, relations[ent][k].entity)
  }

  function Discovered(paths: seq<Path>, frontier: set<Node>, explored: set<Node>): set<Node> {
    (set i | 0 <= i < |paths| && paths[i].source !in frontier && paths[i].source !in explored :: paths[i].source)
    + (set i | 0 <= i < |paths| && paths[i].destination !in frontier &&
      paths[i].destination !in explored :: paths[i].destination)
  }

  // Every key is a value explored so far, at most h edges away, and every relation is an edge.
  ghost predicate RelationsNear(relations: Relations, edges: Edges, starts: set<string>, h: nat) {
    && (forall ent :: ent in relations ==> Within(edges, starts, ent, h))
    && (forall ent, rel :: ent in relations && rel in relations[ent] ==>
      rel.entityType == ENTITY && Adjacent(edges, ent, rel.entity))
  }

  ghost predicate LogExplores(log: seq<Request>, starts: set<string>, edges: Edges) {
    // each request leaves out exactly what the earlier ones explored, and asks for none of it
    && (forall j :: 0 <= j < |log| ==> log[j].known == Explored(log[..j]) && log[j].frontier !! log[j].known)
    // the frontier of hop j is at most j edges from the entities of the query
    && (forall j, n :: 0 <= j < |log| && n in log[j].frontier ==>
      n.ntype == ENTITY && Within(edges, starts, n.value, j))
  }

  function Explored(log: seq<Request>): set<Node> {
    if log == [] then {} else Explored(log[..|log| - 1]) + log[|log| - 1].frontier
  }

  lemma {:induction false} ExploredHas(log: seq<Request>, j: nat)
    requires j < |log|
    ensures log[j].frontier <= Explored(log)
  {
    if j < |log| - 1 {
      ExploredHas(log[..|log| - 1], j);
    }
  }

  // Frontiers of distinct hops are disjoint and the explored set only grows.
  lemma HopsDisjoint(log: seq<Request>, starts: set<string>, edges: Edges, i: nat, j: nat)
    requires LogExplores(log, starts, edges) && i < j < |log|
    ensures log[i].frontier !! log[j].frontier
    ensures log[i].known + log[i].frontier <= log[j].known
  {
    ExploredHas(log[..j], i);
    ExploredGrows(log, i + 1, j);
    assert log[..i + 1][..i] == log[..i];
  }

  lemma {:induction false} ExploredGrows(log: seq<Request>, i: nat, j: nat)
    requires i <= j <= |log|
    ensures Explored(log[..i]) <= Explored(log[..j])
    decreases j - i
  {
    if i < j {
      assert log[..j][..j - 1] == log[..j - 1];
      ExploredGrows(log, i, j - 1);
    }
  }

  lemma FrontierNear(relations: Relations, explored: set<Node>, edges: Edges, starts: set<string>, h: nat, n: Node)
    requires RelationsNear(relations, edges, starts, h) && n in NextFrontier(relations, explored)
    ensures n.ntype == ENTITY && n !in explored && Within(edges, starts, n.value, h + 1)
  {
    var ent, k :| ent in relations && 0 <= k < |relations[ent]|
      && Node(relations[ent][k].entityType, relations[ent][k].entitySubtype, relations[ent][k].entity) !in explored
      && n == Node(ENTITY, relations[ent][k].entitySubtype, relations[ent][k].entity);
    assert relations[ent][k] in relations[ent];
    assert Adjacent(edges, ent, n.value);
  }

  lemma MergedNear(paths: seq<Path>, frontier: set<Node>, rels: Relations, edges: Edges, starts: set<string>, h: nat)
    requires EntityPaths(paths) && EdgesOf(paths) <= edges && rels.Keys == Values(frontier)
    requires forall ent, rel :: ent in rels && rel in rels[ent] ==> FromPath(paths, ent, rel)
    requires forall n :: n in frontier ==> Within(edges, starts, n.value, h)
    ensures RelationsNear(rels, edges, starts, h)
  {
    forall ent | ent in rels ensures Within(edges, starts, ent, h) {
      var n :| n in frontier && n.value == ent;
    }
    forall ent, rel | ent in rels && rel in rels[ent]
      ensures rel.entityType == ENTITY && Adjacent(edges, ent, rel.entity)
    {
      assert FromPath(paths, ent, rel);
      var i :| 0 <= i < |paths| && PathGives(paths[i], ent, rel);
      assert (paths[i].source.value, paths[i].destination.value) in EdgesOf(paths);
    }
  }

  lemma NearMore(rels: Relations, edges: Edges, edges': Edges, starts: set<string>, h: nat, h': nat)
    requires RelationsNear(rels, edges, starts, h) && edges <= edges' && h <= h'
    ensures RelationsNear(rels, edges', starts, h')
  {
    forall ent | ent in rels ensures Within(edges', starts, ent, h') {
      WithinMore(edges, edges', starts, ent, h, h');
    }
  }

  lemma LogMore(log: seq<Request>, starts: set<string>, edges: Edges, edges': Edges)
    requires LogExplores(log, starts, edges) && edges <= edges'
    ensures LogExplores(log, starts, edges')
  {
    forall j, n | 0 <= j < |log| && n in log[j].frontier ensures Within(edges', starts, n.value, j) {
      WithinMore(edges, edges', starts, n.value, j, j);
    }
  }

  lemma LogSnoc(log: seq<Request>, r: Request, starts: set<string>, edges: Edges)
    requires LogExplores(log, starts, edges) && r.known == Explored(log) && r.frontier !! r.known
    requires forall n :: n in r.frontier ==> n.ntype == ENTITY && Within(edges, starts, n.value, |log|)
    ensures LogExplores(log + [r], starts, edges)
  {
    hide Within, Explored;
    var log' := log + [r];
    forall j, n | 0 <= j < |log'| && n in log'[j].frontier ensures n.ntype == ENTITY &&
      Within(edges, starts, n.value, j) {
      if j < |log| {
        assert log'[j] == log[j];
      }
    }
    forall j | 0 <= j < |log'| ensures log'[j].known == Explored(log'[..j]) && log'[j].frontier !! log'[j].known {
      assert log'[..j] == log[..j];
      assert log[..|log|] == log;
    }
  }

  function Frontier(hop: nat, query: set<Node>, relations: Relations, explored: set<Node>): set<Node> {
    if hop == 0 then query else NextFrontier(relations, explored)
  }

  // How far from the query the relations known at the start of a hop can be.
  function Reach(hop: nat): nat { if hop == 0 then 0 else hop - 1 }

  lemma FrontierOk(hop: nat, query: set<Node>, relations: Relations, explored: set<Node>, edges: Edges)
    requires RelationsNear(relations, edges, Values(query), Reach(hop)) && (hop == 0 ==> explored == {})
    requires forall n :: n in query ==> n.ntype == ENTITY
    ensures Frontier(hop, query, relations, explored) !! explored
    ensures forall n :: n in Frontier(hop, query, relations, explored) ==>
      n.ntype == ENTITY && Within(edges, Values(query), n.value, hop)
  {
    forall n | n in Frontier(hop, query, relations, explored)
      ensures n.ntype == ENTITY && n !in explored && Within(edges, Values(query), n.value, hop)
    {
      if hop > 0 {
        FrontierNear(relations, explored, edges, Values(query), hop - 1, n);
      }
    }
  }

  lemma ExploredSnoc(log: seq<Request>, r: Request)
    ensures Explored(log + [r]) == Explored(log) + r.frontier
  {
    assert (log + [r])[..|log|] == log;
  }

  lemma RankedNear(ranked: Relations, relations: Relations, edges: Edges, starts: set<string>, h: nat)
    requires SubRelations(ranked, relations) && RelationsNear(relations, edges, starts, h)
    ensures RelationsNear(ranked, edges, starts, h)
  {
  }

  lemma NothingNear(edges: Edges, starts: set<string>, h: nat)
    ensures RelationsNear(map[], edges, starts, h)
  {
  }

  // Where an exploration stands.  `unranked` says that relations were merged in since the scores
  // were given; `ranks` are the relations that each finished hop was left with.
  datatype State = State(relations: Relations, scores: Scores, unranked: bool, explored: set<Node>,
      response: Option<seq<Path>>, log: seq<Request>, ranks: seq<Relations>, edges: Edges)

  // One graph query, merged into the relations known so far.  When the call fails the previous
  // response, if any, is used again for what follows.
  function Searched(hop: nat, frontier: set<Node>, remote: Remote, onlyWithMetadata: bool, s: State): State {
    var log := s.log + [Request(frontier, s.explored)];
    var found := remote.search(hop, frontier, s.explored);
    if found.None? then s.(log := log)
    else
      var merged := Merged(found.value, Values(frontier), onlyWithMetadata);
      s.(log := log, response := found, edges := s.edges + EdgesOf(found.value),
         unranked := merged.Some?, relations := if merged.Some? then s.relations + merged.value else s.relations)
  }

  function Ranked(s: State, ranked: (Relations, Scores), explored: set<Node>): State {
    s.(relations := ranked.0, scores := ranked.1, unranked := false, explored := explored, ranks := s.ranks +
      [ranked.0])
  }

  // The hops still to go, from a state.
  function Journey(hop: nat, hops: nat, query: set<Node>, remote: Remote, onlyWithMetadata: bool,
      s: State): (Result<Relations, Error>, State)
    decreases hops - hop
  {
    var frontier := Frontier(hop, query, s.relations, s.explored);
    if hop >= hops || frontier == {} then (Ok(s.relations), s)
    else
      var s' := Searched(hop, frontier, remote, onlyWithMetadata, s);
      if s'.response.None? then (Err(NoGraphResponse), s')
      else if Discovered(s'.response.value, frontier, s.explored) == {} then (Ok(s'.relations), s')
      else
        var ranked := remote.rank(hop, s'.relations);
        if ranked.None? then (Ok(map[]), s'.(relations := map[], scores := map[], unranked := false))
        else Journey(hop + 1, hops, query, remote, onlyWithMetadata, Ranked(s', ranked.value, s.explored + frontier))
  }

  // What holds at the start of every hop.
  ghost predicate OnTheWay(hop: nat, query: set<Node>, s: State) {
    && |s.log| == hop && LogExplores(s.log, Values(query), s.edges) && s.explored == Explored(s.log) &&
      (hop == 0 ==> s.explored == {})
    && (s.log != [] ==> s.log[0].frontier == query)
    && RelationsNear(s.relations, s.edges, Values(query), Reach(hop))
    && (s.response.Some? ==> EntityPaths(s.response.value) && EdgesOf(s.response.value) <= s.edges)
  }

  // What holds at the end of an exploration.
  ghost predicate Arrived(hops: nat, query: set<Node>, r: Result<Relations, Error>, s: State) {
    && |s.log| <= hops && LogExplores(s.log, Values(query), s.edges)
    && (s.log != [] ==> s.log[0].frontier == query)
    && (r.Ok? ==> RelationsNear(r.value, s.edges, Values(query), hops))
  }

  lemma SearchedNear(hop: nat, frontier: set<Node>, query: set<Node>, remote: Remote, onlyWithMetadata: bool, s: State)
    requires RemoteOk(remote) && OnTheWay(hop, query, s) && frontier == Frontier(hop, query, s.relations, s.explored)
    requires forall n :: n in query ==> n.ntype == ENTITY
    ensures var s' := Searched(hop, frontier, remote, onlyWithMetadata, s);
            && |s'.log| == hop + 1 && LogExplores(s'.log, Values(query), s'.edges) &&
              s.explored + frontier == Explored(s'.log)
            && s'.log[0].frontier == query
            && RelationsNear(s'.relations, s'.edges, Values(query), hop)
            && (s'.response.Some? ==> EntityPaths(s'.response.value) && EdgesOf(s'.response.value) <= s'.edges)
  {
    hide Within, RelationsNear, NextFrontier, Values, EntityPaths, EdgesOf, LogExplores, Explored, Merged;
    var starts := Values(query);
    FrontierOk(hop, query, s.relations, s.explored, s.edges);
    LogSnoc(s.log, Request(frontier, s.explored), starts, s.edges);
    ExploredSnoc(s.log, Request(frontier, s.explored));
    NearMore(s.relations, s.edges, s.edges, starts, Reach(hop), hop);
    var s' := Searched(hop, frontier, remote, onlyWithMetadata, s);
    var found := remote.search(hop, frontier, s.explored);
    if found.Some? {
      LogMore(s'.log, starts, s.edges, s'.edges);
      NearMore(s.relations, s.edges, s'.edges, starts, hop, hop);
      var merged := Merged(found.value, Values(frontier), onlyWithMetadata);
      if merged.Some? {
        forall n | n in frontier ensures Within(s'.edges, starts, n.value, hop) {
          WithinMore(s.edges, s'.edges, starts, n.value, hop, hop);
        }
        forall ent, rel | ent in merged.value && rel in merged.value[ent] ensures FromPath(found.value, ent, rel) {
          MergedSound(found.value, Values(frontier), onlyWithMetadata, ent, rel);
        }
        MergedNear(found.value, frontier, merged.value, s'.edges, starts, hop);
        NearUnion(s.relations, merged.value, s'.edges, starts, hop);
      }
    }
  }

  lemma NearUnion(a: Relations, b: Relations, edges: Edges, starts: set<string>, h: nat)
    requires RelationsNear(a, edges, starts, h) && RelationsNear(b, edges, starts, h)
    ensures RelationsNear(a + b, edges, starts, h)
  {
  }

  // Whatever the services answer: requests explore disjoint frontiers, hop j asks about entities
  // at most j returned edges from the query, and the relations found are at most `hops` away.
  lemma {:induction false} JourneyArrives(hop: nat, hops: nat, query: set<Node>, remote: Remote,
      onlyWithMetadata: bool, s: State)
    requires RemoteOk(remote) && hop <= hops && OnTheWay(hop, query, s)
    requires forall n :: n in query ==> n.ntype == ENTITY
    ensures var out := Journey(hop, hops, query, remote, onlyWithMetadata, s);
            Arrived(hops, query, out.0, out.1)
    decreases hops - hop
  {
    hide Within, RelationsNear, NextFrontier, Discovered, Values, EntityPaths, EdgesOf, LogExplores, Explored, Searched;
    var starts := Values(query);
    var frontier := Frontier(hop, query, s.relations, s.explored);
    if hop == hops || frontier == {} {
      NearMore(s.relations, s.edges, s.edges, starts, Reach(hop), hops);
    } else {
      SearchedNear(hop, frontier, query, remote, onlyWithMetadata, s);
      var s' := Searched(hop, frontier, remote, onlyWithMetadata, s);
      NearMore(s'.relations, s'.edges, s'.edges, starts, hop, hops);
      NothingNear(s'.edges, starts, hops);
      var ranked := remote.rank(hop, s'.relations);
      if ranked.Some? && s'.response.Some? && Discovered(s'.response.value, frontier, s.explored) != {} {
        RankedNear(ranked.value.0, s'.relations, s'.edges, starts, hop);
        JourneyArrives(hop + 1, hops, query, remote, onlyWithMetadata, Ranked(s', ranked.value, s.explored + frontier));
      }
    }
  }

  // ----- nothing in reach is left unexplored -----

  // n is the other end of one of the relations, in whichever direction it is read.
  ghost predicate OtherEnd(relations: Relations, n: Node) {
    exists ent, rel :: ent in relations && rel in relations[ent] && n == Node(ENTITY, rel.entitySubtype, rel.entity)
  }

  // A path leads somewhere that was neither asked about nor known.
  ghost predicate Leads(paths: seq<Path>, req: Request) {
    exists i :: 0 <= i < |paths| &&
      (paths[i].source !in req.frontier + req.known || paths[i].destination !in req.frontier + req.known)
  }

  // The answer a hop works with: its own, or else the last there was.
  function Heard(remote: Remote, log: seq<Request>): Option<seq<Path>> {
    if log == [] then None
    else
      var n := |log| - 1;
      var found := remote.search(n, log[n].frontier, log[n].known);
      if found.Some? then found else Heard(remote, log[..n])
  }

  // What is to be ranked at a hop: the relations kept before, overridden by the merged ones.
  function Gathered(remote: Remote, onlyWithMetadata: bool, hop: nat, req: Request, before: Relations): Relations {
    var found := remote.search(hop, req.frontier, req.known);
    var merged := if found.Some? then Merged(found.value, Values(req.frontier), onlyWithMetadata) else None;
    if merged.Some? then before + merged.value else before
  }

  function Last(ranks: seq<Relations>): Relations { if ranks == [] then map[] else ranks[|ranks| - 1] }

  // One finished hop: something new was heard of, and `after` is what ranking left.
  ghost predicate Finishes(remote: Remote, onlyWithMetadata: bool, log: seq<Request>, before: Relations,
      after: Relations)
    requires log != []
  {
    var hop, req := |log| - 1, log[|log| - 1];
    && Heard(remote, log).Some? && Leads(Heard(remote, log).value, req)
    && var ranked := remote.rank(hop, Gathered(remote, onlyWithMetadata, hop, req, before));
       ranked.Some? && ranked.value.0 == after
  }

  // The entities asked about are those of the query, then exactly the other ends of the relations
  // ranking left that have not been asked about, or known, before.
  ghost predicate Asks(query: set<Node>, req: Request, ranks: seq<Relations>) {
    req.frontier != {} &&
    if ranks == [] then req.frontier == query
    else forall n :: n in req.frontier <==> OtherEnd(Last(ranks), n) && n !in req.known
  }

  // The story of an exploration, hop by hop.
  ghost predicate Tells(remote: Remote, onlyWithMetadata: bool, hops: nat, query: set<Node>, log: seq<Request>,
      ranks: seq<Relations>)
  {
    && |ranks| <= |log| <= |ranks| + 1 && |log| <= hops
    && (forall j :: 0 <= j < |log| ==> Asks(query, log[j], ranks[..j]) && log[j].known == Explored(log[..j]))
    && (forall j :: 0 <= j < |ranks| ==>
          Finishes(remote, onlyWithMetadata, log[..j + 1], Last(ranks[..j]), ranks[j]))
  }

  // How it ends: after the last hop, or for want of anything to ask about; and within a hop, when
  // the search has never answered, when it leads nowhere new, or when ranking fails.
  ghost predicate Concludes(remote: Remote, onlyWithMetadata: bool, hops: nat, query: set<Node>, log: seq<Request>,
      ranks: seq<Relations>, r: Result<Relations, Error>)
  {
    if |log| == |ranks| then
      && r == Ok(Last(ranks))
      && (|log| < hops ==> if ranks == [] then query == {} else forall n :: OtherEnd(Last(ranks), n) ==>
        n in Explored(log))
    else
      log != [] &&
      var hop, req, heard := |log| - 1, log[|log| - 1], Heard(remote, log);
      var gathered := Gathered(remote, onlyWithMetadata, hop, req, Last(ranks));
      if heard.None? then r == Err(NoGraphResponse)
      else if !Leads(heard.value, req) then r == Ok(gathered)
      else remote.rank(hop, gathered).None? && r == Ok(map[])
  }

  // What the story says of the state at the start of a hop.
  ghost predicate Told(hop: nat, hops: nat, query: set<Node>, remote: Remote, onlyWithMetadata: bool, s: State) {
    && |s.log| == hop && |s.ranks| == hop && s.explored == Explored(s.log)
    && s.relations == Last(s.ranks) && s.response == Heard(remote, s.log)
    && Tells(remote, onlyWithMetadata, hops, query, s.log, s.ranks)
  }

  lemma FrontierExact(relations: Relations, explored: set<Node>)
    requires forall ent, rel :: ent in relations && rel in relations[ent] ==> rel.entityType == ENTITY
    ensures forall n :: n in NextFrontier(relations, explored) <==> OtherEnd(relations, n) && n !in explored
  {
    forall n | OtherEnd(relations, n) && n !in explored ensures n in NextFrontier(relations, explored) {
      var ent, rel :| ent in relations && rel in relations[ent] && n == Node(ENTITY, rel.entitySubtype, rel.entity);
      var k :| 0 <= k < |relations[ent]| && relations[ent][k] == rel;
    }
    forall n | n in NextFrontier(relations, explored) ensures OtherEnd(relations, n) && n !in explored {
      var ent, k :| ent in relations && 0 <= k < |relations[ent]|
        && Node(relations[ent][k].entityType, relations[ent][k].entitySubtype, relations[ent][k].entity) !in explored
        && n == Node(ENTITY, relations[ent][k].entitySubtype, relations[ent][k].entity);
      assert relations[ent][k] in relations[ent];
    }
  }

  lemma DiscoveredLeads(paths: seq<Path>, req: Request)
    ensures Discovered(paths, req.frontier, req.known) == {} <==> !Leads(paths, req)
  {
    var found := Discovered(paths, req.frontier, req.known);
    if Leads(paths, req) {
      var i :| 0 <= i < |paths| &&
        (paths[i].source !in req.frontier + req.known || paths[i].destination !in req.frontier + req.known);
      assert paths[i].source in found || paths[i].destination in found;
    }
  }

  // A further request, then a further ranking, go on with the story.
  lemma TellsRequest(remote: Remote, onlyWithMetadata: bool, hops: nat, query: set<Node>, log: seq<Request>,
      ranks: seq<Relations>, req: Request)
    requires Tells(remote, onlyWithMetadata, hops, query, log, ranks) && |log| == |ranks| < hops
    requires Asks(query, req, ranks) && req.known == Explored(log)
    ensures Tells(remote, onlyWithMetadata, hops, query, log + [req], ranks)
  {
    hide Asks, Finishes, Explored;
    var log' := log + [req];
    forall j | 0 <= j < |log'| ensures Asks(query, log'[j], ranks[..j]) && log'[j].known == Explored(log'[..j]) {
      assert log'[..j] == log[..j];
      if j == |log| {
        assert log[..j] == log && ranks[..j] == ranks;
      }
    }
    forall j | 0 <= j < |ranks|
      ensures Finishes(remote, onlyWithMetadata, log'[..j + 1], Last(ranks[..j]), ranks[j])
    {
      assert log'[..j + 1] == log[..j + 1];
    }
  }

  lemma TellsRank(remote: Remote, onlyWithMetadata: bool, hops: nat, query: set<Node>, log: seq<Request>,
      ranks: seq<Relations>, after: Relations)
    requires Tells(remote, onlyWithMetadata, hops, query, log, ranks) && |log| == |ranks| + 1
    requires Finishes(remote, onlyWithMetadata, log, Last(ranks), after)
    ensures Tells(remote, onlyWithMetadata, hops, query, log, ranks + [after])
  {
    hide Asks, Finishes, Explored, Last;
    var ranks' := ranks + [after];
    assert forall j :: 0 <= j < |log| ==> ranks'[..j] == ranks[..j];
    RanksFinish(remote, onlyWithMetadata, hops, query, log, ranks, after);
  }

  lemma RanksFinish(remote: Remote, onlyWithMetadata: bool, hops: nat, query: set<Node>, log: seq<Request>,
      ranks: seq<Relations>, after: Relations)
    requires Tells(remote, onlyWithMetadata, hops, query, log, ranks) && |log| == |ranks| + 1
    requires Finishes(remote, onlyWithMetadata, log, Last(ranks), after)
    ensures var ranks' := ranks + [after];
      forall j :: 0 <= j < |ranks'| ==>
        Finishes(remote, onlyWithMetadata, log[..j + 1], Last(ranks'[..j]), ranks'[j])
  {
    hide Asks, Finishes, Explored, Last;
    var ranks' := ranks + [after];
    assert ranks'[..|ranks|] == ranks && ranks[..|ranks|] == ranks && log[..|ranks| + 1] == log;
    forall j | 0 <= j < |ranks'|
      ensures Finishes(remote, onlyWithMetadata, log[..j + 1], Last(ranks'[..j]), ranks'[j])
    {
      if j < |ranks| {
        assert ranks'[..j] == ranks[..j] && ranks'[j] == ranks[j];
      }
    }
  }

  lemma SearchedGathers(hop: nat, frontier: set<Node>, remote: Remote, onlyWithMetadata: bool, s: State)
    requires |s.log| == hop && s.relations == Last(s.ranks) && s.response == Heard(remote, s.log)
    ensures var s', req := Searched(hop, frontier, remote, onlyWithMetadata, s), Request(frontier, s.explored);
      && s'.log == s.log + [req] && s'.ranks == s.ranks && s'.response == Heard(remote, s'.log)
      && s'.relations == Gathered(remote, onlyWithMetadata, hop, req, Last(s.ranks))
  {
    hide Merged, Values, EdgesOf, Last;
    var log := s.log + [Request(frontier, s.explored)];
    assert log[..hop] == s.log && log[hop] == Request(frontier, s.explored);
  }

  lemma FrontierAsks(hop: nat, query: set<Node>, s: State)
    requires |s.ranks| == hop && s.relations == Last(s.ranks)
    requires RelationsNear(s.relations, s.edges, Values(query), Reach(hop))
    ensures var frontier := Frontier(hop, query, s.relations, s.explored);
      && (frontier != {} ==> Asks(query, Request(frontier, s.explored), s.ranks))
      && (frontier == {} ==> if hop == 0 then query == {} else forall n :: OtherEnd(Last(s.ranks), n) ==>
        n in s.explored)
  {
    hide OtherEnd, Within, Values, Adjacent;
    if hop > 0 {
      FrontierExact(s.relations, s.explored);
    }
    hide NextFrontier, RelationsNear;
  }

  // Whatever the services answer, nothing in reach is left out: each hop asks about all the other
  // ends, of relations in either direction, that have not been explored; and it stops early for
  // no other reason than those above.
  lemma {:induction false} JourneyTells(hop: nat, hops: nat, query: set<Node>, remote: Remote,
      onlyWithMetadata: bool, s: State)
    requires RemoteOk(remote) && hop <= hops && OnTheWay(hop, query, s)
    requires Told(hop, hops, query, remote, onlyWithMetadata, s)
    requires forall n :: n in query ==> n.ntype == ENTITY
    ensures var out := Journey(hop, hops, query, remote, onlyWithMetadata, s);
      && Tells(remote, onlyWithMetadata, hops, query, out.1.log, out.1.ranks)
      && Concludes(remote, onlyWithMetadata, hops, query, out.1.log, out.1.ranks, out.0)
    decreases hops - hop
  {
    hide Within, RelationsNear, NextFrontier, Discovered, Values, EntityPaths, EdgesOf, LogExplores, Explored,
      Searched, Tells, Leads, Heard, Gathered, Asks, Last, OtherEnd, Frontier;
    var frontier := Frontier(hop, query, s.relations, s.explored);
    FrontierAsks(hop, query, s);
    NoneLast(s.ranks);
    if hop < hops && frontier != {} {
      SearchedNear(hop, frontier, query, remote, onlyWithMetadata, s);
      SearchedGathers(hop, frontier, remote, onlyWithMetadata, s);
      var s' := Searched(hop, frontier, remote, onlyWithMetadata, s);
      var req := Request(frontier, s.explored);
      TellsRequest(remote, onlyWithMetadata, hops, query, s.log, s.ranks, req);
      if s'.response.Some? {
        DiscoveredLeads(s'.response.value, req);
        var ranked := remote.rank(hop, s'.relations);
        if ranked.Some? && Discovered(s'.response.value, frontier, s.explored) != {} {
          RankedNear(ranked.value.0, s'.relations, s'.edges, Values(query), hop);
          TellsRank(remote, onlyWithMetadata, hops, query, s'.log, s'.ranks, ranked.value.0);
          RanksGrow(s'.ranks, ranked.value.0);
          JourneyTells(hop + 1, hops, query, remote, onlyWithMetadata, Ranked(s', ranked.value, s.explored + frontier));
        }
      }
    }
  }

  lemma RanksGrow(ranks: seq<Relations>, after: Relations)
    ensures Last(ranks + [after]) == after
  {
  }

  lemma NoneLast(ranks: seq<Relations>)
    ensures ranks == [] ==> Last(ranks) == map[]
  {
  }

  // ----- relations and their scores -----

  // What the search of a hop leaves to be scored: nothing, or the merged entities.
  lemma SearchedScores(hop: nat, frontier: set<Node>, remote: Remote, onlyWithMetadata: bool, s: State)
    requires Parallel(s.relations, s.scores) && !s.unranked
    ensures var s' := Searched(hop, frontier, remote, onlyWithMetadata, s);
      && s'.scores == s.scores && |s'.log| == |s.log| + 1 && s'.log[|s.log|].frontier == frontier
      && (!s'.unranked ==> Parallel(s'.relations, s'.scores))
      && (s'.unranked ==> (Parallel(s'.relations, s'.scores) <==> Covered(frontier, s'.relations, s'.scores)))
  {
    hide Merged, EdgesOf, Values;
    MergedThere(hop, frontier, remote, onlyWithMetadata, s);
  }

  // Every entity of the frontier was scored before, with as many relations as it has now.
  ghost predicate Covered(frontier: set<Node>, relations: Relations, scores: Scores) {
    forall v :: v in Values(frontier) ==> v in relations && v in scores && |relations[v]| == |scores[v]|
  }

  lemma MergedThere(hop: nat, frontier: set<Node>, remote: Remote, onlyWithMetadata: bool, s: State)
    ensures var s' := Searched(hop, frontier, remote, onlyWithMetadata, s);
      && (!s'.unranked ==> s'.unranked == s.unranked || s'.relations == s.relations)
      && (s'.unranked && !s.unranked ==>
            && s'.relations.Keys == s.relations.Keys + Values(frontier)
            && forall v :: v in s.relations && v !in Values(frontier) ==> s'.relations[v] == s.relations[v])
  {
    hide EdgesOf, Values;
  }

  // Left unranked, the scores are those of the hop before, and none at all after a single hop.
  ghost predicate ScoresLeft(r: Relations, s: State) {
    && (!s.unranked ==> Parallel(r, s.scores))
    && (s.unranked ==> s.log != [] && (Parallel(r, s.scores) <==> Covered(s.log[|s.log| - 1].frontier, r, s.scores)))
    && (s.unranked && |s.log| == 1 ==> s.scores == map[] && !Parallel(r, s.scores))
  }

  // The relations an exploration ends with have a score each exactly unless it stops, right after
  // merging a hop's relations, because the hop discovered no further entity, and one of the
  // entities just merged has not got as many scores as relations from the hop before.
  lemma {:induction false} JourneyScores(hop: nat, hops: nat, query: set<Node>, remote: Remote,
      onlyWithMetadata: bool, s: State)
    requires RemoteOk(remote) && Parallel(s.relations, s.scores) && !s.unranked && |s.log| == hop
    requires hop == 0 ==> s.scores == map[]
    ensures var out := Journey(hop, hops, query, remote, onlyWithMetadata, s);
      out.0.Ok? ==> ScoresLeft(out.0.value, out.1)
    decreases hops - hop
  {
    hide NextFrontier, Discovered, Values, EntityPaths, EdgesOf, Searched, Covered, Parallel;
    var frontier := Frontier(hop, query, s.relations, s.explored);
    if hop < hops && frontier != {} {
      var s' := Searched(hop, frontier, remote, onlyWithMetadata, s);
      SearchedScores(hop, frontier, remote, onlyWithMetadata, s);
      NothingParallel();
      if s'.response.Some? && Discovered(s'.response.value, frontier, s.explored) == {} {
        if hop == 0 {
          NothingCovered(frontier, s'.relations);
        }
      } else if s'.response.Some? {
        var ranked := remote.rank(hop, s'.relations);
        if ranked.Some? {
          JourneyScores(hop + 1, hops, query, remote, onlyWithMetadata,
            Ranked(s', ranked.value, s.explored + frontier));
        }
      }
    }
  }

  lemma NothingParallel()
    ensures Parallel(map[], map[])
  {
  }

  lemma NothingCovered(frontier: set<Node>, relations: Relations)
    requires frontier != {}
    ensures !Covered(frontier, relations, map[])
  {
    var n :| n in frontier;
    assert n.value in Values(frontier);
  }

  // Two entities of the query joined by one path.
  function JoinedPath(a: Node, b: Node, name: string, m: Metadata): Path { Path(a, name, b, Some(m)) }

  function JoinedRemote(p: Path, rank: (nat, Relations) -> Option<(Relations, Scores)>): Remote {
    Remote((_, _, _) => Some([p]), rank)
  }

  function Begin(): State { State(map[], map[], false, {}, None, [], [], {}) }

  // It is all the search finds, so the loop is left at once: the relation is there, its score is
  // not, whatever the ranking would have been.
  lemma JoinedUnscored(a: Node, b: Node, name: string, m: Metadata, hops: nat, onlyWithMetadata: bool,
                       rank: (nat, Relations) -> Option<(Relations, Scores)>)
    requires a.value != b.value && m.fieldResource.Some? && hops > 0
    ensures var remote := JoinedRemote(JoinedPath(a, b, name, m), rank);
      var out := Journey(0, hops, {a, b}, remote, onlyWithMetadata, Begin());
      && out.0 == Ok(map[a.value := [Directed(b, name, OUT, Some(m), m.fieldResource.value)], b.value := []])
      && out.1.scores == map[] && !Parallel(out.0.value, out.1.scores)
  {
    var p := JoinedPath(a, b, name, m);
    var frontier := {a, b};
    assert a in frontier && b in frontier;
    assert Values(frontier) == {a.value, b.value};
    JoinedMerged(p, Values(frontier), onlyWithMetadata);
    assert Discovered([p], frontier, {}) == {};
    hide Values, Merged, Discovered, EdgesOf;
    var relations := map[a.value := [Directed(b, name, OUT, Some(m), m.fieldResource.value)], b.value := []];
    assert map[] + relations == relations;
    assert a.value in relations.Keys && relations.Keys != {};
  }

  lemma JoinedMerged(p: Path, entries: set<string>, onlyWithMetadata: bool)
    requires p.metadata.Some? && p.metadata.value.fieldResource.Some? && p.source.value != p.destination.value
    requires entries == {p.source.value, p.destination.value}
    ensures Merged([p], entries, onlyWithMetadata) == Some(map[
      p.source.value := [Directed(p.destination, p.name, OUT, p.metadata, p.metadata.value.fieldResource.value)],
      p.destination.value := []])
  {
    assert [p][..0] == [];
    var none: seq<Relation> := [];
    var before := Merged([p][..0], entries, onlyWithMetadata);
    assert before.Some? && before.value == map[p.source.value := none, p.destination.value := none];
    assert ResourceAt([p]) == p.metadata.value.fieldResource;
    var rel := Directed(p.destination, p.name, OUT, p.metadata, p.metadata.value.fieldResource.value);
    assert none + [rel] == [rel];
    assert before.value[p.source.value := none + [rel]] == map[p.source.value := [rel], p.destination.value := none];
  }

  // All of it, for an exploration from the start.
  lemma JourneyEnds(hops: nat, query: set<Node>, remote: Remote, onlyWithMetadata: bool)
    requires RemoteOk(remote) && forall n :: n in query ==> n.ntype == ENTITY
    ensures var (r, s) := Journey(0, hops, query, remote, onlyWithMetadata, Begin());
      && (r.Ok? ==> ScoresLeft(r.value, s) && RelationsNear(r.value, s.edges, Values(query), hops))
      && |s.log| <= hops && LogExplores(s.log, Values(query), s.edges) && (s.log != [] ==> s.log[0].frontier == query)
      && Tells(remote, onlyWithMetadata, hops, query, s.log, s.ranks)
      && Concludes(remote, onlyWithMetadata, hops, query, s.log, s.ranks, r)
  {
    JourneyTells(0, hops, query, remote, onlyWithMetadata, Begin());
    JourneyArrives(0, hops, query, remote, onlyWithMetadata, Begin());
    JourneyScores(0, hops, query, remote, onlyWithMetadata, Begin());
    hide Journey, LogExplores, RelationsNear, Values, ScoresLeft, Tells, Concludes;
  }

  // The hop loop.  `log` records the graph queries that were sent, one for each hop reached;
  // `edges` is every edge the service returned.
  method Explore(hops: nat, query: set<Node>, remote: Remote, onlyWithMetadata: bool)
    returns (r: Result<Relations, Error>, scores: Scores, log: seq<Request>, ranks: seq<Relations>, edges: Edges)
    requires RemoteOk(remote)
    requires forall n :: n in query ==> n.ntype == ENTITY
    ensures var out := Journey(0, hops, query, remote, onlyWithMetadata, Begin());
            r == out.0 && (r.Ok? ==> scores == out.1.scores && ScoresLeft(r.value, out.1)) && log == out.1.log &&
              ranks == out.1.ranks && edges == out.1.edges
    ensures |log| <= hops && LogExplores(log, Values(query), edges)
    ensures log != [] ==> log[0].frontier == query
    ensures r.Ok? ==> RelationsNear(r.value, edges, Values(query), hops)
    ensures Tells(remote, onlyWithMetadata, hops, query, log, ranks)
    ensures Concludes(remote, onlyWithMetadata, hops, query, log, ranks, r)
  {
    hide LogExplores, RelationsNear, Values, NextFrontier, Discovered, EdgesOf, ScoresLeft, Tells, Concludes, RemoteOk;
    var s := Begin();
    JourneyEnds(hops, query, remote, onlyWithMetadata);
    for hop := 0 to hops
      invariant Journey(hop, hops, query, remote, onlyWithMetadata, s) ==
        Journey(0, hops, query, remote, onlyWithMetadata, Begin())
    {
      var frontier := Frontier(hop, query, s.relations, s.explored);
      if frontier == {} {
        return Ok(s.relations), s.scores, s.log, s.ranks, s.edges;
      }
      var known := s.explored;
      s := Search(hop, frontier, remote, onlyWithMetadata, s);
      if s.response.None? {
        return Err(NoGraphResponse), s.scores, s.log, s.ranks, s.edges;
      }
      if Discovered(s.response.value, frontier, known) == {} {
        return Ok(s.relations), s.scores, s.log, s.ranks, s.edges;
      }
      var ranked := remote.rank(hop, s.relations);
      if ranked.None? {
        return Ok(map[]), map[], s.log, s.ranks, s.edges;
      }
      s := s.(relations := ranked.value.0, scores := ranked.value.1, unranked := false, explored := known + frontier,
        ranks := s.ranks + [ranked.value.0]);
    }
    return Ok(s.relations), s.scores, s.log, s.ranks, s.edges;
  }

  method Search(hop: nat, frontier: set<Node>, remote: Remote, onlyWithMetadata: bool, s: State) returns (s': State)
    ensures s' == Searched(hop, frontier, remote, onlyWithMetadata, s)
  {
    hide Values, EdgesOf, Merged;
    s' := s.(log := s.log + [Request(frontier, s.explored)]);
    var found := remote.search(hop, frontier, s.explored);
    if found.None? {
      return;
    }
    s' := s'.(response := found, edges := s.edges + EdgesOf(found.value));
    var merged := MergeRelations(found.value, frontier, onlyWithMetadata);
    s' := s'.(unranked := merged.Some?);
    if merged.Some? {
      s' := s'.(relations := s.relations + merged.value);
    }
  }
}
