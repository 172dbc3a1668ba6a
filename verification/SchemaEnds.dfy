// When the normaliser of src/nucliadb_agentic_api/utils.py returns at all.
//
// A cycle of schemas is not only one of sub-schemas: inlining a reference makes the sub-schemas of
// the target those of the node that held it.  On documents without `allOf` that load, a run from a
// node that can always go on to another such node ends at no bound; together with NormaliseEnds of
// SchemaRuns that decides, from the graph of the document as given, whether the normaliser returns.
module SchemaEnds {
  import opened Basics
  import opened StrictSchema
  import opened SchemaRuns
  import RefGraph
  import Text

  // ----- what any call keeps, ranked or not -----

  // A document without `allOf` on which nothing is raised.
  ghost predicate Start(e: Env, s: State, p: Plan) {
    Fresh(s) && Lists(e.order) && p.root == e.root && p.allOfFree && p.loadable && Sound(s.heap, p)
  }

  ghost predicate RefsLeft(h: Heap, h': Heap, xs: set<Id>) {
    forall x :: x in xs && x in h && x in h' ==> Get(h'[x], DollarRef) == Get(h[x], DollarRef)
  }

  // From s to s' everything promised of the document is kept, and no reference in xs is inlined.
  ghost predicate Safe(s: State, s': State, p: Plan, xs: set<Id>) {
    && Fresh(s') && Sound(s'.heap, p) && Fixed(s.heap, s'.heap, p) && Evolves(s.heap, s'.heap, p)
    && RefsLeft(s.heap, s'.heap, xs)
  }

  ghost predicate EndsSafe(r: Run, s: State, p: Plan, xs: set<Id>) {
    !r.Raised? && (r.Returned? ==> Safe(s, r.state, p, xs))
  }

  lemma SafeRefl(s: State, p: Plan, xs: set<Id>)
    requires Fresh(s) && Sound(s.heap, p)
    ensures Safe(s, s, p, xs)
  {
    EvolvesRefl(s.heap, p);
  }

  lemma SafeTrans(s0: State, s1: State, s2: State, p: Plan, xs: set<Id>)
    requires Sound(s0.heap, p) && p.allOfFree && Safe(s0, s1, p, xs) && Safe(s1, s2, p, xs)
    ensures Safe(s0, s2, p, xs)
  {
    hide Sound, Evolves;
    EvolvesTrans(s0.heap, s1.heap, s2.heap, p);
  }

  // One in-place change to d.
  lemma EditSafe(s: State, s': State, p: Plan, d: Id, xs: set<Id>)
    requires Sound(s.heap, p) && p.allOfFree && Fresh(s') && Edit(s.heap, s'.heap, p, d, {})
    requires RefsLeft(s.heap, s'.heap, xs)
    ensures Safe(s, s', p, xs)
  {
    EditSound(s.heap, s'.heap, p, d, {});
    EditEvolves(s.heap, s'.heap, p, d);
    hide Sound, Evolves, AnchorsKept;
  }

  lemma EditEvolves(h: Heap, h': Heap, p: Plan, d: Id)
    requires Sound(h, p) && p.allOfFree && Edit(h, h', p, d, {})
    ensures Evolves(h, h', p)
  {
    hide Sound, KidsOk, AnchorsKept, GuardKept, KeysKept, LoadOk, DoneOk, Evolved, SameSubs;
    forall x | x in p.nodes ensures Evolved(h, h', p, x) {
      NodeTables(h, p, x);
      if x != d {
        SameEvolved(h, h', p, d, x);
      }
    }
  }

  lemma SameEvolved(h: Heap, h': Heap, p: Plan, d: Id, x: Id)
    requires Local(h, h', p, d) && x in p.nodes && x != d && TableOk(h, p, Get(h[x], Properties))
    ensures Evolved(h, h', p, x)
  {
    hide NoDangling, Walk, RefPath;
  }

  lemma NoneClosed(h: Heap, p: Plan)
    requires Sound(h, p)
    ensures Closed(h, p, {})
  {
  }

  // ----- sub-schemas do not go away -----

  // Some dictionary in xs is visited through keyword k of x.
  ghost predicate Feeds(h: Heap, x: Id, k: Key, xs: set<Id>)
    requires x in h
  {
    exists y :: y in xs && Via(h, h[x], k, y)
  }

  // What is taken over, or kept, is visited as before: its table may be a new one with the same entries.
  lemma CarriedVia(h: Heap, h': Heap, p: Plan, from: Object, o: Object, o': Object, k: Key, y: Id)
    requires Carries(h, h', from, o, o') && k !in o && k != AllOf && Via(h, from, k, y)
    requires TableOk(h, p, Get(from, Definitions)) && Fixed(h, h', p)
    ensures Via(h', o', k, y)
  {
    hide AnchorsKept;
    assert k in from;
    if k == Properties {
      var n :| n in h[from[Properties].id] && h[from[Properties].id][n] == Dict(y);
      assert h'[o'[Properties].id][n] == Dict(y);
    }
  }

  lemma ViaKept(h: Heap, h': Heap, p: Plan, x: Id, k: Key, y: Id)
    requires Sound(h, p) && p.allOfFree && Fixed(h, h', p) && Evolves(h, h', p) && x in p.nodes
    requires Via(h, h[x], k, y)
    ensures Via(h', h'[x], k, y)
  {
    hide Guarded, RefOk, AnchorsKept, Via;
    assert NodeOk(h, p, x) && Evolved(h, h', p, x);
    AllOfVia(h, h[x], y);
    CarriedVia(h, h', p, h[x], map[], h'[x], k, y);
  }

  lemma AllOfVia(h: Heap, o: Object, y: Id)
    ensures AllOf !in o ==> !Via(h, o, AllOf, y)
  {
  }

  lemma FeedsKept(h: Heap, h': Heap, p: Plan, x: Id, k: Key, xs: set<Id>)
    requires Sound(h, p) && p.allOfFree && Fixed(h, h', p) && Evolves(h, h', p) && x in p.nodes && x in h'
    ensures Feeds(h, x, k, xs) ==> Feeds(h', x, k, xs)
  {
    hide Sound, Fixed, Evolves, Via;
    assert x in h by {
      RootNode(h, p);
    }
    forall y | y in xs && Via(h, h[x], k, y) ensures Via(h', h'[x], k, y) {
      ViaKept(h, h', p, x, k, y);
    }
  }

  // ----- a set of nodes that can always go on within itself -----

  ghost predicate Onward(h: Heap, p: Plan, x: Id, xs: set<Id>)
    requires x in h
  {
    exists y :: y in xs && (IsKid(h, x, y) || Inherits(h, p, x, y))
  }

  ghost predicate Trap(h: Heap, p: Plan, xs: set<Id>) {
    && xs <= p.nodes && p.nodes <= h.Keys
    && forall x :: x in xs ==> Onward(h, p, x, xs)
  }

  lemma OwnOnward(h: Heap, h': Heap, p: Plan, x: Id, y: Id, xs: set<Id>)
    requires Sound(h, p) && p.allOfFree && Fixed(h, h', p) && Evolves(h, h', p) && x in p.nodes && x in h'
    requires y in xs && IsKid(h, x, y)
    ensures Onward(h', p, x, xs)
  {
    hide Sound, Fixed, Evolves, Via;
    assert x in h by {
      RootNode(h, p);
    }
    var k :| Via(h, h[x], k, y);
    ViaKept(h, h', p, x, k, y);
    assert IsKid(h', x, y);
  }

  // The reference is still there, and names what it named.
  lemma StillInherits(h: Heap, h': Heap, p: Plan, x: Id, t: Id, k: Key, y: Id)
    requires Sound(h, p) && p.allOfFree && Fixed(h, h', p) && Evolves(h, h', p) && x in p.nodes && x in h'
    requires Target(h, p.root, x) == Some(t) && k !in h[x] && Via(h, h[t], k, y)
    requires Get(h'[x], DollarRef) == Get(h[x], DollarRef)
    ensures Inherits(h', p, x, y)
  {
    hide Sound, Fixed, Evolves, Via, Target, Lends, OwnKept, Carries, TableOk;
    NodeAllOfFree(h, p, x);
    RefStable(h, h', p, x);
    TargetKept(h, h', p, x, t);
    TargetLends(h, p, x, t);
    LendsDefinitions(h, p, x, t);
    AllOfVia(h, h[t], y);
    KeptVia(h, h', p, h[t], h'[t], k, y);
    NewKeys(h, h', p, x, k);
    NoVia(h, h[t], k, y);
  }

  lemma LendsDefinitions(h: Heap, p: Plan, x: Id, t: Id)
    requires x in h && t in h && Lends(h, p, x, t)
    ensures TableOk(h, p, Get(h[t], Definitions))
  {
  }

  lemma KeptVia(h: Heap, h': Heap, p: Plan, o: Object, o': Object, k: Key, y: Id)
    requires OwnKept(h, h', o, o') && k != AllOf && Via(h, o, k, y)
    requires TableOk(h, p, Get(o, Definitions)) && Fixed(h, h', p)
    ensures Via(h', o', k, y)
  {
    CarriedVia(h, h', p, o, map[], o', k, y);
  }

  lemma NoVia(h: Heap, o: Object, k: Key, y: Id)
    ensures Via(h, o, k, y) ==> k !in {Required, AdditionalProperties}
  {
  }

  lemma NewKeys(h: Heap, h': Heap, p: Plan, x: Id, k: Key)
    requires Evolves(h, h', p) && x in p.nodes && k !in h[x] && Get(h'[x], DollarRef) == Get(h[x], DollarRef)
    ensures k in h'[x] ==> k in {Required, AdditionalProperties}
  {
    assert Evolved(h, h', p, x);
  }

  // The reference has been inlined since.
  lemma NowOwn(h: Heap, h': Heap, p: Plan, x: Id, t: Id, k: Key, y: Id)
    requires Sound(h, p) && p.allOfFree && Fixed(h, h', p) && Evolves(h, h', p) && x in p.nodes && x in h'
    requires Target(h, p.root, x) == Some(t) && t in h && k !in h[x] && Via(h, h[t], k, y)
    requires Get(h'[x], DollarRef) != Get(h[x], DollarRef)
    ensures IsKid(h', x, y)
  {
    hide Walk, RefPath, Guarded;
    TargetLends(h, p, x, t);
    AllOfVia(h, h[t], y);
    assert Evolved(h, h', p, x);
    CarriedVia(h, h', p, h[t], h[x], h'[x], k, y);
  }

  lemma TrapKept(h: Heap, h': Heap, p: Plan, xs: set<Id>)
    requires Sound(h, p) && p.allOfFree && Fixed(h, h', p) && Evolves(h, h', p) && Trap(h, p, xs)
    ensures Trap(h', p, xs)
  {
    hide Sound, Fixed, Via, Evolved, Target;
    forall x | x in xs ensures Onward(h', p, x, xs) {
      var y :| y in xs && (IsKid(h, x, y) || Inherits(h, p, x, y));
      if IsKid(h, x, y) {
        OwnOnward(h, h', p, x, y, xs);
      } else {
        InheritsOnward(h, h', p, x, y, xs);
      }
    }
  }

  lemma InheritsOnward(h: Heap, h': Heap, p: Plan, x: Id, y: Id, xs: set<Id>)
    requires Sound(h, p) && p.allOfFree && Fixed(h, h', p) && Evolves(h, h', p) && x in p.nodes && x in h'
    requires y in xs && x in h && Inherits(h, p, x, y)
    ensures Onward(h', p, x, xs)
  {
    hide Sound, Fixed, Via, Evolves, Target;
    var t := Target(h, p.root, x).value;
    var k :| (k !in h[x] || k == AllOf) && Via(h, h[t], k, y);
    TargetKept(h, h', p, x, t);
    AllOfVia(h, h[t], y);
    NodeAllOfFree(h, p, x);
    if Get(h'[x], DollarRef) == Get(h[x], DollarRef) {
      StillInherits(h, h', p, x, t, k, y);
    } else {
      NowOwn(h, h', p, x, t, k, y);
    }
  }

  lemma NodeAllOfFree(h: Heap, p: Plan, x: Id)
    requires Sound(h, p) && x in p.nodes
    ensures x in h && (p.allOfFree ==> AllOf !in h[x])
  {
    assert NodeOk(h, p, x);
  }

  // ----- a run either keeps all that, or has no end -----

  // What a step of d leaves: nothing raised, everything kept, and no end when it comes by xs.
  ghost predicate Goes(r: Run, s: State, p: Plan, xs: set<Id>, caught: bool) {
    EndsSafe(r, s, p, xs) && (caught ==> r.OutOfFuel?)
  }

  ghost predicate Held(e: Env, s: State, p: Plan, xs: set<Id>) {
    Start(e, s, p) && Trap(s.heap, p, xs)
  }

  lemma HeldLater(e: Env, s: State, s': State, p: Plan, xs: set<Id>)
    requires Held(e, s, p, xs) && Safe(s, s', p, xs)
    ensures Held(e, s', p, xs)
  {
    hide Sound, Fixed, Evolves, Lists, Trap;
    TrapKept(s.heap, s'.heap, p, xs);
  }

  lemma EachSafe(e: Env, fuel: nat, s: State, vs: seq<Json>, p: Plan, xs: set<Id>)
    requires Held(e, s, p, xs) && forall j :: j in vs ==> j.Dict? && j.id in p.nodes
    ensures Goes(VisitEach(e, fuel, s, vs), s, p, xs, exists y :: y in xs && Dict(y) in vs)
    decreases fuel, 6, |vs|
  {
    hide Visit, Held, Safe, Trap;
    HeldStart(e, s, p, xs);
    hide Sound, Lists;
    SafeRefl(s, p, xs);
    if vs != [] {
      assert vs[0] in vs;
      VisitSafe(e, fuel, s, vs[0], p, xs);
      var r1 := Visit(e, fuel, s, vs[0]);
      if r1.Returned? {
        HeldLater(e, s, r1.state, p, xs);
        EachSafe(e, fuel, r1.state, vs[1..], p, xs);
        var r := VisitEach(e, fuel, r1.state, vs[1..]);
        if r.Returned? {
          SafeTrans(s, r1.state, r.state, p, xs);
        }
      }
    }
  }

  lemma HeldStart(e: Env, s: State, p: Plan, xs: set<Id>)
    requires Held(e, s, p, xs)
    ensures Fresh(s) && Lists(e.order) && p.root == e.root && p.allOfFree && p.loadable && Sound(s.heap, p)
    ensures xs <= p.nodes && p.nodes <= s.heap.Keys
  {
  }

  lemma TableSafe(e: Env, fuel: nat, s: State, d: Id, k: Key, ks: seq<Key>, p: Plan, xs: set<Id>)
    requires Held(e, s, p, xs) && d in p.nodes && d in s.heap && k in {Definitions, Properties}
    requires var table := Get(s.heap[d], k); table.Dict? && table.id in s.heap && Listing(s.heap[table.id], ks)
    ensures Goes(VisitEach(e, fuel, s, ValuesOf(s.heap[Get(s.heap[d], k).id], ks)), s, p, xs, Feeds(s.heap, d, k, xs))
    decreases fuel, 7, 0
  {
    hide VisitEach, Held, EndsSafe, Trap, Listing, Via;
    HeldStart(e, s, p, xs);
    hide Sound, Lists;
    var table := Get(s.heap[d], k);
    KidsListed(s.heap, p, d, k, table, ks);
    var vs := ValuesOf(s.heap[table.id], ks);
    assert forall j :: j in vs ==> j.Dict? && KidOk(p, d, j.id);
    EachSafe(e, fuel, s, vs, p, xs);
  }

  lemma DefinitionsSafe(e: Env, fuel: nat, s: State, d: Id, p: Plan, xs: set<Id>)
    requires Held(e, s, p, xs) && d in p.nodes && d in s.heap && fuel > 0
    ensures Goes(InDefinitions(e, fuel, s, d), s, p, xs, Feeds(s.heap, d, Definitions, xs))
    decreases fuel, 1, 0
  {
    hide VisitEach, Held, Safe, Trap, Listing, Via;
    HeldStart(e, s, p, xs);
    hide Sound;
    TableThere(s.heap, p, d, Definitions);
    var table := Get(s.heap[d], Definitions);
    if table.Dict? {
      TableSafe(e, fuel - 1, s, d, Definitions, e.order(s.heap, table.id), p, xs);
    } else {
      NoTableVia(s.heap, s.heap[d], Definitions);
      SafeRefl(s, p, xs);
    }
  }

  lemma ClosedSafe(s: State, d: Id, p: Plan, xs: set<Id>)
    requires Fresh(s) && Sound(s.heap, p) && p.allOfFree && d in p.nodes && d in s.heap
    ensures Safe(s, ObjectClosed(s, d), p, xs)
  {
    hide Sound, Edit, Safe;
    SafeRefl(s, p, xs);
    if Get(s.heap[d], Type) == Str("object") && AdditionalProperties !in s.heap[d] {
      var s' := ObjectClosed(s, d);
      NoneClosed(s.heap, p);
      CloseEdit(s.heap, s'.heap, p, d, {});
      EditSafe(s, s', p, d, xs);
    }
  }

  lemma RequiredSafe(s: State, d: Id, ks: seq<Key>, p: Plan, xs: set<Id>)
    requires Fresh(s) && Sound(s.heap, p) && p.allOfFree && d in p.nodes && d in s.heap
    ensures Safe(s, RequiredListed(s, d, ks), p, xs)
  {
    hide Sound, Edit, Safe;
    var s' := RequiredListed(s, d, ks);
    NoneClosed(s.heap, p);
    RequireEdit(s.heap, s'.heap, p, d, {}, List(Names(ks)));
    EditSafe(s, s', p, d, xs);
  }

  // Whatever the visits did to d meanwhile, its property table has the entries it had.
  lemma RetabledSafe(s0: State, s: State, d: Id, source: Id, p: Plan, xs: set<Id>)
    requires Sound(s0.heap, p) && p.allOfFree && Safe(s0, s, p, xs) && d in p.nodes && d in s0.heap
    requires Get(s0.heap[d], Properties) == Dict(source) && source in s0.heap
    ensures Safe(s, Retabled(s, d, s0.heap[source]), p, xs)
  {
    hide Sound, Edit;
    var s' := Retabled(s, d, s0.heap[source]);
    SourceStill(s0, s, d, source, p, xs);
    hide Safe;
    NoneClosed(s.heap, p);
    RetableEdit(s.heap, s'.heap, p, d, {}, source, s.next);
    RootNode(s.heap, p);
    assert d in s.heap;
    EditSafe(s, s', p, d, xs);
  }

  lemma SourceStill(s0: State, s: State, d: Id, source: Id, p: Plan, xs: set<Id>)
    requires Sound(s0.heap, p) && Safe(s0, s, p, xs) && d in p.nodes && d in s0.heap
    requires Get(s0.heap[d], Properties) == Dict(source) && source in s0.heap
    ensures source in s.heap && s.heap[source] == s0.heap[source] && s.next !in s.heap && Fresh(s) && Sound(s.heap, p)
    ensures d in s.heap && var table := Get(s.heap[d], Properties);
      table.Dict? && table.id in s.heap && s.heap[table.id] == s.heap[source]
  {
    hide Guarded, NoDangling, Walk, RefPath;
    TableThere(s0.heap, p, d, Properties);
    assert Evolved(s0.heap, s.heap, p, d);
    hide Sound;
  }

  lemma PropertiesSafe(e: Env, fuel: nat, s: State, d: Id, p: Plan, xs: set<Id>)
    requires Held(e, s, p, xs) && d in p.nodes && d in s.heap && fuel > 0
    ensures Goes(InProperties(e, fuel, s, d), s, p, xs, Feeds(s.heap, d, Properties, xs))
    decreases fuel, 1, 0
  {
    hide VisitEach, Held, Safe, Trap, Listing, Via, RequiredListed, Retabled;
    HeldStart(e, s, p, xs);
    hide Sound;
    TableThere(s.heap, p, d, Properties);
    var table := Get(s.heap[d], Properties);
    if table.Dict? {
      TabledSafe(e, fuel - 1, s, d, table.id, e.order(s.heap, table.id), p, xs);
    } else {
      NoTableVia(s.heap, s.heap[d], Properties);
      SafeRefl(s, p, xs);
    }
  }

  lemma TabledSafe(e: Env, fuel: nat, s: State, d: Id, table: Id, ks: seq<Key>, p: Plan, xs: set<Id>)
    requires Held(e, s, p, xs) && d in p.nodes && d in s.heap && Get(s.heap[d], Properties) == Dict(table)
    requires table in s.heap && Listing(s.heap[table], ks)
    ensures var r := VisitEach(e, fuel, RequiredListed(s, d, ks), ValuesOf(s.heap[table], ks));
      && !r.Raised? && (Feeds(s.heap, d, Properties, xs) ==> r.OutOfFuel?)
      && (r.Returned? ==> Safe(s, Retabled(r.state, d, s.heap[table]), p, xs))
    decreases fuel, 8, 0
  {
    hide VisitEach, Held, Trap, Listing, Via, Retabled, Sound, Fixed, Evolves, Lists;
    HeldStart(e, s, p, xs);
    TableThere(s.heap, p, d, Properties);
    RequiredSafe(s, d, ks, p, xs);
    var s1 := RequiredListed(s, d, ks);
    HeldLater(e, s, s1, p, xs);
    FeedsKept(s.heap, s1.heap, p, d, Properties, xs);
    TableSafe(e, fuel, s1, d, Properties, ks, p, xs);
    var r := VisitEach(e, fuel, s1, ValuesOf(s.heap[table], ks));
    if r.Returned? {
      RetabledSafe(s1, r.state, d, table, p, xs);
      var s3 := Retabled(r.state, d, s.heap[table]);
      hide Safe, Feeds;
      SafeTrans(s, s1, r.state, p, xs);
      SafeTrans(s, r.state, s3, p, xs);
    }
  }

  lemma KeywordSafe(e: Env, fuel: nat, s: State, d: Id, k: Key, p: Plan, xs: set<Id>)
    requires Held(e, s, p, xs) && d in p.nodes && d in s.heap && fuel > 0 && k in {Items, OneOf, AnyOf}
    ensures Goes(InKeyword(e, fuel, s, d, k), s, p, xs, Feeds(s.heap, d, k, xs))
    decreases fuel, 1, 0
  {
    hide VisitEach, Held, Safe, Trap, Via, KidOk;
    HeldStart(e, s, p, xs);
    hide Sound;
    KeywordKids(s.heap, p, d, k);
    var v := Get(s.heap[d], k);
    var vs := SubSchemas(k, v);
    SafeRefl(s, p, xs);
    assert forall j :: j in vs ==> j.Dict? && KidOk(p, d, j.id);
    KidsAreNodes(p, d, vs);
    EachSafe(e, fuel - 1, s, vs, p, xs);
    var r := VisitEach(e, fuel - 1, s, vs);
    if k in s.heap[d] && r.Returned? {
      ValueStill(s, r.state, d, k, p, xs);
      PutSame(r.state, d, k);
    }
  }

  lemma KidsAreNodes(p: Plan, d: Id, vs: seq<Json>)
    requires forall j :: j in vs ==> j.Dict? && KidOk(p, d, j.id)
    ensures forall j :: j in vs ==> j.Dict? && j.id in p.nodes
  {
  }

  lemma ValueStill(s: State, s': State, d: Id, k: Key, p: Plan, xs: set<Id>)
    requires Safe(s, s', p, xs) && d in p.nodes && d in s.heap && k in s.heap[d] && k in {Items, OneOf, AnyOf}
    ensures d in s'.heap && k in s'.heap[d] && s'.heap[d][k] == s.heap[d][k]
  {
    hide Sound, Walk, RefPath;
    assert Evolved(s.heap, s'.heap, p, d);
  }

  lemma AllOfSafe(e: Env, fuel: nat, s: State, d: Id, p: Plan, xs: set<Id>)
    requires Held(e, s, p, xs) && d in p.nodes && d in s.heap && fuel > 0
    ensures InAllOf(e, fuel, s, d) == Returned(s)
  {
    hide VisitEach, Visit, Trap;
    NodeAllOfFree(s.heap, p, d);
  }

  lemma DroppedSafe(s: State, d: Id, p: Plan, xs: set<Id>)
    requires Fresh(s) && Sound(s.heap, p) && p.allOfFree && d in p.nodes && d in s.heap
    ensures Safe(s, DefaultDropped(s, d), p, xs)
  {
    hide Sound, Edit, Safe;
    SafeRefl(s, p, xs);
    if Default in s.heap[d] && s.heap[d][Default] == Null {
      var s' := DefaultDropped(s, d);
      NoneClosed(s.heap, p);
      DefaultEdit(s.heap, s'.heap, p, d, {});
      EditSafe(s, s', p, d, xs);
    }
  }

  lemma InlinedSafe(e: Env, s: State, d: Id, p: Plan, xs: set<Id>)
    requires Start(e, s, p) && d in p.nodes && d in s.heap && d !in xs && Get(s.heap[d], DollarRef) != Null
    ensures EndsSafe(RefInlined(e, s, d), s, p, xs) && RefInlined(e, s, d).Returned?
  {
    hide Sound, Edit, Safe, Target, Lends, RefInlined;
    RefThere(s.heap, p, d);
    InlineResolves(e, s, p, d);
    TargetStr(s.heap, p.root, d);
    var t := Target(s.heap, p.root, d).value;
    TargetLends(s.heap, p, d, t);
    var s' := RefInlined(e, s, d).state;
    NoneClosed(s.heap, p);
    InlineEdit(s.heap, s'.heap, p, d, t, {});
    EditSafe(s, s', p, d, xs);
  }

  // The steps below d, one after the other.
  lemma ThenSafe(e: Env, s: State, s1: State, r: Run, d: Id, k: Key, p: Plan, xs: set<Id>)
    requires Held(e, s, p, xs) && Safe(s, s1, p, xs) && d in p.nodes && d in s.heap && d in s1.heap
    requires Goes(r, s1, p, xs, Feeds(s1.heap, d, k, xs))
    ensures Goes(r, s, p, xs, Feeds(s.heap, d, k, xs))
  {
    hide Trap, Sound, Fixed, Evolves, Feeds, Lists;
    FeedsOn(s, s1, d, k, p, xs);
    if r.Returned? {
      SafeTrans(s, s1, r.state, p, xs);
    }
  }

  lemma FeedsOn(s: State, s1: State, d: Id, k: Key, p: Plan, xs: set<Id>)
    requires Sound(s.heap, p) && p.allOfFree && Safe(s, s1, p, xs) && d in p.nodes && d in s.heap && d in s1.heap
    ensures Feeds(s.heap, d, k, xs) ==> Feeds(s1.heap, d, k, xs)
  {
    hide Sound, Fixed, Evolves, Feeds;
    FeedsKept(s.heap, s1.heap, p, d, k, xs);
  }

  // Some keyword of d leads into xs.
  ghost predicate Fed(h: Heap, d: Id, xs: set<Id>)
    requires d in h
  {
    exists k :: Feeds(h, d, k, xs)
  }

  lemma UnionsSafe(e: Env, fuel: nat, s: State, d: Id, p: Plan, xs: set<Id>)
    requires Held(e, s, p, xs) && d in p.nodes && d in s.heap && fuel > 0
    ensures EndsSafe(Unions(e, fuel, s, d), s, p, xs)
    ensures forall k :: k in {Items, OneOf, AnyOf} && Feeds(s.heap, d, k, xs) ==> Unions(e, fuel, s, d).OutOfFuel?
    decreases fuel, 2, 0
  {
    hide Held, Safe, Feeds, InKeyword, InAllOf;
    KeywordSafe(e, fuel, s, d, Items, p, xs);
    var r1 := InKeyword(e, fuel, s, d, Items);
    if r1.Returned? {
      var s1 := r1.state;
      LaterThere(e, s, s1, d, p, xs);
      KeywordSafe(e, fuel, s1, d, OneOf, p, xs);
      var r2 := InKeyword(e, fuel, s1, d, OneOf);
      ThenSafe(e, s, s1, r2, d, OneOf, p, xs);
      if r2.Returned? {
        var s2 := r2.state;
        LaterThere(e, s, s2, d, p, xs);
        KeywordSafe(e, fuel, s2, d, AnyOf, p, xs);
        var r3 := InKeyword(e, fuel, s2, d, AnyOf);
        ThenSafe(e, s, s2, r3, d, AnyOf, p, xs);
        if r3.Returned? {
          LaterThere(e, s, r3.state, d, p, xs);
          AllOfSafe(e, fuel, r3.state, d, p, xs);
        }
      }
    }
  }

  lemma LaterThere(e: Env, s: State, s': State, d: Id, p: Plan, xs: set<Id>)
    requires Held(e, s, p, xs) && Safe(s, s', p, xs) && d in p.nodes
    ensures Held(e, s', p, xs) && d in s'.heap
  {
    hide Trap, NodeOk, Guarded, Fixed, Evolved, Lists;
    HeldLater(e, s, s', p, xs);
  }

  lemma BelowSafe(e: Env, fuel: nat, s: State, d: Id, p: Plan, xs: set<Id>)
    requires Held(e, s, p, xs) && d in p.nodes && d in s.heap && fuel > 0
    ensures Goes(Below(e, fuel, s, d), s, p, xs, Fed(s.heap, d, xs))
    decreases fuel, 3, 0
  {
    hide Held, Safe, Feeds, InDefinitions, InProperties, Unions, ObjectClosed;
    DefinitionsSafe(e, fuel, s, d, p, xs);
    var r1 := InDefinitions(e, fuel, s, d);
    if r1.Returned? {
      LaterThere(e, s, r1.state, d, p, xs);
      HeldStart(e, r1.state, p, xs);
      HeldStart(e, s, p, xs);
      hide Sound, Lists;
      ClosedSafe(r1.state, d, p, xs);
      var s1 := ObjectClosed(r1.state, d);
      SafeTrans(s, r1.state, s1, p, xs);
      LaterThere(e, s, s1, d, p, xs);
      PropertiesSafe(e, fuel, s1, d, p, xs);
      var r2 := InProperties(e, fuel, s1, d);
      ThenSafe(e, s, s1, r2, d, Properties, p, xs);
      if r2.Returned? {
        RestSafe(e, fuel, s, r2.state, d, p, xs);
      }
      FedBy(e, s, d, p, xs);
    } else {
      FedBy(e, s, d, p, xs);
    }
  }

  lemma RestSafe(e: Env, fuel: nat, s: State, s2: State, d: Id, p: Plan, xs: set<Id>)
    requires Held(e, s, p, xs) && d in p.nodes && d in s.heap && fuel > 0 && Safe(s, s2, p, xs)
    ensures EndsSafe(Unions(e, fuel, s2, d), s, p, xs)
    ensures forall k :: k in {Items, OneOf, AnyOf} && Feeds(s.heap, d, k, xs) ==> Unions(e, fuel, s2, d).OutOfFuel?
    decreases fuel, 2, 1
  {
    hide Held, Safe, Feeds, Unions;
    LaterThere(e, s, s2, d, p, xs);
    UnionsSafe(e, fuel, s2, d, p, xs);
    forall k | k in {Items, OneOf, AnyOf} && Feeds(s.heap, d, k, xs) ensures Unions(e, fuel, s2, d).OutOfFuel? {
      ThenSafe(e, s, s2, Unions(e, fuel, s2, d), d, k, p, xs);
    }
    var r := Unions(e, fuel, s2, d);
    HeldStart(e, s, p, xs);
    hide Sound, Lists;
    if r.Returned? {
      SafeTrans(s, s2, r.state, p, xs);
    }
  }

  lemma FedBy(e: Env, s: State, d: Id, p: Plan, xs: set<Id>)
    requires Held(e, s, p, xs) && d in p.nodes && d in s.heap
    ensures Fed(s.heap, d, xs) ==> exists k ::
      k in {Definitions, Properties, Items, OneOf, AnyOf} &&
      Feeds(s.heap, d, k, xs)
  {
    hide Trap, Lists;
    NodeAllOfFree(s.heap, p, d);
    hide Sound;
    forall k | Feeds(s.heap, d, k, xs) ensures k in {Definitions, Properties, Items, OneOf, AnyOf} {
      var y :| y in xs && Via(s.heap, s.heap[d], k, y);
      AllOfVia(s.heap, s.heap[d], y);
    }
  }

  // Called on any node, the normaliser keeps everything promised and inlines no reference of the
  // trap, or it does not end; called on a node of the trap, it does not end.
  lemma VisitSafe(e: Env, fuel: nat, s: State, v: Json, p: Plan, xs: set<Id>)
    requires Held(e, s, p, xs) && v.Dict? && v.id in p.nodes
    ensures Goes(Visit(e, fuel, s, v), s, p, xs, v.id in xs)
    decreases fuel, 4, 0
  {
    hide Held, Safe, Below, DefaultDropped, RefInlined, Fed, Trap;
    HeldStart(e, s, p, xs);
    hide Sound, Lists;
    var d := v.id;
    if fuel > 0 {
      BelowSafe(e, fuel, s, d, p, xs);
      var r1 := Below(e, fuel, s, d);
      if r1.Returned? {
        LaterThere(e, s, r1.state, d, p, xs);
        HeldStart(e, r1.state, p, xs);
        DroppedSafe(r1.state, d, p, xs);
        var s2 := DefaultDropped(r1.state, d);
        SafeTrans(s, r1.state, s2, p, xs);
        LaterThere(e, s, s2, d, p, xs);
        if d in xs {
          TrappedRef(e, s, s2, d, p, xs);
        }
        if Get(s2.heap[d], DollarRef) != Null {
          AgainSafe(e, fuel, s, s2, d, p, xs);
        }
      }
    }
  }

  // A trapped node that no keyword of its own leads on still has its reference.
  lemma TrappedRef(e: Env, s: State, s2: State, d: Id, p: Plan, xs: set<Id>)
    requires Held(e, s, p, xs) && Safe(s, s2, p, xs) && d in xs && d in s.heap && d in s2.heap && !Fed(s.heap, d, xs)
    ensures Get(s2.heap[d], DollarRef) != Null
  {
    hide Sound, Fixed, Evolves, Via, Lists, Walk;
    assert Onward(s.heap, p, d, xs);
    var y :| y in xs && (IsKid(s.heap, d, y) || Inherits(s.heap, p, d, y));
    assert forall k :: Via(s.heap, s.heap[d], k, y) ==> Feeds(s.heap, d, k, xs);
    TargetStr(s.heap, p.root, d);
  }

  // The reference of d inlined, and d visited again.
  lemma AgainSafe(e: Env, fuel: nat, s: State, s2: State, d: Id, p: Plan, xs: set<Id>)
    requires fuel > 0 && Held(e, s, p, xs) && Safe(s, s2, p, xs) && d in p.nodes && d in s2.heap &&
      Get(s2.heap[d], DollarRef) != Null
    ensures var r3 := RefInlined(e, s2, d);
      r3.Returned? && Goes(Visit(e, fuel - 1, r3.state, Dict(d)), s, p, xs, d in xs)
    decreases fuel, 0, 0
  {
    hide Safe, RefInlined, Visit, Trap, Sound, Lists;
    HeldLater(e, s, s2, p, xs);
    InlinedSafe(e, s2, d, p, xs - {d});
    var s3 := RefInlined(e, s2, d).state;
    InlinedHeld(e, s2, s3, d, p, xs);
    VisitSafe(e, fuel - 1, s3, Dict(d), p, xs);
    var r := Visit(e, fuel - 1, s3, Dict(d));
    if d !in xs && r.Returned? {
      SafeTrans(s, s2, s3, p, xs);
      SafeTrans(s, s3, r.state, p, xs);
    }
  }

  lemma InlinedHeld(e: Env, s2: State, s3: State, d: Id, p: Plan, xs: set<Id>)
    requires Held(e, s2, p, xs) && Safe(s2, s3, p, xs - {d})
    ensures Held(e, s3, p, xs) && (d !in xs ==> Safe(s2, s3, p, xs))
  {
    hide Sound, Fixed, Evolves, Trap, Lists;
    TrapKept(s2.heap, s3.heap, p, xs);
    assert d !in xs ==> xs - {d} == xs;
  }

  // ----- which documents the normaliser returns from -----

  // A document trapped at its root: no bound on the depth of calls is enough.
  lemma NoResult(e: Env, s: State, p: Plan, xs: set<Id>, fuel: nat)
    requires Held(e, s, p, xs) && p.root in xs
    ensures Visit(e, fuel, s, Dict(p.root)).OutOfFuel?
  {
    hide Trap, NodeOk, Guarded, Lists;
    VisitSafe(e, fuel, s, Dict(p.root), p, xs);
  }

  // A step the normaliser is bound to take: to a sub-schema of x, or to one that x takes over
  // because no keyword of its own overrides it.
  ghost predicate Takes(h: Heap, p: Plan, x: Id, y: Id)
    requires x in h
  {
    IsKid(h, x, y) || Inherits(h, p, x, y)
  }

  ghost function Moves(h: Heap, p: Plan): set<(Id, Id)>
    requires p.nodes <= h.Keys
  {
    set x, y | x in p.nodes && y in p.nodes && Takes(h, p, x, y) :: (x, y)
  }

  ghost predicate FromRoot(h: Heap, p: Plan, x: Id)
    requires p.nodes <= h.Keys
  {
    x == p.root || RefGraph.Reaches(Moves(h, p), p.root, x)
  }

  // Some cycle of bound steps can be got to from root.
  ghost predicate Loops(h: Heap, p: Plan)
    requires p.nodes <= h.Keys
  {
    exists x :: FromRoot(h, p, x) && RefGraph.Reaches(Moves(h, p), x, x)
  }

  // The nodes from which the cycle through z can be got to.
  ghost function Towards(h: Heap, p: Plan, z: Id): set<Id>
    requires p.nodes <= h.Keys
  {
    set x | x in p.nodes && (x == z || RefGraph.Reaches(Moves(h, p), x, z))
  }

  lemma TowardsTrap(h: Heap, p: Plan, z: Id)
    requires p.nodes <= h.Keys && RefGraph.Reaches(Moves(h, p), z, z)
    ensures Trap(h, p, Towards(h, p, z))
  {
    hide Inherits, IsKid;
    forall x | x in Towards(h, p, z)
      ensures Onward(h, p, x, Towards(h, p, z))
    {
      var y := RefGraph.FirstStep(Moves(h, p), x, z);
      assert (x, y) in Moves(h, p);
      assert Takes(h, p, x, y) && y in Towards(h, p, z);
    }
  }

  // A cycle got to from root: the normaliser does not return.
  lemma LoopsForever(e: Env, s: State, p: Plan, fuel: nat)
    requires Start(e, s, p) && Loops(s.heap, p)
    ensures Visit(e, fuel, s, Dict(p.root)).OutOfFuel?
  {
    RootNode(s.heap, p);
    hide Sound, Moves, Trap, Visit;
    var z :| FromRoot(s.heap, p, z) && RefGraph.Reaches(Moves(s.heap, p), z, z);
    TowardsTrap(s.heap, p, z);
    NoResult(e, s, p, Towards(s.heap, p, z), fuel);
  }

  // No target of a reference has a reference of its own.
  ghost predicate RefsEnd(h: Heap, p: Plan) {
    forall x :: x in p.nodes && x in h && Target(h, p.root, x).Some? ==>
      var t := Target(h, p.root, x).value; t in h && Get(h[t], DollarRef) == Null
  }

  ghost function Reached(h: Heap, p: Plan): set<Id>
    requires p.nodes <= h.Keys
  {
    set x | x in p.nodes && FromRoot(h, p, x)
  }

  lemma ReachedOn(h: Heap, p: Plan, x: Id, y: Id)
    requires p.nodes <= h.Keys && x in Reached(h, p) && y in p.nodes && Takes(h, p, x, y)
    ensures y in Reached(h, p)
  {
    assert (x, y) in Moves(h, p);
    if x == p.root {
      RefGraph.EdgeReaches(Moves(h, p), x, y);
    } else {
      RefGraph.ReachesThenEdge(Moves(h, p), p.root, x, y);
    }
  }

  // What holds of p when only the nodes got to from root count.
  ghost predicate Narrows(h: Heap, p: Plan, q: Plan) {
    && p.nodes <= h.Keys && !p.ranked && p.allOfFree && RefsEnd(h, p)
    && q.nodes <= p.nodes && q == p.(nodes := q.nodes)
    && forall x, y :: x in q.nodes && y in p.nodes && Takes(h, p, x, y) ==> y in q.nodes
  }

  lemma ReachedNarrows(h: Heap, p: Plan)
    requires p.nodes <= h.Keys && !p.ranked && p.allOfFree && RefsEnd(h, p)
    ensures Narrows(h, p, p.(nodes := Reached(h, p)))
  {
    hide Takes;
    forall x, y | x in Reached(h, p) && y in p.nodes && Takes(h, p, x, y) ensures y in Reached(h, p) {
      ReachedOn(h, p, x, y);
    }
  }

  lemma NarrowTarget(h: Heap, p: Plan, q: Plan, x: Id, t: Id)
    requires Narrows(h, p, q) && Sound(h, p) && x in q.nodes && Target(h, p.root, x) == Some(t)
    ensures TargetOk(h, q, x, t)
  {
    hide Guarded, Walk, RefPath, Target;
    TargetLends(h, p, x, t);
    forall k, y | (k !in h[x] || k == AllOf) && Via(h, h[t], k, y) ensures KidOk(q, x, y) {
      assert KidOk(p, x, y);
      assert Inherits(h, p, x, y);
      assert Takes(h, p, x, y);
    }
    assert Lends(h, q, x, t);
  }

  lemma NarrowKid(h: Heap, p: Plan, q: Plan, x: Id, k: Key, y: Id)
    requires Narrows(h, p, q) && x in q.nodes && KidOk(p, x, y) && Via(h, h[x], k, y)
    ensures KidOk(q, x, y)
  {
    assert IsKid(h, x, y);
    assert Takes(h, p, x, y);
  }

  lemma NarrowNode(h: Heap, p: Plan, q: Plan, x: Id)
    requires Narrows(h, p, q) && Sound(h, p) && x in q.nodes
    ensures NodeOk(h, q, x)
  {
    hide Guarded, TargetOk, Walk, RefPath, ValuesLoadable, Takes, KidOk, Via, RefsEnd;
    assert NodeOk(h, p, x);
    forall k, y | Via(h, h[x], k, y) ensures KidOk(q, x, y) {
      NarrowKid(h, p, q, x, k, y);
    }
    var ref := Get(h[x], DollarRef);
    if ref.Str? && RefPath(ref.s).Some? {
      OffNodesMono(h, p, q, p.root, RefPath(ref.s).value);
      if Target(h, p.root, x).Some? {
        NarrowTarget(h, p, q, x, Target(h, p.root, x).value);
      }
    }
  }

  lemma NarrowGuard(h: Heap, p: Plan, q: Plan)
    requires p.root in h && q.nodes <= p.nodes && q == p.(nodes := q.nodes) && Guarded(h, p)
    ensures Guarded(h, q)
  {
    hide Target;
    forall x | x in q.tame ensures x in h && TameOk(h, q, x) { assert TameOk(h, p, x); }
    if !q.allOfFree {
      forall x | x in q.lead ensures x in h && LeadOk(h, q, x) { assert LeadOk(h, p, x); }
    }
  }

  lemma NarrowSound(h: Heap, p: Plan, q: Plan)
    requires Narrows(h, p, q) && Sound(h, p) && p.root in q.nodes
    ensures Sound(h, q)
  {
    hide Guarded, NodeOk, NoDangling, Takes, RefsEnd;
    NarrowGuard(h, p, q);
    forall x | x in q.nodes ensures NodeOk(h, q, x) { NarrowNode(h, p, q, x); }
  }

  // Every reference being to a dictionary without one, the edges followed are the bound steps.
  lemma EdgeIsMove(h: Heap, p: Plan, q: Plan, x: Id, y: Id)
    requires Narrows(h, p, q) && Sound(h, q) && x in q.nodes && y in q.nodes && Edge(h, q, x, y)
    ensures (x, y) in Moves(h, p)
  {
    hide Sound, Walk, RefPath;
    assert Takes(h, p, x, y);
  }

  lemma NoLoopAcyclic(h: Heap, p: Plan, q: Plan)
    requires Narrows(h, p, q) && Sound(h, q) && q.nodes == Reached(h, p) && !Loops(h, p)
    ensures RefGraph.Acyclic(Edges(h, q))
  {
    hide Sound, Takes, Edge, Narrows;
    NarrowKeys(h, p, q);
    forall x ensures !RefGraph.Reaches(Edges(h, q), x, x) {
      if RefGraph.Reaches(Edges(h, q), x, x) {
        var y := RefGraph.FirstStep(Edges(h, q), x, x);
        assert x in Reached(h, p);
        EdgesAreMoves(h, p, q);
        RefGraph.ReachesMono(Edges(h, q), Moves(h, p), x, x);
      }
    }
  }

  lemma NarrowKeys(h: Heap, p: Plan, q: Plan)
    requires Narrows(h, p, q)
    ensures q.nodes <= p.nodes <= h.Keys
  {
  }

  lemma EdgesAreMoves(h: Heap, p: Plan, q: Plan)
    requires Narrows(h, p, q) && Sound(h, q) && q.nodes <= p.nodes <= h.Keys
    ensures Edges(h, q) <= Moves(h, p)
  {
    hide Narrows, Sound, Moves, Edge;
    forall x, y | (x, y) in Edges(h, q) ensures (x, y) in Moves(h, p) {
      EdgeIsMove(h, p, q, x, y);
    }
  }

  // For documents without `allOf` that load and whose references lead to dictionaries without
  // one, the graph of the document as given decides: the normaliser returns exactly when no cycle
  // of sub-schemas, own or taken over, can be got to from root.
  lemma EndsExactly(e: Env, s: State, p: Plan)
    requires Given(e, s, p) && p.allOfFree && p.loadable && RefsEnd(s.heap, p)
    ensures p.nodes <= s.heap.Keys
    ensures (exists fuel :: Visit(e, fuel, s, Dict(p.root)).Returned?) <==> !Loops(s.heap, p)
    ensures (forall fuel :: Visit(e, fuel, s, Dict(p.root)).OutOfFuel?) <==> Loops(s.heap, p)
  {
    RootNode(s.heap, p);
    hide Sound, Loops, Visit, Lists, RefsEnd;
    if Loops(s.heap, p) {
      forall fuel: nat ensures Visit(e, fuel, s, Dict(p.root)).OutOfFuel? {
        LoopsForever(e, s, p, fuel);
      }
    } else {
      var fuel := NoLoopEnds(e, s, p);
      assert Visit(e, fuel, s, Dict(p.root)).Returned?;
    }
  }

  lemma NoLoopEnds(e: Env, s: State, p: Plan) returns (fuel: nat)
    requires Given(e, s, p) && p.allOfFree && p.loadable && RefsEnd(s.heap, p)
    requires p.nodes <= s.heap.Keys && !Loops(s.heap, p)
    ensures Visit(e, fuel, s, Dict(p.root)).Returned?
  {
    RootNode(s.heap, p);
    hide Sound, Loops, Visit, Lists, RefsEnd, Narrows, Edges;
    var q := p.(nodes := Reached(s.heap, p));
    ReachedNarrows(s.heap, p);
    NarrowSound(s.heap, p, q);
    NoLoopAcyclic(s.heap, p, q);
    RootNode(s.heap, q);
    fuel := NormaliseEnds(e, s, q);
  }

  // ----- with `allOf`, an acyclic document need not end -----

  // References `#/table/name`; the key `table` also appears in root's single `allOf` entry.
  ghost function Shadowed(ref: string, table: Key, name: Key): Heap {
    map[
      0 := map[DollarRef := Str(ref), table := Dict(1), AllOf := List([Dict(3)])],
      1 := map[name := Dict(2)],
      2 := map[],
      3 := map[table := Dict(4)],
      4 := map[name := Dict(5)],
      5 := map[Properties := Dict(6)],
      6 := map[Other("x") := Dict(7)],
      7 := map[DollarRef := Str(ref)]]
  }

  ghost predicate TwoKeys(ref: string, table: Key, name: Key) {
    RefPath(ref) == Some([table, name]) && table.Other? && name.Other?
  }

  ghost function ShadowedPlan(table: Key): Plan {
    Plan(0, {0, 2, 3, 5, 7}, {table}, {}, {}, false, (x: Id) => 0, false, true)
  }

  lemma ShadowedVia(ref: string, table: Key, name: Key, x: Id, k: Key, y: Id)
    requires table.Other? && name.Other? && x in {0, 2, 3, 5, 7}
    requires Via(Shadowed(ref, table, name), Shadowed(ref, table, name)[x], k, y)
    ensures (x == 0 && y == 3) || (x == 5 && y == 7)
  {
    var h := Shadowed(ref, table, name);
    if x == 0 {
      assert Get(h[0], Definitions) == Get(h[0], Properties) == Null;
    } else if x == 5 {
      assert h[6].Keys == {Other("x")};
    }
  }

  lemma ShadowedWalk(ref: string, table: Key, name: Key)
    requires TwoKeys(ref, table, name)
    ensures var h := Shadowed(ref, table, name);
      && Target(h, 0, 0) == Target(h, 0, 7) == Some(2)
      && Target(h, 0, 2) == Target(h, 0, 3) == Target(h, 0, 5) == None
  {
    var h := Shadowed(ref, table, name);
    hide RefPath;
    assert [table, name][1..] == [name] && [name][1..] == [];
    assert Walk(h, 0, [table, name]) == Walk(h, 1, [name]) == Walk(h, 2, []) == Some(2);
    assert DollarRef !in h[2] && DollarRef !in h[3] && DollarRef !in h[5];
  }

  lemma ShadowedFalls(ref: string, table: Key, name: Key, rank: Id -> nat, x: Id, y: Id)
    requires TwoKeys(ref, table, name) && x in {0, 2, 3, 5, 7} && y in {0, 2, 3, 5, 7}
    requires forall i: Id :: rank(i) == if i == 5 || i == 0 then 2 else if i == 7 then 1 else 0
    requires Edge(Shadowed(ref, table, name), ShadowedPlan(table), x, y)
    ensures rank(y) < rank(x)
  {
    var h, p := Shadowed(ref, table, name), ShadowedPlan(table);
    ShadowedWalk(ref, table, name);
    hide Via, RefPath, Walk, Target;
    forall k: Key, x': Id | x' in {0, 2, 3, 5, 7} && Via(h, h[x'], k, y)
      ensures (x' == 0 && y == 3) || (x' == 5 && y == 7)
    {
      ShadowedVia(ref, table, name, x', k, y);
    }
  }

  lemma ShadowedRef(ref: string, table: Key, name: Key, x: Id)
    requires TwoKeys(ref, table, name) && x in {0, 2, 3, 5, 7}
    ensures RefOk(Shadowed(ref, table, name), ShadowedPlan(table), x)
  {
    var h, p := Shadowed(ref, table, name), ShadowedPlan(table);
    ShadowedWalk(ref, table, name);
    hide Via, RefPath, Walk, Lends, Plain;
    assert [table, name][1..] == [name];
    assert OffNodes(h, p, 0, [table, name]);
  }

  lemma ShadowedTables(ref: string, table: Key, name: Key, x: Id)
    requires table.Other? && name.Other? && x in {0, 2, 3, 5, 7}
    ensures var h, p := Shadowed(ref, table, name), ShadowedPlan(table);
      && x in h && TableOk(h, p, Get(h[x], Definitions)) && TableOk(h, p, Get(h[x], Properties))
      && ValuesLoadable(h, h[x])
  {
  }

  lemma ShadowedLoads(ref: string, table: Key, name: Key, x: Id)
    requires TwoKeys(ref, table, name) && x in {0, 2, 3, 5, 7}
    ensures var h, p := Shadowed(ref, table, name), ShadowedPlan(table);
      && x in h && TableOk(h, p, Get(h[x], Definitions)) && TableOk(h, p, Get(h[x], Properties)) && Loadable(h, p, x)
  {
    ShadowedWalk(ref, table, name);
    ShadowedTables(ref, table, name, x);
    hide RefPath, Walk, Target, ValuesLoadable, TableOk;
    assert x == 0 || x == 7 || DollarRef !in Shadowed(ref, table, name)[x];
  }

  lemma ShadowedNode(ref: string, table: Key, name: Key, x: Id)
    requires TwoKeys(ref, table, name) && x in {0, 2, 3, 5, 7}
    ensures NodeOk(Shadowed(ref, table, name), ShadowedPlan(table), x)
  {
    var h, p := Shadowed(ref, table, name), ShadowedPlan(table);
    ShadowedRef(ref, table, name, x);
    ShadowedLoads(ref, table, name, x);
    hide Via, RefPath, RefOk, Loadable, TableOk, Shadowed;
    forall k: Key, y: Id | Via(h, h[x], k, y) ensures KidOk(p, x, y) {
      ShadowedVia(ref, table, name, x, k, y);
    }
  }

  // Everything asked of a given document but the guard of the tables holds of this one,
  lemma ShadowedGiven(ref: string, table: Key, name: Key)
    requires TwoKeys(ref, table, name)
    ensures var h, p := Shadowed(ref, table, name), ShadowedPlan(table);
      && p.root in p.nodes && p.nodes <= h.Keys && NoDangling(h) && p.anchors !! VOLATILE
      && (forall x :: x in p.nodes ==> NodeOk(h, p, x))
  {
    var h, p := Shadowed(ref, table, name), ShadowedPlan(table);
    ShadowedThere(ref, table, name);
    hide Shadowed, NoDangling, NodeOk, RefPath;
    forall x | x in p.nodes ensures NodeOk(h, p, x) {
      ShadowedNode(ref, table, name, x);
    }
  }

  // and its graph, with every edge the normaliser could follow, has no cycle.
  lemma ShadowedAcyclic(ref: string, table: Key, name: Key)
    requires TwoKeys(ref, table, name)
    ensures var h, p := Shadowed(ref, table, name), ShadowedPlan(table);
      p.nodes <= h.Keys && RefGraph.Acyclic(Edges(h, p))
  {
    var h, p := Shadowed(ref, table, name), ShadowedPlan(table);
    var rank: Id -> nat := x => if x == 5 || x == 0 then 2 else if x == 7 then 1 else 0;
    ShadowedThere(ref, table, name);
    hide Shadowed, NoDangling, Edge, TwoKeys;
    forall x: Id, y: Id | (x, y) in Edges(h, p)
      ensures rank(y) < rank(x)
    {
      ShadowedFalls(ref, table, name, rank, x, y);
    }
    RefGraph.RankHasNoCycle(Edges(h, p), rank);
  }

  lemma ShadowedThere(ref: string, table: Key, name: Key)
    requires table.Other? && name.Other?
    ensures {0, 2, 3, 5, 7} <= Shadowed(ref, table, name).Keys && NoDangling(Shadowed(ref, table, name))
  {
  }

  lemma KeywordAbsent(e: Env, fuel: nat, s: State, d: Id, k: Key)
    requires fuel > 0 && k !in At(s, d)
    ensures InKeyword(e, fuel, s, d, k) == Returned(s)
  {
  }

  // A node with none of the keywords before `allOf` goes straight to it.
  lemma BelowPlain(e: Env, fuel: nat, s: State, d: Id)
    requires fuel > 0 && At(s, d).Keys !! {Definitions, Type, Properties, Items, OneOf, AnyOf}
    ensures Below(e, fuel, s, d) == InAllOf(e, fuel, s, d)
  {
    hide VisitEach, Visit, InAllOf;
    assert ObjectClosed(s, d) == s;
    assert InProperties(e, fuel, s, d) == Returned(s);
    KeywordAbsent(e, fuel, s, d, Items);
    KeywordAbsent(e, fuel, s, d, OneOf);
    KeywordAbsent(e, fuel, s, d, AnyOf);
  }

  lemma VisitPlain(e: Env, fuel: nat, s: State, d: Id)
    requires fuel > 0 && forall k :: k in At(s, d) ==> k.Other?
    ensures Visit(e, fuel, s, Dict(d)) == Returned(s)
  {
    BelowPlain(e, fuel, s, d);
    KeywordAbsent(e, fuel, s, d, AllOf);
    hide VisitEach, Below, InKeyword;
  }

  // The document after the merge of root's `allOf` entry, and after root's reference is inlined.
  ghost function Merged(ref: string, table: Key, name: Key): Heap {
    Shadowed(ref, table, name)[0 := map[DollarRef := Str(ref), table := Dict(4)]]
  }

  ghost function Inlined(ref: string, table: Key, name: Key): Heap {
    Shadowed(ref, table, name)[0 := map[Properties := Dict(6), table := Dict(4)]]
  }

  lemma MergedWalk(ref: string, table: Key, name: Key, h: Heap)
    requires TwoKeys(ref, table, name) && h in {Merged(ref, table, name), Inlined(ref, table, name)}
    ensures Walk(h, 0, [table, name]) == Some(5)
  {
    hide RefPath;
    assert [table, name][1..] == [name] && [name][1..] == [];
    assert Walk(h, 0, [table, name]) == Walk(h, 4, [name]) == Walk(h, 5, []) == Some(5);
  }

  lemma RootMerges(e: Env, fuel: nat, ref: string, table: Key, name: Key)
    requires TwoKeys(ref, table, name) && fuel > 1
    ensures InAllOf(e, fuel, State(Shadowed(ref, table, name), 8), 0) == Returned(State(Merged(ref, table, name), 8))
  {
    hide RefPath, Visit, InKeyword;
    var s := State(Shadowed(ref, table, name), 8);
    VisitPlain(e, fuel - 1, s, 3);
    assert At(s, 0) + At(s, 3) - {AllOf} == map[DollarRef := Str(ref), table := Dict(4)];
  }

  lemma RootInlines(e: Env, ref: string, table: Key, name: Key)
    requires TwoKeys(ref, table, name) && e.root == 0
    ensures RefInlined(e, State(Merged(ref, table, name), 8), 0) == Returned(State(Inlined(ref, table, name), 8))
  {
    hide RefPath;
    var s := State(Merged(ref, table, name), 8);
    MergedWalk(ref, table, name, s.heap);
    ResolveWalks(s.heap, 0, [table, name]);
    assert At(s, 5) + At(s, 0) - {DollarRef} == map[Properties := Dict(6), table := Dict(4)];
    hide Resolve;
  }

  ghost function InlinedPlan(table: Key): Plan {
    Plan(0, {0, 7}, {table}, {}, {}, false, (x: Id) => 0, true, true)
  }

  lemma InlinedVia(ref: string, table: Key, name: Key, x: Id, k: Key, y: Id)
    requires table.Other? && name.Other? && x in {0, 5, 7}
    requires Via(Inlined(ref, table, name), Inlined(ref, table, name)[x], k, y)
    ensures y == 7 && x != 7
  {
    var h := Inlined(ref, table, name);
    assert h[6].Keys == {Other("x")};
  }

  lemma InlinedTrap(ref: string, table: Key, name: Key)
    requires TwoKeys(ref, table, name)
    ensures Trap(Inlined(ref, table, name), InlinedPlan(table), {0, 7})
  {
    hide RefPath, Walk;
    var h, p := Inlined(ref, table, name), InlinedPlan(table);
    MergedWalk(ref, table, name, h);
    assert h[6][Other("x")] == Dict(7);
    assert Via(h, h[0], Properties, 7) && Via(h, h[5], Properties, 7);
    assert h[7] == map[DollarRef := Str(ref)];
    assert Target(h, 0, 7) == Some(5);
    assert IsKid(h, 0, 7) && Inherits(h, p, 7, 7);
  }

  lemma InlinedNode(ref: string, table: Key, name: Key, x: Id)
    requires TwoKeys(ref, table, name) && x in {0, 7}
    ensures NodeOk(Inlined(ref, table, name), InlinedPlan(table), x)
  {
    var h, p := Inlined(ref, table, name), InlinedPlan(table);
    MergedWalk(ref, table, name, h);
    hide RefPath, Walk, Via;
    forall x: Id, k: Key, y: Id | x in {0, 5, 7} && Via(h, h[x], k, y) ensures y == 7 && x != 7 {
      InlinedVia(ref, table, name, x, k, y);
    }
    assert [table, name][1..] == [name];
    assert OffNodes(h, p, 0, [table, name]);
    assert Lends(h, p, 7, 5);
  }

  lemma InlinedThere(ref: string, table: Key, name: Key)
    requires table.Other? && name.Other?
    ensures var h := Inlined(ref, table, name); {0, 7} <= h.Keys && NoDangling(h) && table in h[0]
  {
  }

  lemma InlinedSound(ref: string, table: Key, name: Key)
    requires TwoKeys(ref, table, name)
    ensures Sound(Inlined(ref, table, name), InlinedPlan(table))
  {
    InlinedThere(ref, table, name);
    InlinedNode(ref, table, name, 0);
    InlinedNode(ref, table, name, 7);
    hide RefPath, NoDangling, NodeOk, Inlined;
  }

  // Root visited for the first time: it merges, inlines and visits itself again.
  lemma RootAgain(e: Env, fuel: nat, ref: string, table: Key, name: Key)
    requires TwoKeys(ref, table, name) && e.root == 0 && fuel > 1
    ensures Visit(e, fuel, State(Shadowed(ref, table, name), 8), Dict(0))
         == Visit(e, fuel - 1, State(Inlined(ref, table, name), 8), Dict(0))
  {
    var s := State(Shadowed(ref, table, name), 8);
    hide RefPath, Below, RefInlined, InAllOf;
    BelowPlain(e, fuel, s, 0);
    RootMerges(e, fuel, ref, table, name);
    RootInlines(e, ref, table, name);
    assert DefaultDropped(State(Merged(ref, table, name), 8), 0) == State(Merged(ref, table, name), 8);
  }

  lemma InlinedFresh(ref: string, table: Key, name: Key)
    requires table.Other? && name.Other?
    ensures Fresh(State(Inlined(ref, table, name), 8))
  {
  }

  lemma InlinedForever(e: Env, fuel: nat, ref: string, table: Key, name: Key)
    requires TwoKeys(ref, table, name) && e.root == 0 && Lists(e.order)
    ensures Visit(e, fuel, State(Inlined(ref, table, name), 8), Dict(0)).OutOfFuel?
  {
    hide Sound, Trap, Visit, TwoKeys, Shadowed, Inlined, Fresh, Lists, RefPath;
    TwoOthers(ref, table, name);
    InlinedFresh(ref, table, name);
    InlinedSound(ref, table, name);
    InlinedTrap(ref, table, name);
    NoResult(e, State(Inlined(ref, table, name), 8), InlinedPlan(table), {0, 7}, fuel);
  }

  lemma TwoOthers(ref: string, table: Key, name: Key)
    requires TwoKeys(ref, table, name)
    ensures table.Other? && name.Other?
  {
  }

  // The normaliser does not return from it: merging the entry moves the table that the
  // references go through, and inlining then closes a cycle.
  lemma ShadowedForever(e: Env, fuel: nat, ref: string, table: Key, name: Key)
    requires TwoKeys(ref, table, name) && e.root == 0 && Lists(e.order)
    ensures Visit(e, fuel, State(Shadowed(ref, table, name), 8), Dict(0)).OutOfFuel?
  {
    hide *;
    if fuel > 1 {
      RootAgain(e, fuel, ref, table, name);
      InlinedForever(e, fuel - 1, ref, table, name);
    } else {
      OneCallMore(e, fuel, ref, table, name);
    }
  }

  lemma OneCallMore(e: Env, fuel: nat, ref: string, table: Key, name: Key)
    requires TwoKeys(ref, table, name) && fuel <= 1
    ensures Visit(e, fuel, State(Shadowed(ref, table, name), 8), Dict(0)).OutOfFuel?
  {
    hide RefPath, Below;
    if fuel == 1 {
      BelowPlain(e, fuel, State(Shadowed(ref, table, name), 8), 0);
    }
  }

  lemma DefsKeys(a: string, b: string)
    requires a == "$defs" && b == "A"
    ensures KeysOf([a, b]) == [Other(a), Other(b)]
  {
    assert KeyOf(a) == Other(a) by {
      assert |a| == 5 && a[0] == '$';
    }
    assert KeyOf(b) == Other(b) by {
      assert |b| == 1;
    }
    hide KeyOf;
    assert [a, b][1..] == [b] && [b][1..] == [];
  }

  // Such references are what the normaliser meets.
  lemma DefsRef()
    ensures TwoKeys("#/$defs/A", Other("$defs"), Other("A"))
  {
    var a, b := "$defs", "A";
    DefsKeys(a, b);
    hide KeysOf;
    Text.SplitHead(a, b, '/');
    Text.SplitFree(b, '/');
    hide Text.Split;
    assert "#/$defs/A"[2..] == a + ['/'] + b;
  }
}
