// What the normaliser of src/nucliadb_agentic_api/utils.py computes, call by call.
//
// Visit is the function as it is written, with a bound on the depth of calls: a run that needs more
// is OutOfFuel.  A document on which every bound is too small is one the normaliser does not return
// from.  The methods of class Document change the dictionaries in place and are proved to do what
// these functions say.
module SchemaRuns {
  import opened Basics
  import opened StrictSchema
  import RefGraph

  // The dictionaries; new ones get ids from `next` up.
  datatype State = State(heap: Heap, next: Id)

  // How a call ended, and in which state.
  datatype Run = OutOfFuel | Raised(error: Error, state: State) | Returned(state: State) {
    predicate IsFailure() { !Returned? }

    function PropagateFailure(): Run
      requires IsFailure()
    {
      this
    }

    function Extract(): State
      requires !IsFailure()
    {
      state
    }
  }

  // The root of the document, and the order in which a dictionary lists its keys.
  datatype Env = Env(root: Id, order: (Heap, Id) -> seq<Key>)

  ghost predicate Lists(order: (Heap, Id) -> seq<Key>) {
    forall h: Heap, i: Id :: i in h ==> Listing(h[i], order(h, i))
  }

  function At(s: State, i: Id): Object { if i in s.heap then s.heap[i] else map[] }

  function Put(s: State, i: Id, o: Object): State { s.(heap := s.heap[i := o]) }

  // ----- the steps that visit nothing -----

  // The dictionary at the end of a path, or the error of the first key that leads to none.
  function Resolve(h: Heap, at: Id, path: seq<Key>): Result<Id, Error>
    decreases |path|
  {
    if path == [] then Ok(at)
    else if at !in h || path[0] !in h[at] then Err(KeyError)
    else if !h[at][path[0]].Dict? then Err(AssertionError)
    else Resolve(h, h[at][path[0]].id, path[1..])
  }

  // What resolve_ref finds.
  function Resolution(h: Heap, root: Id, ref: string): Result<Id, Error> {
    var path := RefPath(ref);
    if path.None? then Err(ValueError) else Resolve(h, root, path.value)
  }

  lemma {:induction false} ResolveWalks(h: Heap, at: Id, path: seq<Key>)
    ensures match Walk(h, at, path) case Some(t) => Resolve(h, at, path) == Ok(t) case None => Resolve(h, at, path).Err?
    decreases |path|
  {
    if path != [] && at in h && path[0] in h[at] && h[at][path[0]].Dict? {
      ResolveWalks(h, h[at][path[0]].id, path[1..]);
    }
  }

  lemma ResolutionTarget(h: Heap, root: Id, d: Id)
    requires d in h && Get(h[d], DollarRef).Str?
    ensures match Target(h, root, d)
            case Some(t) => Resolution(h, root, h[d][DollarRef].s) == Ok(t)
            case None => Resolution(h, root, h[d][DollarRef].s).Err?
  {
    var path := RefPath(h[d][DollarRef].s);
    if path.Some? {
      ResolveWalks(h, root, path.value);
    }
  }

  // Which key of the path is to blame, and for what.
  ghost predicate Misses(h: Heap, at: Id, path: seq<Key>, i: nat) {
    i < |path| && var x := Walk(h, at, path[..i]); x.Some? && (x.value !in h || path[i] !in h[x.value])
  }

  ghost predicate HitsOther(h: Heap, at: Id, path: seq<Key>, i: nat) {
    i < |path| && var x := Walk(h, at, path[..i]);
    x.Some? && x.value in h && path[i] in h[x.value] && !h[x.value][path[i]].Dict?
  }

  // A KeyError is a key that is not there, an AssertionError one that leads to no dictionary.
  lemma {:induction false} ResolveFails(h: Heap, at: Id, path: seq<Key>)
    ensures Resolve(h, at, path) == Err(KeyError) <==> exists i: nat :: Misses(h, at, path, i)
    ensures Resolve(h, at, path) == Err(AssertionError) <==> exists i: nat :: HitsOther(h, at, path, i)
    decreases |path|
  {
    assert path[..0] == [];
    if path == [] {
    } else if at !in h || path[0] !in h[at] {
      assert Misses(h, at, path, 0);
      forall i: nat ensures !HitsOther(h, at, path, i) { assert i > 0 && i < |path| ==> path[..i][0] == path[0]; }
    } else if !h[at][path[0]].Dict? {
      assert HitsOther(h, at, path, 0);
      forall i: nat ensures !Misses(h, at, path, i) { assert i > 0 && i < |path| ==> path[..i][0] == path[0]; }
    } else {
      var next := h[at][path[0]].id;
      ResolveFails(h, next, path[1..]);
      forall i: nat
        ensures Misses(h, at, path, i + 1) <==> Misses(h, next, path[1..], i)
        ensures HitsOther(h, at, path, i + 1) <==> HitsOther(h, next, path[1..], i)
      {
        assert i + 1 < |path| ==> path[..i + 1][1..] == path[1..][..i] && path[..i + 1][0] == path[0];
      }
      assert !Misses(h, at, path, 0) && !HitsOther(h, at, path, 0);
      forall i: nat | Misses(h, at, path, i) ensures Misses(h, next, path[1..], i - 1) {}
      forall i: nat | HitsOther(h, at, path, i) ensures HitsOther(h, next, path[1..], i - 1) {}
    }
  }

  function ObjectClosed(s: State, d: Id): State {
    if Get(At(s, d), Type) == Str("object") && AdditionalProperties !in At(s, d) then
      Put(s, d, At(s, d)[AdditionalProperties := Bool(false)])
    else s
  }

  function DefaultDropped(s: State, d: Id): State {
    if Default in At(s, d) && At(s, d)[Default] == Null then Put(s, d, At(s, d) - {Default}) else s
  }

  // Own entries first, then those of the target; the reference goes.
  function RefInlined(e: Env, s: State, d: Id): Run {
    var ref := Get(At(s, d), DollarRef);
    if !ref.Str? then Raised(AssertionError, s)
    else match Resolution(s.heap, e.root, ref.s)
      case Err(error) => Raised(error, s)
      case Ok(t) => Returned(Put(s, d, At(s, t) + At(s, d) - {DollarRef}))
  }

  // The entries of the visited `allOf` entry over those of d.
  function AllOfMerged(s: State, d: Id, c: Id): Run {
    var merged := At(s, d) + At(s, c);
    if AllOf in merged then Returned(Put(s, d, merged - {AllOf})) else Raised(KeyError, Put(s, d, merged))
  }

  function RequiredListed(s: State, d: Id, ks: seq<Key>): State {
    Put(s, d, At(s, d)[Required := List(Names(ks))])
  }

  // The visited properties, in a new dictionary.
  function Retabled(s: State, d: Id, table: Object): State {
    State(s.heap[s.next := table][d := At(s, d)[Properties := Dict(s.next)]], s.next + 1)
  }

  // ----- the recursive ones -----

  // _ensure_strict_json_schema: what it returns is the dictionary it was given.
  function Visit(e: Env, fuel: nat, s: State, v: Json): (r: Run)
    ensures r.Returned? ==> v.Dict?
    decreases fuel, 4
  {
    if fuel == 0 then OutOfFuel
    else if !v.Dict? then Raised(TypeError, s)
    else
      var s1 :- Below(e, fuel, s, v.id);
      var s2 := DefaultDropped(s1, v.id);
      if Get(At(s2, v.id), DollarRef) == Null then Returned(s2)
      else
        var s3 :- RefInlined(e, s2, v.id);
        Visit(e, fuel - 1, s3, v)
  }

  function VisitEach(e: Env, fuel: nat, s: State, vs: seq<Json>): Run
    decreases fuel, 5, |vs|
  {
    if vs == [] then Returned(s)
    else
      var s1 :- Visit(e, fuel, s, vs[0]);
      VisitEach(e, fuel, s1, vs[1..])
  }

  function InDefinitions(e: Env, fuel: nat, s: State, d: Id): Run
    requires fuel > 0
    decreases fuel, 1
  {
    var table := Get(At(s, d), Definitions);
    if !table.Dict? then Returned(s)
    else VisitEach(e, fuel - 1, s, ValuesOf(At(s, table.id), e.order(s.heap, table.id)))
  }

  function InProperties(e: Env, fuel: nat, s: State, d: Id): Run
    requires fuel > 0
    decreases fuel, 1
  {
    var table := Get(At(s, d), Properties);
    if !table.Dict? then Returned(s)
    else
      var entries, ks := At(s, table.id), e.order(s.heap, table.id);
      var s1 :- VisitEach(e, fuel - 1, RequiredListed(s, d, ks), ValuesOf(entries, ks));
      Returned(Retabled(s1, d, entries))
  }

  // `items`, `oneOf`, `anyOf` and a longer `allOf`: the results stored back are the sub-schemas.
  function InKeyword(e: Env, fuel: nat, s: State, d: Id, k: Key): Run
    requires fuel > 0
    decreases fuel, 0
  {
    var v := Get(At(s, d), k);
    if (if k == Items then !v.Dict? else !v.List?) then Returned(s)
    else
      var s1 :- VisitEach(e, fuel - 1, s, SubSchemas(k, v));
      Returned(Put(s1, d, At(s1, d)[k := v]))
  }

  function InAllOf(e: Env, fuel: nat, s: State, d: Id): Run
    requires fuel > 0
    decreases fuel, 1
  {
    var v := Get(At(s, d), AllOf);
    if v.List? && |v.items| == 1 then
      var s1 :- Visit(e, fuel - 1, s, v.items[0]);
      AllOfMerged(s1, d, v.items[0].id)
    else InKeyword(e, fuel, s, d, AllOf)
  }

  function Unions(e: Env, fuel: nat, s: State, d: Id): Run
    requires fuel > 0
    decreases fuel, 2
  {
    var s1 :- InKeyword(e, fuel, s, d, Items);
    var s2 :- InKeyword(e, fuel, s1, d, OneOf);
    var s3 :- InKeyword(e, fuel, s2, d, AnyOf);
    InAllOf(e, fuel, s3, d)
  }

  // The keywords of d that hold sub-schemas, in the order the normaliser takes them.
  function Below(e: Env, fuel: nat, s: State, d: Id): Run
    requires fuel > 0
    decreases fuel, 3
  {
    var s1 :- InDefinitions(e, fuel, s, d);
    var s2 :- InProperties(e, fuel, ObjectClosed(s1, d), d);
    Unions(e, fuel, s2, d)
  }

  // ----- on a ranked document every call ends, and keeps what the document promises -----

  ghost predicate Fresh(s: State) {
    forall i :: i in s.heap ==> i < s.next
  }

  ghost predicate Ready(e: Env, p: Plan, s: State) {
    Fresh(s) && p.ranked && p.root == e.root && Lists(e.order)
  }

  // What a step on behalf of d leaves.
  ghost predicate Steps(h0: Heap, s: State, p: Plan, d: Id, done0: set<Id>, done: set<Id>, ks: set<Key>) {
    Fresh(s) && Kept(h0, s.heap, p, d, done0, done) && Settled(s.heap, p, d, done, ks)
  }

  ghost predicate Ended(r: Run, p: Plan) {
    !r.OutOfFuel? && (p.loadable ==> r.Returned?)
  }

  lemma FixedTrans(h0: Heap, h1: Heap, h2: Heap, p: Plan)
    requires Fixed(h0, h1, p) && Fixed(h1, h2, p)
    ensures Fixed(h0, h2, p)
  {
  }

  // The bound on the depth of calls below d, and the one for d itself.
  ghost function Depth(p: Plan, d: Id): nat { 2 * p.rank(d) + 1 }

  ghost function Needed(p: Plan, s: State, v: Json): nat {
    if !v.Dict? then 1 else if Get(At(s, v.id), DollarRef) == Null then Depth(p, v.id) + 1 else Depth(p, v.id) + 2
  }

  lemma EachKept(e: Env, fuel: nat, s: State, vs: seq<Json>, h0: Heap, p: Plan, d: Id, done0: set<Id>, done: set<Id>)
    returns (done': set<Id>)
    requires Ready(e, p, s) && Sound(h0, p) && Kept(h0, s.heap, p, d, done0, done)
    requires forall j :: j in vs && j.Dict? ==> KidOk(p, d, j.id)
    requires fuel >= Depth(p, d)
    ensures var r := VisitEach(e, fuel, s, vs);
      && !r.OutOfFuel? && (p.loadable && AllDicts(vs) ==> r.Returned?)
      && (r.Returned? ==>
            && Fresh(r.state) && Kept(h0, r.state.heap, p, d, done0, done') && done <= done'
            && Fixed(s.heap, r.state.heap, p) && r.state.heap[d] == s.heap[d]
            && forall j :: j in vs ==> j.Dict? && j.id in done')
    decreases p.rank(d) + 1, 0, |vs|
  {
    hide Sound, Closed, Evolves, Walk, Kept, Fixed;
    KeptFacts(h0, s.heap, p, d, done0, done);
    done' := done;
    if vs != [] {
      var v := vs[0];
      assert v in vs;
      var done1 := VisitKept(e, fuel, s, v, p, done);
      var r1 := Visit(e, fuel, s, v);
      if r1.Returned? {
        CallKept(h0, s.heap, r1.state.heap, p, d, v.id, done0, done, done1);
        KeptFacts(s.heap, r1.state.heap, p, v.id, done, done1);
        done' := EachKept(e, fuel, r1.state, vs[1..], h0, p, d, done0, done1);
        var r := VisitEach(e, fuel, s, vs);
        if r.Returned? {
          FixedTrans(s.heap, r1.state.heap, r.state.heap, p);
        }
      }
    }
  }

  lemma KeptFacts(h0: Heap, h: Heap, p: Plan, d: Id, done0: set<Id>, done: set<Id>)
    requires Kept(h0, h, p, d, done0, done)
    ensures Sound(h, p) && Closed(h, p, done) && d in p.nodes && d in h && done0 <= done
    ensures Fixed(h0, h, p) && (h0 == h ==> Fixed(h, h, p))
    ensures Fixed(h, h, p)
  {
  }

  // Once the visits through a table of d are over, that keyword is settled.
  lemma TableVisited(e: Env, fuel: nat, s: State, d: Id, k: Key, ks: seq<Key>, h0: Heap, p: Plan, done0: set<Id>,
      done: set<Id>)
    returns (done': set<Id>)
    requires Ready(e, p, s) && Sound(h0, p) && Kept(h0, s.heap, p, d, done0, done) && k in {Definitions, Properties}
    requires var table := Get(s.heap[d], k); table.Dict? && table.id in s.heap && Listing(s.heap[table.id], ks)
    requires fuel >= Depth(p, d)
    ensures var r := VisitEach(e, fuel, s, ValuesOf(s.heap[Get(s.heap[d], k).id], ks));
      && Ended(r, p)
      && (r.Returned? ==>
            && Fresh(r.state) && Kept(h0, r.state.heap, p, d, done0, done') && done <= done'
            && Fixed(s.heap, r.state.heap, p) && r.state.heap[d] == s.heap[d]
            && forall y :: Via(r.state.heap, r.state.heap[d], k, y) ==> y in done')
    decreases p.rank(d) + 1, 1, 0
  {
    hide Sound, Closed, Kept, Fixed, Listing, Via, KidOk, AllDicts, Visit;
    KeptFacts(h0, s.heap, p, d, done0, done);
    var table := Get(s.heap[d], k);
    KidsListed(s.heap, p, d, k, table, ks);
    var vs := ValuesOf(s.heap[table.id], ks);
    done' := EachKept(e, fuel, s, vs, h0, p, d, done0, done);
    var r := VisitEach(e, fuel, s, vs);
    hide VisitEach;
    if r.Returned? {
      TableDone(s.heap, r.state.heap, p, d, k, table, ks, done');
    }
  }

  lemma DefinitionsSettled(h: Heap, p: Plan, d: Id, done: set<Id>)
    requires d in h && forall y :: Via(h, h[d], Definitions, y) ==> y in done
    ensures Settled(h, p, d, done, {Definitions})
  {
  }

  lemma NoTableVia(h: Heap, o: Object, k: Key)
    requires k in {Definitions, Properties} && !Get(o, k).Dict?
    ensures forall y :: !Via(h, o, k, y)
  {
  }

  lemma DefinitionsKept(e: Env, fuel: nat, s: State, d: Id, h0: Heap, p: Plan, done0: set<Id>, done: set<Id>)
    returns (done': set<Id>)
    requires Ready(e, p, s) && Sound(h0, p) && Kept(h0, s.heap, p, d, done0, done)
    requires fuel >= Depth(p, d) + 1
    ensures var r := InDefinitions(e, fuel, s, d);
      Ended(r, p) && (r.Returned? ==> Steps(h0, r.state, p, d, done0, done', {Definitions}))
    decreases p.rank(d) + 1, 2, 0
  {
    hide Sound, Closed, Kept, Fixed, Listing, Via, Settled, VisitEach;
    KeptFacts(h0, s.heap, p, d, done0, done);
    TableThere(s.heap, p, d, Definitions);
    done' := done;
    if Get(s.heap[d], Definitions).Dict? {
      var table := Get(s.heap[d], Definitions);
      var ks := e.order(s.heap, table.id);
      done' := TableVisited(e, fuel - 1, s, d, Definitions, ks, h0, p, done0, done);
      var r := VisitEach(e, fuel - 1, s, ValuesOf(s.heap[table.id], ks));
      if r.Returned? {
        KeptFacts(h0, r.state.heap, p, d, done0, done');
        DefinitionsSettled(r.state.heap, p, d, done');
      }
    } else {
      NoTableVia(s.heap, s.heap[d], Definitions);
      DefinitionsSettled(s.heap, p, d, done);
    }
  }

  lemma ClosedKept(s: State, d: Id, h0: Heap, p: Plan, done0: set<Id>, done: set<Id>)
    requires Sound(h0, p) && Steps(h0, s, p, d, done0, done, {Definitions})
    ensures Steps(h0, ObjectClosed(s, d), p, d, done0, done, {Definitions, AdditionalProperties})
  {
    hide Sound, Closed, Kept, Settled;
    KeptFacts(h0, s.heap, p, d, done0, done);
    if Get(s.heap[d], Type) == Str("object") && AdditionalProperties !in s.heap[d] {
      CloseKept(h0, s.heap, ObjectClosed(s, d).heap, p, d, done0, done);
    } else {
      ClosedSettled(s.heap, p, d, done);
    }
  }

  lemma ClosedSettled(h: Heap, p: Plan, d: Id, done: set<Id>)
    requires Settled(h, p, d, done, {Definitions}) && ClosedObject(h[d])
    ensures Settled(h, p, d, done, {Definitions, AdditionalProperties})
  {
  }

  lemma RequiredListedKept(s: State, d: Id, ks: seq<Key>, h0: Heap, p: Plan, done0: set<Id>, done: set<Id>)
    requires Sound(h0, p) && Steps(h0, s, p, d, done0, done, {Definitions, AdditionalProperties})
    requires var table := Get(s.heap[d], Properties); table.Dict? && table.id in s.heap && Listing(s.heap[table.id], ks)
    ensures Steps(h0, RequiredListed(s, d, ks), p, d, done0, done, {Definitions, AdditionalProperties})
  {
    hide Sound, Closed, Kept, Settled, Listing;
    KeptFacts(h0, s.heap, p, d, done0, done);
    RequireKept(h0, s.heap, RequiredListed(s, d, ks).heap, p, d, done0, done, ks);
  }

  lemma RetabledKept(s: State, d: Id, entries: Object, ks: seq<Key>, h0: Heap, p: Plan, done0: set<Id>, done: set<Id>)
    requires Sound(h0, p) && Steps(h0, s, p, d, done0, done, {Definitions, AdditionalProperties})
    requires var table := Get(s.heap[d], Properties); table.Dict? && table.id in s.heap && s.heap[table.id] == entries
    requires Listing(entries, ks) && Get(s.heap[d], Required) == List(Names(ks))
    requires forall y :: Via(s.heap, s.heap[d], Properties, y) ==> y in done
    ensures Steps(h0, Retabled(s, d, entries), p, d, done0, done, PROPERTY_KEYS)
  {
    hide Sound, Closed, Kept, Settled, Listing, Via;
    KeptFacts(h0, s.heap, p, d, done0, done);
    RetableKept(h0, s.heap, Retabled(s, d, entries).heap, p, d, done0, done, Get(s.heap[d], Properties), s.next, ks);
  }

  lemma PropertiesVisited(e: Env, fuel: nat, s: State, d: Id, entries: Object, ks: seq<Key>, h0: Heap, p: Plan,
                          done0: set<Id>, done: set<Id>)
    returns (done': set<Id>)
    requires Ready(e, p, s) && Sound(h0, p) && Steps(h0, s, p, d, done0, done, {Definitions, AdditionalProperties})
    requires var table := Get(s.heap[d], Properties); table.Dict? && table.id in s.heap && s.heap[table.id] == entries
    requires Listing(entries, ks) && Get(s.heap[d], Required) == List(Names(ks))
    requires fuel >= Depth(p, d)
    ensures var r := VisitEach(e, fuel, s, ValuesOf(entries, ks));
      Ended(r, p) && (r.Returned? ==> Steps(h0, Retabled(r.state, d, entries), p, d, done0, done', PROPERTY_KEYS))
    decreases p.rank(d) + 1, 2, 0
  {
    hide Sound, Closed, Kept, Fixed, Listing, Via, Settled, VisitEach, Retabled;
    KeptFacts(h0, s.heap, p, d, done0, done);
    TableThere(s.heap, p, d, Properties);
    done' := TableVisited(e, fuel, s, d, Properties, ks, h0, p, done0, done);
    var r := VisitEach(e, fuel, s, ValuesOf(entries, ks));
    if r.Returned? {
      KeptFacts(h0, r.state.heap, p, d, done0, done');
      SettledLater(s.heap, r.state.heap, p, d, done, done', {Definitions, AdditionalProperties});
      FixedTable(s.heap, r.state.heap, p, Get(s.heap[d], Properties).id);
      RetabledKept(r.state, d, entries, ks, h0, p, done0, done');
    }
  }

  lemma FixedTable(h: Heap, h': Heap, p: Plan, i: Id)
    requires Fixed(h, h', p) && i in h && i !in p.nodes
    ensures i in h' && h'[i] == h[i]
  {
  }

  lemma PropertiesKept(e: Env, fuel: nat, s: State, d: Id, h0: Heap, p: Plan, done0: set<Id>, done: set<Id>)
    returns (done': set<Id>)
    requires Ready(e, p, s) && Sound(h0, p) && Steps(h0, s, p, d, done0, done, {Definitions, AdditionalProperties})
    requires fuel >= Depth(p, d) + 1
    ensures var r := InProperties(e, fuel, s, d);
      Ended(r, p) && (r.Returned? ==> Steps(h0, r.state, p, d, done0, done', PROPERTY_KEYS))
    decreases p.rank(d) + 1, 3, 0
  {
    hide Sound, Closed, Kept, Fixed, Listing, Via, Settled, VisitEach, Retabled;
    KeptFacts(h0, s.heap, p, d, done0, done);
    TableThere(s.heap, p, d, Properties);
    done' := done;
    if Get(s.heap[d], Properties).Dict? {
      var table := Get(s.heap[d], Properties);
      var entries, ks := s.heap[table.id], e.order(s.heap, table.id);
      RequiredListedKept(s, d, ks, h0, p, done0, done);
      var s0 := RequiredListed(s, d, ks);
      done' := PropertiesVisited(e, fuel - 1, s0, d, entries, ks, h0, p, done0, done);
    } else {
      NoTableVia(s.heap, s.heap[d], Properties);
      PropertiesSettled(s.heap, p, d, done);
    }
  }

  lemma PropertiesSettled(h: Heap, p: Plan, d: Id, done: set<Id>)
    requires Settled(h, p, d, done, {Definitions, AdditionalProperties}) && !Get(h[d], Properties).Dict?
    requires forall y :: !Via(h, h[d], Properties, y)
    ensures Settled(h, p, d, done, PROPERTY_KEYS)
  {
    hide Via;
  }
  lemma KeywordSettled(h: Heap, p: Plan, d: Id, done: set<Id>, k: Key, ks: set<Key>)
    requires Settled(h, p, d, done, ks) && k in {Items, OneOf, AnyOf, AllOf}
    requires forall y :: Via(h, h[d], k, y) ==> y in done
    requires k == AllOf && Get(h[d], AllOf).List? ==> |Get(h[d], AllOf).items| != 1
    ensures Settled(h, p, d, done, ks + {k})
  {
    hide Via, RequiresAll;
  }

  lemma KeywordKept(e: Env, fuel: nat, s: State, d: Id, k: Key, ks: set<Key>, h0: Heap, p: Plan, done0: set<Id>,
      done: set<Id>)
    returns (done': set<Id>)
    requires Ready(e, p, s) && Sound(h0, p) && Steps(h0, s, p, d, done0, done, ks)
    requires k in {Items, OneOf, AnyOf, AllOf} && fuel >= Depth(p, d) + 1
    requires k == AllOf && Get(s.heap[d], AllOf).List? ==> |Get(s.heap[d], AllOf).items| != 1
    ensures var r := InKeyword(e, fuel, s, d, k);
      Ended(r, p) && (r.Returned? ==> Steps(h0, r.state, p, d, done0, done', ks + {k}))
    decreases p.rank(d) + 1, 3, 0
  {
    hide Sound, Closed, Kept, Fixed, Via, Settled, VisitEach, KidOk;
    KeptFacts(h0, s.heap, p, d, done0, done);
    KeywordKids(s.heap, p, d, k);
    var v := Get(s.heap[d], k);
    var vs := SubSchemas(k, v);
    if vs == [] {
      VisitNone(e, fuel - 1, s, vs);
    }
    done' := EachKept(e, fuel - 1, s, vs, h0, p, d, done0, done);
    var r := VisitEach(e, fuel - 1, s, vs);
    if r.Returned? {
      KeptFacts(h0, r.state.heap, p, d, done0, done');
      SettledLater(s.heap, r.state.heap, p, d, done, done', ks);
      KeywordVia(s.heap, r.state.heap, p, d, k, done');
      KeywordSettled(r.state.heap, p, d, done', k, ks);
      if k in s.heap[d] {
        PutSame(r.state, d, k);
      }
    }
  }

  lemma VisitNone(e: Env, fuel: nat, s: State, vs: seq<Json>)
    requires vs == []
    ensures VisitEach(e, fuel, s, vs) == Returned(s)
  {
  }

  lemma PutSame(s: State, d: Id, k: Key)
    requires d in s.heap && k in s.heap[d]
    ensures Put(s, d, At(s, d)[k := Get(s.heap[d], k)]) == s
  {
    assert At(s, d)[k := s.heap[d][k]] == s.heap[d];
    assert s.heap[d := s.heap[d]] == s.heap;
  }

  lemma KeywordVia(h: Heap, h': Heap, p: Plan, d: Id, k: Key, done: set<Id>)
    requires k in {Items, OneOf, AnyOf, AllOf} && d in h && d in h' && h'[d] == h[d]
    requires forall y :: Via(h, h[d], k, y) ==> Dict(y) in SubSchemas(k, Get(h[d], k))
    requires forall j :: j in SubSchemas(k, Get(h[d], k)) ==> j.Dict? && j.id in done
    ensures forall y :: Via(h', h'[d], k, y) ==> y in done
  {
    forall y | Via(h', h'[d], k, y) ensures y in done {
      assert Via(h, h[d], k, y);
      assert Dict(y) in SubSchemas(k, Get(h[d], k));
    }
  }

  lemma AllOfKept(e: Env, fuel: nat, s: State, d: Id, h0: Heap, p: Plan, done0: set<Id>, done: set<Id>)
    returns (done': set<Id>)
    requires Ready(e, p, s) && Sound(h0, p) && Steps(h0, s, p, d, done0, done, UNION_KEYS)
    requires fuel >= Depth(p, d) + 1
    ensures var r := InAllOf(e, fuel, s, d);
      Ended(r, p) && (r.Returned? ==> Steps(h0, r.state, p, d, done0, done', UNION_KEYS + {AllOf}))
    decreases p.rank(d) + 1, 4, 0
  {
    hide Sound, Closed, Kept, Fixed, Via, Settled, Visit, VisitEach, KidOk, AllOfMerged, InKeyword, UNION_KEYS;
    KeptFacts(h0, s.heap, p, d, done0, done);
    var v := Get(s.heap[d], AllOf);
    if v.List? && |v.items| == 1 {
      KeywordKids(s.heap, p, d, AllOf);
      assert v.items == [v.items[0]];
      done' := EachKept(e, fuel - 1, s, v.items, h0, p, d, done0, done);
      VisitOne(e, fuel - 1, s, v.items[0]);
      var r := Visit(e, fuel - 1, s, v.items[0]);
      if r.Returned? {
        assert v.items[0] in v.items;
        SettledLater(s.heap, r.state.heap, p, d, done, done', UNION_KEYS);
        MergedKept(r.state, d, v.items[0].id, h0, p, done0, done');
      }
    } else {
      done' := KeywordKept(e, fuel, s, d, AllOf, UNION_KEYS, h0, p, done0, done);
    }
  }

  lemma VisitOne(e: Env, fuel: nat, s: State, v: Json)
    ensures VisitEach(e, fuel, s, [v]) == Visit(e, fuel, s, v)
  {
    var r := Visit(e, fuel, s, v);
    assert [v][1..] == [];
    if r.Returned? {
      VisitNone(e, fuel, r.state, [v][1..]);
    }
  }

  lemma MergedKept(s: State, d: Id, c: Id, h0: Heap, p: Plan, done0: set<Id>, done: set<Id>)
    requires p.ranked && Sound(h0, p) && Steps(h0, s, p, d, done0, done, UNION_KEYS)
    requires Get(s.heap[d], AllOf) == List([Dict(c)]) && c in done
    ensures var r := AllOfMerged(s, d, c); r.Returned? && Steps(h0, r.state, p, d, done0, done, UNION_KEYS + {AllOf})
  {
    hide Sound, Closed, Kept, Settled, Edit, UNION_KEYS;
    KeptFacts(h0, s.heap, p, d, done0, done);
    MergeThere(s.heap, p, d, c);
    var r := AllOfMerged(s, d, c);
    MergeEdit(s.heap, r.state.heap, p, d, c, done);
    EditKept(h0, s.heap, r.state.heap, p, d, done0, done);
  }

  lemma DroppedKept(s: State, d: Id, h0: Heap, p: Plan, done0: set<Id>, done: set<Id>)
    requires Sound(h0, p) && Steps(h0, s, p, d, done0, done, UNION_KEYS + {AllOf})
    ensures Steps(h0, DefaultDropped(s, d), p, d, done0, done, UNION_KEYS + {AllOf, Default})
  {
    hide Sound, Closed, Kept, Settled, UNION_KEYS;
    KeptFacts(h0, s.heap, p, d, done0, done);
    if Default in s.heap[d] && s.heap[d][Default] == Null {
      DefaultKept(h0, s.heap, DefaultDropped(s, d).heap, p, d, done0, done);
    } else {
      DroppedSettled(s.heap, p, d, done);
    }
  }

  lemma DroppedSettled(h: Heap, p: Plan, d: Id, done: set<Id>)
    requires Settled(h, p, d, done, UNION_KEYS + {AllOf}) && NoNullDefault(h[d])
    ensures Settled(h, p, d, done, UNION_KEYS + {AllOf, Default})
  {
    assert forall y :: !Via(h, h[d], Default, y);
    hide Via, RequiresAll;
  }

  lemma InlineResolves(e: Env, s: State, p: Plan, d: Id)
    requires d in s.heap && e.root == p.root
    ensures var r := RefInlined(e, s, d);
      && !r.OutOfFuel?
      && (r.Returned? <==> Get(s.heap[d], DollarRef).Str? && Target(s.heap, p.root, d).Some?)
      && (r.Returned? ==> r.state == Put(s, d, At(s, Target(s.heap, p.root, d).value) + s.heap[d] - {DollarRef}))
  {
    hide RefPath;
    var ref := Get(s.heap[d], DollarRef);
    if ref.Str? && RefPath(ref.s).Some? {
      ResolveWalks(s.heap, e.root, RefPath(ref.s).value);
    }
  }

  lemma InlinedKept(e: Env, s: State, d: Id, h0: Heap, p: Plan, done0: set<Id>, done: set<Id>)
    requires e.root == p.root && Fresh(s) && Sound(h0, p) && Kept(h0, s.heap, p, d, done0, done)
    requires Get(s.heap[d], DollarRef) != Null
    ensures var r := RefInlined(e, s, d);
      && Ended(r, p)
      && (r.Returned? ==>
        Fresh(r.state) && Kept(h0, r.state.heap, p, d, done0, done) &&
        Get(At(r.state, d), DollarRef) == Null)
  {
    hide Sound, Closed, Kept, Target, RefInlined, Edit, Lends;
    KeptFacts(h0, s.heap, p, d, done0, done);
    RefThere(s.heap, p, d);
    InlineResolves(e, s, p, d);
    TargetStr(s.heap, p.root, d);
    var r := RefInlined(e, s, d);
    if r.Returned? {
      var t := Target(s.heap, p.root, d).value;
      TargetLends(s.heap, p, d, t);
      InlineEdit(s.heap, r.state.heap, p, d, t, done);
      EditKept(h0, s.heap, r.state.heap, p, d, done0, done);
    }
  }

  lemma TargetStr(h: Heap, root: Id, d: Id)
    requires d in h
    ensures Target(h, root, d).Some? ==> Get(h[d], DollarRef).Str?
  {
  }

  lemma BelowKept(e: Env, fuel: nat, s: State, d: Id, h0: Heap, p: Plan, done0: set<Id>, done: set<Id>)
    returns (done': set<Id>)
    requires Ready(e, p, s) && Sound(h0, p) && Kept(h0, s.heap, p, d, done0, done)
    requires fuel >= Depth(p, d) + 1
    ensures var r := Below(e, fuel, s, d);
      Ended(r, p) && (r.Returned? ==> Steps(h0, r.state, p, d, done0, done', UNION_KEYS + {AllOf}))
    decreases p.rank(d) + 1, 6, 0
  {
    hide Sound, Closed, Kept, Settled, Lists, InDefinitions, ObjectClosed, InProperties, InKeyword, InAllOf,
      UNION_KEYS, PROPERTY_KEYS;
    var done1 := DefinitionsKept(e, fuel, s, d, h0, p, done0, done);
    var r1 := InDefinitions(e, fuel, s, d);
    done' := done1;
    if r1.Returned? {
      ClosedKept(r1.state, d, h0, p, done0, done1);
      var s1 := ObjectClosed(r1.state, d);
      var done2 := PropertiesKept(e, fuel, s1, d, h0, p, done0, done1);
      var r2 := InProperties(e, fuel, s1, d);
      if r2.Returned? {
        done' := UnionsKept(e, fuel, r2.state, d, h0, p, done0, done2);
      }
    }
  }

  lemma UnionsKept(e: Env, fuel: nat, s: State, d: Id, h0: Heap, p: Plan, done0: set<Id>, done: set<Id>)
    returns (done': set<Id>)
    requires Ready(e, p, s) && Sound(h0, p) && Steps(h0, s, p, d, done0, done, PROPERTY_KEYS)
    requires fuel >= Depth(p, d) + 1
    ensures var r := Unions(e, fuel, s, d);
      Ended(r, p) && (r.Returned? ==> Steps(h0, r.state, p, d, done0, done', UNION_KEYS + {AllOf}))
    decreases p.rank(d) + 1, 5, 0
  {
    hide Sound, Closed, Kept, Settled, Lists, InKeyword, InAllOf, UNION_KEYS, PROPERTY_KEYS;
    done' := KeywordKept(e, fuel, s, d, Items, PROPERTY_KEYS, h0, p, done0, done);
    var r1 := InKeyword(e, fuel, s, d, Items);
    if r1.Returned? {
      done' := KeywordKept(e, fuel, r1.state, d, OneOf, PROPERTY_KEYS + {Items}, h0, p, done0, done');
      var r2 := InKeyword(e, fuel, r1.state, d, OneOf);
      if r2.Returned? {
        done' := KeywordKept(e, fuel, r2.state, d, AnyOf, PROPERTY_KEYS + {Items} + {OneOf}, h0, p, done0, done');
        UnionKeys();
        var r3 := InKeyword(e, fuel, r2.state, d, AnyOf);
        if r3.Returned? {
          done' := AllOfKept(e, fuel, r3.state, d, h0, p, done0, done');
        }
      }
    }
  }

  // A call given enough depth for the rank of its schema ends; without an error, everything it
  // visits is normalised.
  lemma VisitKept(e: Env, fuel: nat, s: State, v: Json, p: Plan, done: set<Id>) returns (done': set<Id>)
    requires Ready(e, p, s) && Sound(s.heap, p) && Closed(s.heap, p, done)
    requires v.Dict? ==> v.id in p.nodes
    requires fuel >= Needed(p, s, v)
    ensures var r := Visit(e, fuel, s, v);
      && !r.OutOfFuel? && (p.loadable && v.Dict? ==> r.Returned?)
      && (r.Returned? ==>
            Fresh(r.state) && Kept(s.heap, r.state.heap, p, v.id, done, done') && v.id in done')
    decreases if v.Dict? then p.rank(v.id) + 1 else 0,
              if v.Dict? && Get(At(s, v.id), DollarRef) != Null then 8 else 7, 0
  {
    hide Sound, Closed, Kept, Settled, Lists, Below, DefaultDropped, RefInlined, UNION_KEYS;
    done' := done;
    if v.Dict? {
      var d := v.id;
      KeptRefl(s.heap, p, d, done);
      done' := BelowKept(e, fuel, s, d, s.heap, p, done, done);
      var r1 := Below(e, fuel, s, d);
      if r1.Returned? {
        DroppedKept(r1.state, d, s.heap, p, done, done');
        var s2 := DefaultDropped(r1.state, d);
        KeptFacts(s.heap, s2.heap, p, d, done, done');
        KeptRef(s.heap, s2.heap, p, d, done, done');
        if Get(At(s2, d), DollarRef) == Null {
          SettledDone(s.heap, s2.heap, p, d, done, done');
          done' := done' + {d};
        } else {
          InlinedKept(e, s2, d, s.heap, p, done, done');
          var r3 := RefInlined(e, s2, d);
          if r3.Returned? {
            KeptFacts(s.heap, r3.state.heap, p, d, done, done');
            var ds := done';
            done' := VisitKept(e, fuel - 1, r3.state, v, p, ds);
            var r := Visit(e, fuel - 1, r3.state, v);
            if r.Returned? {
              CallKept(s.heap, r3.state.heap, r.state.heap, p, d, d, done, ds, done');
            }
          }
        }
      }
    }
  }

  lemma KeptRef(h0: Heap, h: Heap, p: Plan, d: Id, done0: set<Id>, done: set<Id>)
    requires Kept(h0, h, p, d, done0, done)
    ensures d in h0 && d in h && (Get(h[d], DollarRef) != Null ==> Get(h0[d], DollarRef) != Null)
  {
  }

  // ----- the result does not depend on the bound, once there is one -----

  lemma {:induction false} MoreFuel(e: Env, fuel: nat, more: nat, s: State, v: Json)
    requires !Visit(e, fuel, s, v).OutOfFuel? && fuel <= more
    ensures Visit(e, more, s, v) == Visit(e, fuel, s, v)
    decreases fuel, 5
  {
    hide Below, DefaultDropped, RefInlined;
    if v.Dict? {
      MoreBelow(e, fuel, more, s, v.id);
      var r := Below(e, fuel, s, v.id);
      if r.Returned? {
        var s2 := DefaultDropped(r.state, v.id);
        if Get(At(s2, v.id), DollarRef) != Null {
          var r3 := RefInlined(e, s2, v.id);
          if r3.Returned? {
            MoreFuel(e, fuel - 1, more - 1, r3.state, v);
          }
        }
      }
    }
  }

  lemma {:induction false} MoreEach(e: Env, fuel: nat, more: nat, s: State, vs: seq<Json>)
    requires !VisitEach(e, fuel, s, vs).OutOfFuel? && fuel <= more
    ensures VisitEach(e, more, s, vs) == VisitEach(e, fuel, s, vs)
    decreases fuel, 6, |vs|
  {
    hide Visit;
    if vs != [] {
      MoreFuel(e, fuel, more, s, vs[0]);
      var r := Visit(e, fuel, s, vs[0]);
      if r.Returned? {
        MoreEach(e, fuel, more, r.state, vs[1..]);
      }
    }
  }

  lemma MoreKeyword(e: Env, fuel: nat, more: nat, s: State, d: Id, k: Key)
    requires fuel > 0 && fuel <= more && !InKeyword(e, fuel, s, d, k).OutOfFuel?
    ensures InKeyword(e, more, s, d, k) == InKeyword(e, fuel, s, d, k)
    decreases fuel, 1
  {
    hide VisitEach;
    var v := Get(At(s, d), k);
    if !(if k == Items then !v.Dict? else !v.List?) {
      MoreEach(e, fuel - 1, more - 1, s, SubSchemas(k, v));
    }
  }

  lemma MoreUnions(e: Env, fuel: nat, more: nat, s: State, d: Id)
    requires fuel > 0 && fuel <= more && !Unions(e, fuel, s, d).OutOfFuel?
    ensures Unions(e, more, s, d) == Unions(e, fuel, s, d)
    decreases fuel, 3
  {
    hide InKeyword, InAllOf;
    MoreKeyword(e, fuel, more, s, d, Items);
    var r1 := InKeyword(e, fuel, s, d, Items);
    if r1.Returned? {
      MoreKeyword(e, fuel, more, r1.state, d, OneOf);
      var r2 := InKeyword(e, fuel, r1.state, d, OneOf);
      if r2.Returned? {
        MoreKeyword(e, fuel, more, r2.state, d, AnyOf);
        var r3 := InKeyword(e, fuel, r2.state, d, AnyOf);
        if r3.Returned? {
          MoreAllOf(e, fuel, more, r3.state, d);
        }
      }
    }
  }

  lemma MoreAllOf(e: Env, fuel: nat, more: nat, s: State, d: Id)
    requires fuel > 0 && fuel <= more && !InAllOf(e, fuel, s, d).OutOfFuel?
    ensures InAllOf(e, more, s, d) == InAllOf(e, fuel, s, d)
    decreases fuel, 2
  {
    hide Visit, InKeyword, AllOfMerged;
    var v := Get(At(s, d), AllOf);
    if v.List? && |v.items| == 1 {
      MoreFuel(e, fuel - 1, more - 1, s, v.items[0]);
    } else {
      MoreKeyword(e, fuel, more, s, d, AllOf);
    }
  }

  lemma MoreBelow(e: Env, fuel: nat, more: nat, s: State, d: Id)
    requires fuel > 0 && fuel <= more && !Below(e, fuel, s, d).OutOfFuel?
    ensures Below(e, more, s, d) == Below(e, fuel, s, d)
    decreases fuel, 4
  {
    hide VisitEach, Unions, ObjectClosed;
    var table := Get(At(s, d), Definitions);
    if table.Dict? {
      MoreEach(e, fuel - 1, more - 1, s, ValuesOf(At(s, table.id), e.order(s.heap, table.id)));
    }
    var r1 := InDefinitions(e, fuel, s, d);
    if r1.Returned? {
      var s1 := ObjectClosed(r1.state, d);
      MoreProperties(e, fuel, more, s1, d);
      hide InDefinitions, InProperties;
      var r2 := InProperties(e, fuel, s1, d);
      if r2.Returned? {
        MoreUnions(e, fuel, more, r2.state, d);
      }
    }
  }

  lemma MoreProperties(e: Env, fuel: nat, more: nat, s: State, d: Id)
    requires fuel > 0 && fuel <= more && !InProperties(e, fuel, s, d).OutOfFuel?
    ensures InProperties(e, more, s, d) == InProperties(e, fuel, s, d)
    decreases fuel, 3
  {
    hide VisitEach;
    var table := Get(At(s, d), Properties);
    if table.Dict? {
      var ks := e.order(s.heap, table.id);
      MoreEach(e, fuel - 1, more - 1, RequiredListed(s, d, ks), ValuesOf(At(s, table.id), ks));
    }
  }

  // ----- what a run can write -----

  ghost predicate GivenSomewhere(h0: Heap, k: Key, v: Json) {
    exists i :: i in h0 && k in h0[i] && h0[i][k] == v
  }

  // Every entry was given under its key, or forbids additional properties; two keywords are rebuilt.
  ghost predicate EntriesGiven(h0: Heap, o: Object) {
    forall k :: k in o && k !in {Required, Properties} ==>
      GivenSomewhere(h0, k, o[k]) || (k == AdditionalProperties && o[k] == Bool(false))
  }

  ghost predicate OnlyGiven(h0: Heap, h: Heap) {
    forall i :: i in h ==> EntriesGiven(h0, h[i])
  }

  ghost predicate Traced(h0: Heap, r: Run) { r.OutOfFuel? || OnlyGiven(h0, r.state.heap) }

  lemma GivenItself(h: Heap)
    ensures OnlyGiven(h, h)
  {
    forall i, k | i in h && k in h[i] ensures GivenSomewhere(h, k, h[i][k]) {}
  }

  lemma GivenAt(h0: Heap, s: State, i: Id)
    requires OnlyGiven(h0, s.heap)
    ensures EntriesGiven(h0, At(s, i))
  {
  }

  lemma PutGiven(h0: Heap, s: State, i: Id, o: Object)
    requires OnlyGiven(h0, s.heap) && EntriesGiven(h0, o)
    ensures OnlyGiven(h0, Put(s, i, o).heap)
  {
    hide EntriesGiven;
  }

  lemma ClosedGiven(h0: Heap, s: State, d: Id)
    requires OnlyGiven(h0, s.heap)
    ensures OnlyGiven(h0, ObjectClosed(s, d).heap)
  {
    GivenAt(h0, s, d);
    hide GivenSomewhere, OnlyGiven, Put;
    PutGiven(h0, s, d, if ObjectClosed(s, d) == s then At(s, d) else At(s, d)[AdditionalProperties := Bool(false)]);
  }

  lemma DroppedGiven(h0: Heap, s: State, d: Id)
    requires OnlyGiven(h0, s.heap)
    ensures OnlyGiven(h0, DefaultDropped(s, d).heap)
  {
    GivenAt(h0, s, d);
    hide GivenSomewhere, OnlyGiven, Put;
    PutGiven(h0, s, d, At(s, d) - {Default});
  }

  lemma InlinedGiven(e: Env, h0: Heap, s: State, d: Id)
    requires OnlyGiven(h0, s.heap)
    ensures Traced(h0, RefInlined(e, s, d))
  {
    hide GivenSomewhere, OnlyGiven, Put, Resolution;
    var ref := Get(At(s, d), DollarRef);
    if ref.Str? && Resolution(s.heap, e.root, ref.s).Ok? {
      var t := Resolution(s.heap, e.root, ref.s).value;
      GivenAt(h0, s, d);
      GivenAt(h0, s, t);
      PutGiven(h0, s, d, At(s, t) + At(s, d) - {DollarRef});
    }
  }

  lemma MergedGiven(h0: Heap, s: State, d: Id, c: Id)
    requires OnlyGiven(h0, s.heap)
    ensures Traced(h0, AllOfMerged(s, d, c))
  {
    hide GivenSomewhere, OnlyGiven, Put;
    GivenAt(h0, s, d);
    GivenAt(h0, s, c);
    PutGiven(h0, s, d, At(s, d) + At(s, c));
    PutGiven(h0, s, d, At(s, d) + At(s, c) - {AllOf});
  }

  lemma RetabledGiven(h0: Heap, s: State, d: Id, entries: Object)
    requires OnlyGiven(h0, s.heap) && EntriesGiven(h0, entries)
    ensures OnlyGiven(h0, Retabled(s, d, entries).heap)
  {
    hide GivenSomewhere, OnlyGiven;
    GivenAt(h0, s, d);
    PutGiven(h0, s, s.next, entries);
    PutGiven(h0, Put(s, s.next, entries), d, At(s, d)[Properties := Dict(s.next)]);
  }

  lemma KeywordGiven(e: Env, fuel: nat, s: State, d: Id, k: Key, h0: Heap)
    requires fuel > 0 && OnlyGiven(h0, s.heap)
    ensures Traced(h0, InKeyword(e, fuel, s, d, k))
    decreases fuel, 0
  {
    hide GivenSomewhere, OnlyGiven, Put, VisitEach;
    var v := Get(At(s, d), k);
    if !(if k == Items then !v.Dict? else !v.List?) {
      EachGiven(e, fuel - 1, s, SubSchemas(k, v), h0);
      var r := VisitEach(e, fuel - 1, s, SubSchemas(k, v));
      if r.Returned? {
        GivenAt(h0, s, d);
        GivenAt(h0, r.state, d);
        PutGiven(h0, r.state, d, At(r.state, d)[k := v]);
      }
    }
  }

  lemma PropertiesGiven(e: Env, fuel: nat, s: State, d: Id, h0: Heap)
    requires fuel > 0 && OnlyGiven(h0, s.heap)
    ensures Traced(h0, InProperties(e, fuel, s, d))
    decreases fuel, 1
  {
    hide GivenSomewhere, OnlyGiven, Put, VisitEach, Retabled, Names;
    var table := Get(At(s, d), Properties);
    if table.Dict? {
      var entries, ks := At(s, table.id), e.order(s.heap, table.id);
      GivenAt(h0, s, d);
      GivenAt(h0, s, table.id);
      PutGiven(h0, s, d, At(s, d)[Required := List(Names(ks))]);
      EachGiven(e, fuel - 1, RequiredListed(s, d, ks), ValuesOf(entries, ks), h0);
      var r := VisitEach(e, fuel - 1, RequiredListed(s, d, ks), ValuesOf(entries, ks));
      if r.Returned? {
        RetabledGiven(h0, r.state, d, entries);
      }
    }
  }

  lemma UnionsGiven(e: Env, fuel: nat, s: State, d: Id, h0: Heap)
    requires fuel > 0 && OnlyGiven(h0, s.heap)
    ensures Traced(h0, Unions(e, fuel, s, d))
    decreases fuel, 2
  {
    hide OnlyGiven, InKeyword, Visit, AllOfMerged;
    KeywordGiven(e, fuel, s, d, Items, h0);
    var r1 := InKeyword(e, fuel, s, d, Items);
    if r1.Returned? {
      KeywordGiven(e, fuel, r1.state, d, OneOf, h0);
      var r2 := InKeyword(e, fuel, r1.state, d, OneOf);
      if r2.Returned? {
        KeywordGiven(e, fuel, r2.state, d, AnyOf, h0);
        var r3 := InKeyword(e, fuel, r2.state, d, AnyOf);
        if r3.Returned? {
          AllOfGiven(e, fuel, r3.state, d, h0);
        }
      }
    }
  }

  lemma AllOfGiven(e: Env, fuel: nat, s: State, d: Id, h0: Heap)
    requires fuel > 0 && OnlyGiven(h0, s.heap)
    ensures Traced(h0, InAllOf(e, fuel, s, d))
    decreases fuel, 1
  {
    hide OnlyGiven, InKeyword, Visit, AllOfMerged;
    var v := Get(At(s, d), AllOf);
    if v.List? && |v.items| == 1 {
      VisitGiven(e, fuel - 1, s, v.items[0], h0);
      var r := Visit(e, fuel - 1, s, v.items[0]);
      if r.Returned? {
        MergedGiven(h0, r.state, d, v.items[0].id);
      }
    } else {
      KeywordGiven(e, fuel, s, d, AllOf, h0);
    }
  }

  lemma BelowGiven(e: Env, fuel: nat, s: State, d: Id, h0: Heap)
    requires fuel > 0 && OnlyGiven(h0, s.heap)
    ensures Traced(h0, Below(e, fuel, s, d))
    decreases fuel, 3
  {
    hide OnlyGiven, VisitEach, ObjectClosed, InProperties, Unions;
    var table := Get(At(s, d), Definitions);
    if table.Dict? {
      EachGiven(e, fuel - 1, s, ValuesOf(At(s, table.id), e.order(s.heap, table.id)), h0);
    }
    var r1 := InDefinitions(e, fuel, s, d);
    if r1.Returned? {
      ClosedGiven(h0, r1.state, d);
      var s1 := ObjectClosed(r1.state, d);
      PropertiesGiven(e, fuel, s1, d, h0);
      var r2 := InProperties(e, fuel, s1, d);
      if r2.Returned? {
        UnionsGiven(e, fuel, r2.state, d, h0);
      }
    }
  }

  lemma EachGiven(e: Env, fuel: nat, s: State, vs: seq<Json>, h0: Heap)
    requires OnlyGiven(h0, s.heap)
    ensures Traced(h0, VisitEach(e, fuel, s, vs))
    decreases fuel, 5, |vs|
  {
    hide OnlyGiven, Visit;
    if vs != [] {
      VisitGiven(e, fuel, s, vs[0], h0);
      var r := Visit(e, fuel, s, vs[0]);
      if r.Returned? {
        EachGiven(e, fuel, r.state, vs[1..], h0);
      }
    }
  }

  // However a run ends, on whatever document: no entry comes from nowhere.
  lemma {:induction false} VisitGiven(e: Env, fuel: nat, s: State, v: Json, h0: Heap)
    requires OnlyGiven(h0, s.heap)
    ensures Traced(h0, Visit(e, fuel, s, v))
    decreases fuel, 4
  {
    hide OnlyGiven, Below, DefaultDropped, RefInlined;
    if fuel > 0 && v.Dict? {
      BelowGiven(e, fuel, s, v.id, h0);
      var r := Below(e, fuel, s, v.id);
      if r.Returned? {
        DroppedGiven(h0, r.state, v.id);
        var s2 := DefaultDropped(r.state, v.id);
        if Get(At(s2, v.id), DollarRef) != Null {
          InlinedGiven(e, h0, s2, v.id);
          var r3 := RefInlined(e, s2, v.id);
          if r3.Returned? {
            VisitGiven(e, fuel - 1, r3.state, v, h0);
          }
        }
      }
    }
  }

  // ----- the normaliser itself, changing the dictionaries in place -----

  // How a method that stops with r leaves the state s.
  function Ending(r: Outcome<Error>, s: State): Run {
    if r.Pass? then Returned(s) else Raised(r.error, s)
  }

  class Document {
    var heap: Heap
    var next: Id  // dictionaries allocated from now on get ids from here up
    const env: Env

    constructor (h: Heap, n: Id, e: Env)
      ensures heap == h && next == n && env == e
    {
      heap, next, env := h, n, e;
    }

    function Now(): State
      reads this
    {
      State(heap, next)
    }

    function Entries(i: Id): Object
      reads this
    {
      At(Now(), i)
    }

    // resolve_ref
    method ResolveRef(ref: string) returns (r: Result<Id, Error>)
      ensures r == Resolution(heap, env.root, ref)
    {
      if RefPath(ref).None? { return Err(ValueError); }
      var path := RefPath(ref).value;
      var at := env.root;
      for i := 0 to |path|
        invariant Resolve(heap, at, path[i..]) == Resolve(heap, env.root, path)
      {
        assert path[i..][1..] == path[i + 1..];
        if at !in heap || path[i] !in heap[at] { return Err(KeyError); }
        var value := heap[at][path[i]];
        if !value.Dict? { return Err(AssertionError); }
        at := value.id;
      }
      return Ok(at);
    }

    // the visits of a table or a list, in order
    method VisitAll(values: seq<Json>, ghost fuel: nat) returns (r: Outcome<Error>)
      requires !VisitEach(env, fuel, Now(), values).OutOfFuel?
      modifies this
      ensures Ending(r, Now()) == VisitEach(env, fuel, old(Now()), values)
      decreases fuel, 5
    {
      hide Visit;
      for i := 0 to |values|
        invariant VisitEach(env, fuel, Now(), values[i..]) == VisitEach(env, fuel, old(Now()), values)
      {
        assert values[i..][1..] == values[i + 1..];
        var v := EnsureStrict(values[i], fuel);
        if v.Err? { return Fail(v.error); }
      }
      return Pass;
    }

    // `definitions`: every definition is visited
    method VisitDefinitions(d: Id, ghost fuel: nat) returns (r: Outcome<Error>)
      requires fuel > 0 && !InDefinitions(env, fuel, Now(), d).OutOfFuel?
      modifies this
      ensures Ending(r, Now()) == InDefinitions(env, fuel, old(Now()), d)
      decreases fuel, 2
    {
      hide VisitEach;
      r := Pass;
      var table := Get(Entries(d), Definitions);
      if table.Dict? {
        r := VisitAll(ValuesOf(Entries(table.id), env.order(heap, table.id)), fuel - 1);
      }
    }

    // an object without `additionalProperties` forbids them
    method CloseObject(d: Id)
      modifies this
      ensures Now() == ObjectClosed(old(Now()), d)
      ensures forall k :: k in old(Entries(d)) ==> k in Entries(d) && Entries(d)[k] == old(Entries(d))[k]
      ensures forall k :: k in Entries(d) && k !in old(Entries(d)) ==>
        k == AdditionalProperties && Entries(d)[k] == Bool(false) && Get(Entries(d), Type) == Str("object")
    {
      if Get(Entries(d), Type) == Str("object") && AdditionalProperties !in Entries(d) {
        heap := heap[d := Entries(d)[AdditionalProperties := Bool(false)]];
      }
    }

    // `required` lists every property; the visited properties are put in a new dictionary
    method StrictProperties(d: Id, ghost fuel: nat) returns (r: Outcome<Error>)
      requires fuel > 0 && !InProperties(env, fuel, Now(), d).OutOfFuel?
      modifies this
      ensures Ending(r, Now()) == InProperties(env, fuel, old(Now()), d)
      ensures var table := Get(old(Entries(d)), Properties);
        r.Pass? && table.Dict? ==>
          next > 0 && Get(Entries(d), Properties) == Dict(next - 1) &&
          (next - 1 != d ==> Entries(next - 1) == old(Entries(table.id)))
      decreases fuel, 2
    {
      hide VisitEach;
      r := Pass;
      var table := Get(Entries(d), Properties);
      if table.Dict? {
        var properties, names := Entries(table.id), env.order(heap, table.id);
        heap := heap[d := Entries(d)[Required := List(Names(names))]];
        r := VisitAll(ValuesOf(properties, names), fuel - 1);
        if r.Pass? {
          heap := heap[next := properties][d := Entries(d)[Properties := Dict(next)]];
          next := next + 1;
        }
      }
    }

    // `items`, `oneOf`, `anyOf` and a longer `allOf`: a visit returns the dictionary it was given,
    // so the list stored back has the entries it had
    method VisitKeyword(d: Id, k: Key, ghost fuel: nat) returns (r: Outcome<Error>)
      requires fuel > 0 && !InKeyword(env, fuel, Now(), d, k).OutOfFuel?
      modifies this
      ensures Ending(r, Now()) == InKeyword(env, fuel, old(Now()), d, k)
      decreases fuel, 0
    {
      hide VisitEach;
      r := Pass;
      var v := Get(Entries(d), k);
      if (if k == Items then v.Dict? else v.List?) {
        r := VisitAll(SubSchemas(k, v), fuel - 1);
        if r.Pass? {
          heap := heap[d := Entries(d)[k := v]];
        }
      }
    }

    // a single `allOf` entry is merged into d, its entries first
    method MergeAllOf(d: Id, c: Id) returns (r: Outcome<Error>)
      modifies this
      ensures Ending(r, Now()) == AllOfMerged(old(Now()), d, c)
      ensures r.Pass? ==> AllOf !in Entries(d) && forall k :: k != AllOf ==>
        (k in Entries(d) <==> k in old(Entries(d)) || k in old(Entries(c))) &&
        Get(Entries(d), k) == if k in old(Entries(c)) then old(Entries(c))[k] else Get(old(Entries(d)), k)
    {
      heap := heap[d := Entries(d) + Entries(c)];
      if AllOf !in heap[d] { return Fail(KeyError); }
      heap := heap[d := heap[d] - {AllOf}];
      return Pass;
    }

    method IntersectionOf(d: Id, ghost fuel: nat) returns (r: Outcome<Error>)
      requires fuel > 0 && !InAllOf(env, fuel, Now(), d).OutOfFuel?
      modifies this
      ensures Ending(r, Now()) == InAllOf(env, fuel, old(Now()), d)
      decreases fuel, 1
    {
      hide Visit, InKeyword, AllOfMerged;
      var allOf := Get(Entries(d), AllOf);
      if allOf.List? && |allOf.items| == 1 {
        var v := EnsureStrict(allOf.items[0], fuel - 1);
        if v.Err? { return Fail(v.error); }
        r := MergeAllOf(d, allOf.items[0].id);
      } else {
        r := VisitKeyword(d, AllOf, fuel);
      }
    }

    // a `default` of null is dropped
    method DropNullDefault(d: Id)
      modifies this
      ensures Now() == DefaultDropped(old(Now()), d)
      ensures forall k :: Get(Entries(d), k) == Get(old(Entries(d)), k)
      ensures forall k :: k in Entries(d) <==> k in old(Entries(d)) && (k == Default ==> old(Entries(d))[k] != Null)
    {
      if Default in Entries(d) && Entries(d)[Default] == Null {
        heap := heap[d := Entries(d) - {Default}];
      }
    }

    // a `$ref` is replaced by the entries of its target that d does not define itself
    method InlineRef(d: Id) returns (r: Outcome<Error>)
      requires Get(Entries(d), DollarRef) != Null
      modifies this
      ensures Ending(r, Now()) == RefInlined(env, old(Now()), d)
      ensures r.Pass? ==> Target(old(heap), env.root, d).Some? && DollarRef !in Entries(d)
      ensures r.Pass? ==> var t := old(Entries(Target(heap, env.root, d).value));
        forall k :: k != DollarRef ==>
          (k in Entries(d) <==> k in old(Entries(d)) || k in t) &&
          Get(Entries(d), k) == (if k in old(Entries(d)) then old(Entries(d))[k] else Get(t, k))
      ensures !Get(old(Entries(d)), DollarRef).Str? ==> r == Fail(AssertionError)
    {
      hide Resolution;
      var ref := Get(Entries(d), DollarRef);
      if !ref.Str? { return Fail(AssertionError); }
      var t := ResolveRef(ref.s);
      ResolutionTarget(heap, env.root, d);
      if t.Err? { return Fail(t.error); }
      heap := heap[d := Entries(t.value) + Entries(d) - {DollarRef}];
      return Pass;
    }

    // the keywords of d that hold sub-schemas, in the order the normaliser takes them
    method VisitBelow(d: Id, ghost fuel: nat) returns (r: Outcome<Error>)
      requires fuel > 0 && !Below(env, fuel, Now(), d).OutOfFuel?
      modifies this
      ensures Ending(r, Now()) == Below(env, fuel, old(Now()), d)
      decreases fuel, 3
    {
      hide InDefinitions, ObjectClosed, InProperties, InKeyword, InAllOf;
      r := VisitDefinitions(d, fuel);
      if r.Fail? { return; }
      CloseObject(d);
      r := StrictProperties(d, fuel);
      if r.Fail? { return; }
      r := VisitKeyword(d, Items, fuel);
      if r.Fail? { return; }
      r := VisitKeyword(d, OneOf, fuel);
      if r.Fail? { return; }
      r := VisitKeyword(d, AnyOf, fuel);
      if r.Fail? { return; }
      r := IntersectionOf(d, fuel);
    }

    // _ensure_strict_json_schema
    method EnsureStrict(schema: Json, ghost fuel: nat) returns (r: Result<Json, Error>)
      requires !Visit(env, fuel, Now(), schema).OutOfFuel?
      modifies this
      ensures r.Ok? ==> r.value == schema && Visit(env, fuel, old(Now()), schema) == Returned(Now())
      ensures r.Err? ==> Visit(env, fuel, old(Now()), schema) == Raised(r.error, Now())
      ensures !schema.Dict? ==> r == Err(TypeError)
      decreases fuel, 4
    {
      hide Below, DefaultDropped, RefInlined;
      if !schema.Dict? { return Err(TypeError); }
      var d := schema.id;
      var e := VisitBelow(d, fuel);
      if e.Fail? { return Err(e.error); }
      DropNullDefault(d);
      if Get(Entries(d), DollarRef) != Null {
        e := InlineRef(d);
        if e.Fail? { return Err(e.error); }
        r := EnsureStrict(schema, fuel - 1);
        return;
      }
      return Ok(schema);
    }
  }

  // ----- from an acyclic document to a strict one -----

  // A target with nothing left to inline: what it gives to take over is settled from the start.
  ghost predicate Plain(h: Heap, p: Plan, t: Id)
    requires t in h
  {
    t !in p.nodes || (p.allOfFree && Get(h[t], DollarRef) == Null)
  }

  // x takes over the sub-schema y from the target of its reference, having no such keyword itself.
  ghost predicate Inherits(h: Heap, p: Plan, x: Id, y: Id)
    requires x in h
  {
    var t := Target(h, p.root, x);
    t.Some? && t.value in h && exists k :: (k !in h[x] || k == AllOf) && Via(h, h[t.value], k, y)
  }

  // Where the normaliser can go on to from x: a sub-schema of its own, one that it takes over, or
  // whatever a target with a reference of its own may turn into.
  ghost predicate Edge(h: Heap, p: Plan, x: Id, y: Id)
    requires x in h
  {
    || IsKid(h, x, y)
    || Inherits(h, p, x, y)
    || (Target(h, p.root, x) == Some(y) && y in h && !Plain(h, p, y))
  }

  ghost function Edges(h: Heap, p: Plan): set<(Id, Id)>
    requires p.nodes <= h.Keys
  {
    set x, y | x in p.nodes && y in p.nodes && Edge(h, p, x, y) :: (x, y)
  }

  // A document as it is given: nothing is known of ranks.
  ghost predicate Given(e: Env, s: State, p: Plan) {
    Fresh(s) && Lists(e.order) && p.root == e.root && !p.ranked && Sound(s.heap, p)
  }

  lemma {:induction false} OffNodesMono(h: Heap, p: Plan, q: Plan, at: Id, path: seq<Key>)
    requires at in h && q.nodes <= p.nodes && OffNodes(h, p, at, path)
    ensures OffNodes(h, q, at, path)
    decreases |path|
  {
    if |path| > 1 && path[0] in h[at] && h[at][path[0]].Dict? && h[at][path[0]].id in h {
      OffNodesMono(h, p, q, h[at][path[0]].id, path[1..]);
    }
  }

  // The plan q ranks the nodes of p.
  ghost predicate Ranks(h: Heap, p: Plan, q: Plan) {
    && p.nodes <= h.Keys && q == p.(ranked := true, rank := q.rank)
    && forall x, y :: (x, y) in Edges(h, p) ==> q.rank(y) < q.rank(x)
  }

  lemma EdgeFalls(h: Heap, p: Plan, q: Plan, x: Id, y: Id)
    requires Ranks(h, p, q) && x in p.nodes && y in p.nodes && Edge(h, p, x, y)
    ensures KidOk(q, x, y)
  {
    assert (x, y) in Edges(h, p);
  }

  lemma RankedTarget(h: Heap, p: Plan, q: Plan, x: Id, t: Id)
    requires Ranks(h, p, q) && Sound(h, p) && !p.ranked && x in p.nodes && Target(h, p.root, x) == Some(t)
    ensures TargetOk(h, q, x, t)
  {
    hide Guarded, Walk, RefPath, Target;
    TargetLends(h, p, x, t);
    if Plain(h, p, t) {
      forall k, y | (k !in h[x] || k == AllOf) && Via(h, h[t], k, y) ensures KidOk(q, x, y) {
        assert KidOk(p, x, y);
        assert Inherits(h, p, x, y);
        EdgeFalls(h, p, q, x, y);
      }
      assert Lends(h, q, x, t);
    } else {
      EdgeFalls(h, p, q, x, t);
    }
  }

  lemma RankedNode(h: Heap, p: Plan, q: Plan, x: Id)
    requires Ranks(h, p, q) && Sound(h, p) && !p.ranked && x in p.nodes
    ensures NodeOk(h, q, x)
  {
    hide Guarded, Edge, Edges, TargetOk, Walk, RefPath, ValuesLoadable;
    assert NodeOk(h, p, x);
    forall k, y | Via(h, h[x], k, y) ensures KidOk(q, x, y) {
      assert KidOk(p, x, y);
      KidEdge(h, p, x, k, y);
      EdgeFalls(h, p, q, x, y);
    }
    var ref := Get(h[x], DollarRef);
    if ref.Str? && RefPath(ref.s).Some? {
      OffNodesMono(h, p, q, p.root, RefPath(ref.s).value);
      if Target(h, p.root, x).Some? {
        RankedTarget(h, p, q, x, Target(h, p.root, x).value);
      }
    }
  }

  lemma KidEdge(h: Heap, p: Plan, x: Id, k: Key, y: Id)
    requires x in h && Via(h, h[x], k, y)
    ensures Edge(h, p, x, y)
  {
    assert IsKid(h, x, y);
  }

  lemma RankedGuard(h: Heap, p: Plan, q: Plan)
    requires p.root in h && q == p.(ranked := true, rank := q.rank) && Guarded(h, p)
    ensures Guarded(h, q)
  {
    hide Target;
    forall x | x in q.tame ensures x in h && TameOk(h, q, x) { assert TameOk(h, p, x); }
    if !q.allOfFree {
      forall x | x in q.lead ensures x in h && LeadOk(h, q, x) { assert LeadOk(h, p, x); }
    }
  }

  // A given document without a cycle satisfies everything the normaliser relies on.
  lemma AcyclicSound(h: Heap, p: Plan) returns (q: Plan)
    requires Sound(h, p) && !p.ranked && RefGraph.Acyclic(Edges(h, p))
    ensures Sound(h, q) && q == p.(ranked := true, rank := q.rank)
  {
    hide Guarded, NodeOk, Edge, NoDangling;
    var rank := RefGraph.AcyclicHasRank(p.nodes, Edges(h, p));
    q := p.(ranked := true, rank := rank);
    RankedGuard(h, p, q);
    forall x | x in p.nodes ensures NodeOk(h, q, x) { RankedNode(h, p, q, x); }
  }

  // A walk along visited sub-schemas.
  ghost predicate VisitPath(h: Heap, path: seq<Id>) {
    && |path| >= 1
    && forall i :: 0 <= i < |path| - 1 ==> IsKid(h, path[i], path[i + 1])
  }

  // Nothing below a finished node is left unnormalised.
  lemma {:induction false} ReachedStrict(h: Heap, p: Plan, done: set<Id>, path: seq<Id>)
    requires Closed(h, p, done) && VisitPath(h, path) && path[0] in done
    ensures path[|path| - 1] in done && LocalStrict(h, p, h[path[|path| - 1]])
    decreases |path|
  {
    if |path| > 1 {
      assert IsKid(h, path[0], path[1]);
      var k :| Via(h, h[path[0]], k, path[1]);
      assert path[1] in done;
      assert VisitPath(h, path[1..]) by {
        forall i | 0 <= i < |path[1..]| - 1
          ensures IsKid(h, path[1..][i], path[1..][i + 1])
        {
          assert IsKid(h, path[i + 1], path[i + 2]);
        }
      }
      ReachedStrict(h, p, done, path[1..]);
    }
  }

  // No position the normaliser visits keeps a reference, an open object, a null default, a single
  // `allOf` or, in a document without `allOf`, an incomplete `required`.
  ghost predicate AllStrict(h: Heap, p: Plan) {
    forall path :: VisitPath(h, path) && path[0] == p.root ==>
      path[|path| - 1] in h && LocalStrict(h, p, h[path[|path| - 1]])
  }

  // On a given document without a cycle the normaliser ends; it raises nothing when every
  // sub-schema is a dictionary and every reference resolves; and when it returns, every position
  // it visits is strict and, without `allOf`, no node has lost anything it said.
  lemma NormaliseEnds(e: Env, s: State, p: Plan) returns (fuel: nat)
    requires Given(e, s, p) && RefGraph.Acyclic(Edges(s.heap, p))
    ensures var r := Visit(e, fuel, s, Dict(p.root));
      && !r.OutOfFuel?
      && (p.loadable ==> r.Returned?)
      && (r.Returned? ==> AllStrict(r.state.heap, p) && (p.allOfFree ==> Evolves(s.heap, r.state.heap, p)))
      && OnlyGiven(s.heap, r.state.heap)
  {
    hide Sound, Edges, Visit, Evolves, OnlyGiven;
    GivenItself(s.heap);
    var q := AcyclicSound(s.heap, p);
    fuel := Depth(q, p.root) + 2;
    RootNode(s.heap, q);
    var done := VisitKept(e, fuel, s, Dict(p.root), q, {});
    VisitGiven(e, fuel, s, Dict(p.root), s.heap);
    var r := Visit(e, fuel, s, Dict(p.root));
    if r.Returned? {
      KeptFacts(s.heap, r.state.heap, q, p.root, {}, done);
      DoneStrict(r.state.heap, p, q, done);
      if p.allOfFree {
        RankFreeEvolves(s.heap, r.state.heap, p, q);
      }
    }
  }

  lemma RootNode(h: Heap, p: Plan)
    requires Sound(h, p)
    ensures p.root in p.nodes && p.nodes <= h.Keys && Closed(h, p, {})
  {
  }

  lemma DoneStrict(h: Heap, p: Plan, q: Plan, done: set<Id>)
    requires q == p.(ranked := true, rank := q.rank) && Closed(h, q, done) && p.root in done
    ensures AllStrict(h, p)
  {
    forall path | VisitPath(h, path) && path[0] == p.root
      ensures path[|path| - 1] in h && LocalStrict(h, p, h[path[|path| - 1]])
    {
      ReachedStrict(h, q, done, path);
    }
  }

  lemma RankFreeEvolves(h: Heap, h': Heap, p: Plan, q: Plan)
    requires q == p.(ranked := true, rank := q.rank) && Evolves(h, h', q)
    ensures Evolves(h, h', p)
  {
    hide Evolved, Target;
    forall x | x in p.nodes ensures Evolved(h, h', p, x) {
      RankFreeEvolved(h, h', p, q, x);
    }
  }

  lemma RankFreeEvolved(h: Heap, h': Heap, p: Plan, q: Plan, x: Id)
    requires q == p.(ranked := true, rank := q.rank) && x in h && x in h' && Evolved(h, h', q, x)
    ensures Evolved(h, h', p, x)
  {
    hide Walk, RefPath;
  }

  // The whole normaliser on a given acyclic document, in place.
  method Normalise(doc: Document, ghost p: Plan) returns (r: Result<Json, Error>)
    requires Given(doc.env, doc.Now(), p) && RefGraph.Acyclic(Edges(doc.heap, p))
    modifies doc
    ensures p.loadable ==> r.Ok?
    ensures r.Ok? ==> r.value == Dict(p.root) && AllStrict(doc.heap, p)
    ensures r.Ok? && p.allOfFree ==> Evolves(old(doc.heap), doc.heap, p)
    ensures OnlyGiven(old(doc.heap), doc.heap)
  {
    hide Sound, Edges, Visit, Evolves, AllStrict, OnlyGiven;
    ghost var fuel := NormaliseEnds(doc.env, doc.Now(), p);
    r := doc.EnsureStrict(Dict(doc.env.root), fuel);
  }

  // ----- when the tables that references go through cannot move -----

  // Without `allOf` it is enough that root holds every such table.
  lemma RootHoldsGuard(h: Heap, p: Plan)
    requires p.root in h && p.allOfFree && p.anchors <= h[p.root].Keys && p.lead == {} && p.tame == {}
    ensures Guarded(h, p)
  {
  }

  // In any document it is enough that no node but root has such a key.
  lemma RootOnlyGuard(h: Heap, p: Plan)
    requires p.root in p.nodes && p.nodes <= h.Keys && p.lead == p.nodes && p.tame == p.nodes - {p.root}
    requires forall x :: x in p.tame ==> p.anchors !! h[x].Keys
    requires forall x, k, y :: x in p.nodes && Via(h, h[x], k, y) ==> y in p.tame
    requires forall x :: x in p.nodes && Target(h, p.root, x).Some? ==> Target(h, p.root, x).value in p.tame
    ensures Guarded(h, p)
  {
    hide Target;
    forall x | x in p.nodes ensures SoleIn(h[x], p.tame) {
      var v := Get(h[x], AllOf);
      if v.List? && |v.items| == 1 && v.items[0].Dict? {
        assert Via(h, h[x], AllOf, v.items[0].id);
      }
    }
  }
}
