// The strict JSON-schema normaliser of src/nucliadb_agentic_api/utils.py.
//
// A schema document is a store of dictionaries, each known by an id, so that the aliasing the
// normaliser creates when it inlines a `$ref` (nested dictionaries shared by two parents) is
// part of the model.  Here: what is promised of a document, what a normalised node looks like, and
// what each in-place change of one node keeps of both.
module StrictSchema {
  import opened Basics
  import RefGraph
  import Text

  type Id = nat

  datatype Json = Null | Bool(b: bool) | Num(n: int) | Str(s: string) | List(items: seq<Json>) | Dict(id: Id)

  // Dictionary keys: the keywords the normaliser looks at, and every other name.
  datatype Key =
    | Definitions | Type | AdditionalProperties | Properties | Required | Items
    | OneOf | AnyOf | AllOf | Default | DollarRef
    | Other(name: string)

  type Object = map<Key, Json>
  type Heap = map<Id, Object>

  datatype Error = TypeError | KeyError | AssertionError | ValueError

  // dict.get(key): a missing key reads as None
  function Get(o: Object, k: Key): Json { if k in o then o[k] else Null }

  function NameOf(k: Key): string {
    match k
    case Definitions => "definitions"
    case Type => "type"
    case AdditionalProperties => "additionalProperties"
    case Properties => "properties"
    case Required => "required"
    case Items => "items"
    case OneOf => "oneOf"
    case AnyOf => "anyOf"
    case AllOf => "allOf"
    case Default => "default"
    case DollarRef => "$ref"
    case Other(name) => name
  }

  function KeyOf(s: string): Key {
    if s == "definitions" then Definitions
    else if s == "type" then Type
    else if s == "additionalProperties" then AdditionalProperties
    else if s == "properties" then Properties
    else if s == "required" then Required
    else if s == "items" then Items
    else if s == "oneOf" then OneOf
    else if s == "anyOf" then AnyOf
    else if s == "allOf" then AllOf
    else if s == "default" then Default
    else if s == "$ref" then DollarRef
    else Other(s)
  }

  function KeysOf(path: seq<string>): (keys: seq<Key>)
    ensures |keys| == |path|
  {
    if path == [] then [] else [KeyOf(path[0])] + KeysOf(path[1..])
  }

  // "#/a/b" names the path a, b; any other shape is refused.
  function RefPath(ref: string): (path: Option<seq<Key>>)
    ensures path.Some? ==> |path.value| >= 1
  {
    if |ref| >= 2 && ref[0] == '#' && ref[1] == '/' then Some(KeysOf(Text.Split(ref[2..], '/'))) else None
  }

  // Keys and their names stand for each other; no other name reads as a keyword.
  lemma KeyNames(k: Key, s: string)
    ensures NameOf(KeyOf(s)) == s
    ensures !k.Other? ==> KeyOf(NameOf(k)) == k
  {
  }

  lemma {:induction false} KeysAt(names: seq<string>, i: nat)
    requires i < |names|
    ensures KeysOf(names)[i] == KeyOf(names[i])
  {
    if i > 0 {
      KeysAt(names[1..], i - 1);
    }
  }

  // A reference reads as the names between its slashes, and as nothing without "#/" in front.
  lemma RefPathExact(names: seq<string>, ref: string)
    requires names != [] && Text.AllFree(names, '/')
    ensures RefPath("#/" + Text.Join(names, '/')) == Some(KeysOf(names))
    ensures RefPath(ref).Some? <==> exists rest :: ref == "#/" + rest
  {
    Text.SplitJoin(names, '/');
    assert ("#/" + Text.Join(names, '/'))[2..] == Text.Join(names, '/');
    if RefPath(ref).Some? {
      assert ref == "#/" + ref[2..];
    }
  }

  // Following a path of keys through nested dictionaries.
  function Walk(h: Heap, at: Id, path: seq<Key>): Option<Id>
    decreases |path|
  {
    if path == [] then Some(at)
    else if at in h && path[0] in h[at] && h[at][path[0]].Dict? then Walk(h, h[at][path[0]].id, path[1..])
    else None
  }

  // ----- visited positions -----

  ghost predicate InTable(h: Heap, table: Json, y: Id) {
    table.Dict? && table.id in h && exists n :: n in h[table.id] && h[table.id][n] == Dict(y)
  }

  ghost predicate InList(l: Json, y: Id) {
    l.List? && Dict(y) in l.items
  }

  // y is a sub-schema that the normaliser visits through keyword k of object o
  ghost predicate Via(h: Heap, o: Object, k: Key, y: Id) {
    match k
    case Definitions => InTable(h, Get(o, Definitions), y)
    case Properties => InTable(h, Get(o, Properties), y)
    case Items => Get(o, Items) == Dict(y)
    case OneOf => InList(Get(o, OneOf), y)
    case AnyOf => InList(Get(o, AnyOf), y)
    case AllOf => InList(Get(o, AllOf), y)
    case _ => false
  }

  ghost predicate IsKid(h: Heap, x: Id, y: Id) {
    x in h && exists k :: Via(h, h[x], k, y)
  }

  // The dictionary a node's `$ref` names, if it has a string `$ref` that resolves.
  ghost function Target(h: Heap, root: Id, x: Id): Option<Id>
    requires x in h
  {
    var ref := Get(h[x], DollarRef);
    if ref.Str? && RefPath(ref.s).Some? then Walk(h, root, RefPath(ref.s).value) else None
  }

  // ----- what is assumed of a document, and kept at every step -----

  // The schema nodes of a document and the keys of root under which references look for their
  // targets (`$defs`, `definitions`, ...).  `lead` holds root, the target of its reference, the
  // target of that one, and so on; `tame` holds nodes without any of those keys.  When the plan is
  // ranked, a rank falls to every sub-schema that is visited; without, nothing is said about cycles.
  datatype Plan = Plan(
    root: Id, nodes: set<Id>, anchors: set<Key>, lead: set<Id>, tame: set<Id>,
    ranked: bool, rank: Id -> nat, allOfFree: bool, loadable: bool)

  ghost const VOLATILE: set<Key> := {AdditionalProperties, Required, Properties, AllOf, Default, DollarRef}

  ghost predicate NoDangling(h: Heap) {
    forall i, k :: i in h && k in h[i] && h[i][k].Dict? ==> h[i][k].id in h
  }

  // Beyond `at`, the path only goes through dictionaries that are not schema nodes.
  ghost predicate OffNodes(h: Heap, p: Plan, at: Id, path: seq<Key>)
    requires at in h
    decreases |path|
  {
    |path| > 1 && path[0] in h[at] && h[at][path[0]].Dict? && h[at][path[0]].id in h ==>
      h[at][path[0]].id !in p.nodes && OffNodes(h, p, h[at][path[0]].id, path[1..])
  }

  ghost predicate TableOk(h: Heap, p: Plan, table: Json) {
    table.Dict? ==> table.id in h && table.id !in p.nodes
  }

  ghost predicate KidOk(p: Plan, x: Id, y: Id) {
    y in p.nodes && (p.ranked ==> p.rank(y) < p.rank(x))
  }

  // x may take over the entries of t that it does not define itself.
  ghost predicate Lends(h: Heap, p: Plan, x: Id, t: Id)
    requires x in h && t in h
  {
    && TableOk(h, p, Get(h[t], Definitions)) && TableOk(h, p, Get(h[t], Properties))
    && (forall k, y :: (k !in h[x] || k == AllOf) && Via(h, h[t], k, y) ==> KidOk(p, x, y))
    && (p.allOfFree ==> AllOf !in h[t])
    && (p.loadable ==> ValuesLoadable(h, h[t]))
  }

  // What x takes over stays what it is: t is a node ranked no higher, or it never changes its
  // sub-schemas.
  ghost predicate TargetOk(h: Heap, p: Plan, x: Id, t: Id)
    requires x in h
  {
    && t in h
    && ((t in p.nodes && (p.ranked ==> p.rank(t) <= p.rank(x)))
        || (Lends(h, p, x, t) && (t !in p.nodes || (p.allOfFree && Get(h[t], DollarRef) == Null))))
  }

  ghost predicate RefOk(h: Heap, p: Plan, x: Id)
    requires x in h && p.root in h
  {
    var ref := Get(h[x], DollarRef);
    ref.Str? && RefPath(ref.s).Some? ==>
      var path := RefPath(ref.s).value;
      && path[0] in p.anchors
      && OffNodes(h, p, p.root, path)
      && (Walk(h, p.root, path).Some? ==> TargetOk(h, p, x, Walk(h, p.root, path).value))
  }

  ghost predicate AllDicts(s: seq<Json>) { forall j :: j in s ==> j.Dict? }

  ghost predicate TableDicts(h: Heap, table: Json) {
    table.Dict? && table.id in h ==> forall n :: n in h[table.id] ==> h[table.id][n].Dict?
  }

  ghost predicate ListDicts(l: Json) { l.List? ==> AllDicts(l.items) }

  ghost predicate ValuesLoadable(h: Heap, o: Object) {
    && TableDicts(h, Get(o, Definitions)) && TableDicts(h, Get(o, Properties))
    && ListDicts(Get(o, OneOf)) && ListDicts(Get(o, AnyOf)) && ListDicts(Get(o, AllOf))
  }

  // Nothing at x makes the normaliser raise.
  ghost predicate Loadable(h: Heap, p: Plan, x: Id)
    requires x in h
  {
    ValuesLoadable(h, h[x]) && (Get(h[x], DollarRef) != Null ==> Target(h, p.root, x).Some?)
  }

  ghost predicate NodeOk(h: Heap, p: Plan, x: Id)
    requires x in h && p.root in h
  {
    && TableOk(h, p, Get(h[x], Definitions)) && TableOk(h, p, Get(h[x], Properties))
    && (forall k, y :: Via(h, h[x], k, y) ==> KidOk(p, x, y))
    && RefOk(h, p, x)
    && (p.allOfFree ==> AllOf !in h[x])
    && (p.loadable ==> Loadable(h, p, x))
  }

  // The only entry of a single `allOf` is in the set.
  ghost predicate SoleIn(o: Object, ids: set<Id>) {
    var v := Get(o, AllOf);
    v.List? && |v.items| == 1 && v.items[0].Dict? ==> v.items[0].id in ids
  }

  ghost predicate TameOk(h: Heap, p: Plan, x: Id)
    requires x in h
  {
    && p.anchors !! h[x].Keys && SoleIn(h[x], p.tame)
    && (x in p.nodes && Target(h, p.root, x).Some? ==> Target(h, p.root, x).value in p.tame)
  }

  ghost predicate LeadOk(h: Heap, p: Plan, x: Id)
    requires x in h
  {
    && SoleIn(h[x], p.tame)
    && (x in p.nodes && Target(h, p.root, x).Some? ==> Target(h, p.root, x).value in p.lead)
  }

  // Nothing can move the tables that references go through: entries taken over from a reference
  // never replace root's own, and entries merged from an `allOf` have no such keys.
  ghost predicate Guarded(h: Heap, p: Plan)
    requires p.root in h
  {
    && (forall x :: x in p.tame ==> x in h && TameOk(h, p, x))
    && (!p.allOfFree ==> p.root in p.lead && forall x :: x in p.lead ==> x in h && LeadOk(h, p, x))
    && (p.anchors <= h[p.root].Keys || (Target(h, p.root, p.root).Some? ==> Target(h, p.root, p.root).value in p.tame))
  }

  ghost predicate Sound(h: Heap, p: Plan) {
    && p.root in p.nodes && p.nodes <= h.Keys
    && NoDangling(h)
    && p.anchors !! VOLATILE
    && Guarded(h, p)
    && forall x :: x in p.nodes ==> NodeOk(h, p, x)
  }

  // ----- what a normalised node looks like -----

  // The names of a table, each once.
  ghost predicate Listing(o: Object, ks: seq<Key>) {
    && (forall k :: k in ks <==> k in o)
    && (forall i, j :: 0 <= i < j < |ks| ==> ks[i] != ks[j])
  }

  function Names(ks: seq<Key>): (r: seq<Json>)
    ensures |r| == |ks|
  {
    if ks == [] then [] else [Str(NameOf(ks[0]))] + Names(ks[1..])
  }

  // `required` lists exactly the property names.
  ghost predicate RequiresAll(h: Heap, o: Object) {
    var table := Get(o, Properties);
    table.Dict? && table.id in h ==>
      exists ks :: Listing(h[table.id], ks) && Get(o, Required) == List(Names(ks))
  }

  ghost predicate ClosedObject(o: Object) {
    Get(o, Type) == Str("object") ==> AdditionalProperties in o
  }

  ghost predicate NoNullDefault(o: Object) {
    Default in o ==> o[Default] != Null
  }

  ghost predicate LocalStrict(h: Heap, p: Plan, o: Object) {
    && Get(o, DollarRef) == Null
    && ClosedObject(o)
    && NoNullDefault(o)
    && (Get(o, AllOf).List? ==> |Get(o, AllOf).items| != 1)
    && (p.allOfFree ==> RequiresAll(h, o))
  }

  // The nodes in `done` are normalised, and so is everything visited below them.
  ghost predicate Closed(h: Heap, p: Plan, done: set<Id>) {
    && done <= p.nodes && p.nodes <= h.Keys
    && (forall x :: x in done ==> LocalStrict(h, p, h[x]))
    && (forall x, k, y :: x in done && Via(h, h[x], k, y) ==> y in done)
  }

  // ----- what happens to a node over time (documents without allOf) -----

  ghost predicate SameTable(h: Heap, h': Heap, v: Json, v': Json) {
    if v.Dict? && v.id in h then v'.Dict? && v'.id in h' && h'[v'.id] == h[v.id] else v' == v
  }

  // o' holds at least what `from` says, up to the four keywords the normaliser rewrites.
  ghost predicate Carries(h: Heap, h': Heap, from: Object, o: Object, o': Object) {
    && (forall k :: k in from && k !in o && k !in VOLATILE ==> k in o' && o'[k] == from[k])
    && (Default in from && Default !in o && from[Default] != Null ==> Default in o' && o'[Default] == from[Default])
    && (Properties in from && Properties !in o ==>
      Properties in o' && SameTable(h, h', from[Properties], o'[Properties]))
  }

  ghost predicate OwnKept(h: Heap, h': Heap, o: Object, o': Object) {
    && Carries(h, h', o, map[], o')
    && (AdditionalProperties in o ==> AdditionalProperties in o' && o'[AdditionalProperties] == o[AdditionalProperties])
    && (Required in o ==> Required in o')
  }

  // Apart from the two keywords that are rebuilt, o' says what o says, and where o is silent what
  // `given` says, or that nothing more is allowed.
  ghost predicate NothingMadeUp(o: Object, o': Object, given: Object) {
    forall k :: k in o' && k !in {Required, Properties} ==>
      if k in o && !(k == Default && o[k] == Null) then o'[k] == o[k]
      else
        || (k == AdditionalProperties && o'[k] == Bool(false))
        || (k == Default && o'[k] == Null)
        || (k in given && o'[k] == given[k])
  }

  ghost predicate Evolved(h: Heap, h': Heap, p: Plan, x: Id)
    requires x in h && x in h'
  {
    var o, o' := h[x], h'[x];
    && OwnKept(h, h', o, o')
    && if Get(o', DollarRef) == Get(o, DollarRef) then
         o'.Keys <= o.Keys + {Required, AdditionalProperties} && NothingMadeUp(o, o', map[])
       else
         // the reference has been inlined: own entries first, then those of its target
         && Get(o, DollarRef).Str? && DollarRef !in o'
         && Target(h, p.root, x).Some?
         && var t := Target(h, p.root, x).value;
            && t in h && t in h'
            && Carries(h, h', h[t], o, o')
            && o'.Keys <= o.Keys + h'[t].Keys + {Required, AdditionalProperties, Default}
            && NothingMadeUp(o, o', h'[t])
  }

  ghost predicate Evolves(h: Heap, h': Heap, p: Plan) {
    && p.nodes <= h.Keys && p.nodes <= h'.Keys
    && forall x :: x in p.nodes ==> Evolved(h, h', p, x)
  }

  ghost predicate AnchorsKept(h: Heap, h': Heap, p: Plan)
    requires p.root in h && p.root in h'
  {
    forall a :: a in p.anchors ==> (a in h[p.root] <==> a in h'[p.root]) && Get(h[p.root], a) == Get(h'[p.root], a)
  }

  // Dictionaries that are not schema nodes never change, nor do the tables root points at.
  ghost predicate Fixed(h: Heap, h': Heap, p: Plan) {
    && h.Keys <= h'.Keys && p.root in h
    && (forall i :: i in h && i !in p.nodes ==> h'[i] == h[i])
    && AnchorsKept(h, h', p)
  }

  // Only d and nodes of lower rank change.
  ghost predicate Frame(h: Heap, h': Heap, p: Plan, d: Id) {
    && Fixed(h, h', p)
    && forall i :: i in h && i in p.nodes && i != d && p.rank(i) >= p.rank(d) ==> h'[i] == h[i]
  }

  ghost predicate Kept(h0: Heap, h: Heap, p: Plan, d: Id, done0: set<Id>, done: set<Id>) {
    && Sound(h, p) && Closed(h, p, done) && done0 <= done
    && Frame(h0, h, p, d)
    && d in h0 && d in p.nodes && (Get(h[d], DollarRef) != Null ==> Get(h0[d], DollarRef) != Null)
    && (p.allOfFree ==> Evolves(h0, h, p))
  }

  // ----- references do not move -----

  lemma {:induction false} WalkStable(h: Heap, h': Heap, p: Plan, at: Id, path: seq<Key>)
    requires NoDangling(h) && h.Keys <= h'.Keys && at in h
    requires forall i :: i in h && i !in p.nodes ==> h'[i] == h[i]
    requires OffNodes(h, p, at, path)
    requires |path| >= 1 && (at in p.nodes ==>
      (path[0] in h[at] <==> path[0] in h'[at]) &&
      Get(h[at], path[0]) == Get(h'[at], path[0]))
    ensures Walk(h', at, path) == Walk(h, at, path)
    ensures OffNodes(h', p, at, path)
    decreases |path|
  {
    assert (path[0] in h[at] <==> path[0] in h'[at]) && Get(h[at], path[0]) == Get(h'[at], path[0]);
    if |path| > 1 && path[0] in h[at] && h[at][path[0]].Dict? {
      WalkStable(h, h', p, h[at][path[0]].id, path[1..]);
    }
  }

  lemma RefStable(h: Heap, h': Heap, p: Plan, x: Id)
    requires Sound(h, p) && Fixed(h, h', p) && x in p.nodes && x in h'
    requires Get(h'[x], DollarRef) == Get(h[x], DollarRef)
    ensures Target(h', p.root, x) == Target(h, p.root, x)
    ensures var ref := Get(h[x], DollarRef);
            ref.Str? && RefPath(ref.s).Some? ==> p.root in h' && OffNodes(h', p, p.root, RefPath(ref.s).value)
  {
    hide Guarded, TargetOk, RefPath;
    assert NodeOk(h, p, x);
    var ref := Get(h[x], DollarRef);
    if ref.Str? && RefPath(ref.s).Some? {
      WalkStable(h, h', p, p.root, RefPath(ref.s).value);
    }
  }

  // ----- one in-place change to a node -----

  // The change gives d no key it must not have.
  ghost predicate GuardKept(h: Heap, h': Heap, p: Plan, d: Id)
    requires d in h && d in h'
  {
    && (d in p.tame ==> p.anchors !! h'[d].Keys && SoleIn(h'[d], p.tame))
    && (!p.allOfFree && d in p.lead ==> SoleIn(h'[d], p.tame))
    && (d == p.root && p.anchors <= h[d].Keys ==> p.anchors <= h'[d].Keys)
  }

  // Without a reference to inline, d keeps its sub-schemas.
  ghost predicate SameSubs(h: Heap, h': Heap, p: Plan, d: Id)
    requires d in h && d in h'
  {
    Get(h[d], DollarRef) == Null ==> forall k, y :: Via(h', h'[d], k, y) ==> Via(h, h[d], k, y)
  }

  // h' is h with node d rewritten (and possibly new dictionaries allocated).
  ghost predicate Local(h: Heap, h': Heap, p: Plan, d: Id) {
    && d in p.nodes && d in h && p.root in h && p.nodes <= h.Keys && h.Keys <= h'.Keys
    && (forall i :: i in h && i != d ==> h'[i] == h[i])
    && NoDangling(h')
  }

  ghost predicate KidsOk(h: Heap, p: Plan, d: Id)
    requires d in h
  {
    && TableOk(h, p, Get(h[d], Definitions)) && TableOk(h, p, Get(h[d], Properties))
    && (forall k, y :: Via(h, h[d], k, y) ==> KidOk(p, d, y))
  }

  ghost predicate KeysKept(o: Object, o': Object) {
    && (forall k :: k in o && k != AllOf && k != DollarRef && k != Default ==> k in o')
    && Get(o', DollarRef) in {Null, Get(o, DollarRef)}
  }

  ghost predicate FreeOk(h: Heap, h': Heap, p: Plan, d: Id)
    requires d in h && d in h'
  {
    p.allOfFree ==> AllOf !in h'[d] && SameSubs(h, h', p, d) && Evolved(h, h', p, d)
  }

  ghost predicate LoadOk(h: Heap, p: Plan, d: Id)
    requires d in h
  {
    p.loadable ==> ValuesLoadable(h, h[d])
  }

  ghost predicate DoneOk(h: Heap, p: Plan, d: Id, done: set<Id>)
    requires d in h
  {
    d in done ==> LocalStrict(h, p, h[d]) && (forall k, y :: Via(h, h[d], k, y) ==> y in done)
  }

  ghost predicate Edit(h: Heap, h': Heap, p: Plan, d: Id, done: set<Id>) {
    && Local(h, h', p, d) && KidsOk(h', p, d) && AnchorsKept(h, h', p) && GuardKept(h, h', p, d)
    && KeysKept(h[d], h'[d]) && FreeOk(h, h', p, d) && LoadOk(h', p, d) && DoneOk(h', p, d, done)
  }

  lemma ViaStable(h: Heap, h': Heap, p: Plan, x: Id, k: Key, y: Id)
    requires x in p.nodes && x in h && h.Keys <= h'.Keys
    requires forall i :: i in h && i !in p.nodes ==> h'[i] == h[i]
    requires TableOk(h, p, Get(h[x], Definitions)) && TableOk(h, p, Get(h[x], Properties))
    ensures Via(h', h[x], k, y) <==> Via(h, h[x], k, y)
  {
  }

  lemma TargetStable(h: Heap, h': Heap, p: Plan, d: Id, done: set<Id>, x: Id, t: Id)
    requires Sound(h, p) && Edit(h, h', p, d, done) && x in p.nodes && TargetOk(h, p, x, t)
    ensures TargetOk(h', p, x, t)
  {
    hide Guarded, Evolved, Walk, Target;
    assert NodeOk(h, p, x);
    if !(t in p.nodes && (p.ranked ==> p.rank(t) <= p.rank(x))) {
      assert Lends(h, p, x, t);
      forall k, y | (k !in h'[x] || k == AllOf) && Via(h', h'[t], k, y) ensures KidOk(p, x, y) {
        if t == d {
          assert Via(h, h[t], k, y);
        } else {
          ViaFixed(h, h', p, t, k, y);
        }
        assert k !in h[x] || k == AllOf;
      }
      assert Lends(h', p, x, t);
    }
  }

  // A dictionary whose tables are fixed has the sub-schemas it had.
  lemma ViaFixed(h: Heap, h': Heap, p: Plan, t: Id, k: Key, y: Id)
    requires t in h && t in h' && h'[t] == h[t]
    requires forall i :: i in h && i !in p.nodes ==> i in h' && h'[i] == h[i]
    requires TableOk(h, p, Get(h[t], Definitions)) && TableOk(h, p, Get(h[t], Properties))
    ensures Via(h', h'[t], k, y) <==> Via(h, h[t], k, y)
  {
  }

  lemma TameStable(h: Heap, h': Heap, p: Plan, d: Id, done: set<Id>, x: Id)
    requires Sound(h, p) && Edit(h, h', p, d, done) && x in p.tame
    ensures x in h' && TameOk(h', p, x)
  {
    hide Evolved, TargetOk, NodeOk;
    assert TameOk(h, p, x);
    if x in p.nodes && Get(h'[x], DollarRef) == Get(h[x], DollarRef) {
      RefStable(h, h', p, x);
    }
  }

  lemma LeadStable(h: Heap, h': Heap, p: Plan, d: Id, done: set<Id>, x: Id)
    requires Sound(h, p) && Edit(h, h', p, d, done) && x in p.lead && !p.allOfFree
    ensures x in h' && LeadOk(h', p, x)
  {
    hide Evolved, TargetOk, NodeOk;
    assert LeadOk(h, p, x);
    if x in p.nodes && Get(h'[x], DollarRef) == Get(h[x], DollarRef) {
      RefStable(h, h', p, x);
    }
  }

  lemma GuardStable(h: Heap, h': Heap, p: Plan, d: Id, done: set<Id>)
    requires Sound(h, p) && Edit(h, h', p, d, done)
    ensures Guarded(h', p)
  {
    hide Evolved, TargetOk, NodeOk, TameOk, LeadOk, Walk;
    forall x | x in p.tame ensures x in h' && TameOk(h', p, x) { TameStable(h, h', p, d, done, x); }
    if !p.allOfFree {
      forall x | x in p.lead ensures x in h' && LeadOk(h', p, x) { LeadStable(h, h', p, d, done, x); }
    }
    if Get(h'[p.root], DollarRef) == Get(h[p.root], DollarRef) {
      RefStable(h, h', p, p.root);
    }
  }

  lemma NodeStable(h: Heap, h': Heap, p: Plan, d: Id, done: set<Id>, x: Id)
    requires Sound(h, p) && Edit(h, h', p, d, done) && x in p.nodes
    ensures NodeOk(h', p, x)
  {
    hide Guarded, Evolved, TargetOk, Walk, LocalStrict, SameSubs;
    assert NodeOk(h, p, x);
    if Get(h'[x], DollarRef) == Get(h[x], DollarRef) {
      RefStable(h, h', p, x);
      if Target(h, p.root, x).Some? {
        TargetStable(h, h', p, d, done, x, Target(h, p.root, x).value);
      }
    }
    if x != d {
      forall k, y | Via(h', h'[x], k, y) ensures KidOk(p, x, y) { ViaStable(h, h', p, x, k, y); }
    }
  }

  lemma EditSound(h: Heap, h': Heap, p: Plan, d: Id, done: set<Id>)
    requires Sound(h, p) && Edit(h, h', p, d, done)
    ensures Sound(h', p)
  {
    hide Guarded, NodeOk, Evolved;
    GuardStable(h, h', p, d, done);
    forall x | x in p.nodes ensures NodeOk(h', p, x) { NodeStable(h, h', p, d, done, x); }
  }

  lemma EditClosed(h: Heap, h': Heap, p: Plan, d: Id, done: set<Id>)
    requires Sound(h, p) && Edit(h, h', p, d, done) && Closed(h, p, done)
    ensures Closed(h', p, done)
  {
    forall x | x in done
      ensures LocalStrict(h', p, h'[x])
    {
      assert NodeOk(h, p, x);
    }
    forall x, k, y | x in done && Via(h', h'[x], k, y)
      ensures y in done
    {
      assert NodeOk(h, p, x);
      if x != d {
        ViaStable(h, h', p, x, k, y);
      }
    }
  }

  lemma CarriesTrans(h0: Heap, h1: Heap, h2: Heap, p: Plan, from: Object, o: Object, o1: Object, o2: Object)
    requires TableOk(h0, p, Get(from, Properties))
    requires Carries(h0, h1, from, o, o1) && OwnKept(h1, h2, o1, o2)
    ensures Carries(h0, h2, from, o, o2)
  {
  }

  lemma OwnKeptTrans(h0: Heap, h1: Heap, h2: Heap, p: Plan, o: Object, o1: Object, o2: Object)
    requires TableOk(h0, p, Get(o, Properties))
    requires OwnKept(h0, h1, o, o1) && OwnKept(h1, h2, o1, o2)
    ensures OwnKept(h0, h2, o, o2)
  {
    CarriesTrans(h0, h1, h2, p, o, map[], o1, o2);
  }

  // Inlining after the target itself has evolved still carries the target's first contents.
  lemma CarriesLate(h0: Heap, h1: Heap, h2: Heap, p: Plan, t0: Object, t1: Object, o: Object, o1: Object, o2: Object)
    requires TableOk(h0, p, Get(t0, Properties))
    requires OwnKept(h0, h1, t0, t1) && Carries(h1, h2, t1, o1, o2)
    requires o1.Keys <= o.Keys + {Required, AdditionalProperties}
    ensures Carries(h0, h2, t0, o, o2)
  {
  }

  lemma KeysGrow(h: Heap, h': Heap, o: Object, o': Object)
    requires OwnKept(h, h', o, o') && AllOf !in o
    ensures o.Keys <= o'.Keys + {Default, DollarRef} && (Default in o && o[Default] != Null ==> Default in o')
  {
  }

  // The target of a reference keeps its own entries, whether it is a node or not.
  lemma TargetKept(h: Heap, h': Heap, p: Plan, x: Id, t: Id)
    requires Sound(h, p) && p.allOfFree && Fixed(h, h', p) && Evolves(h, h', p)
    requires x in p.nodes && Target(h, p.root, x) == Some(t)
    ensures t in h && t in h' && OwnKept(h, h', h[t], h'[t]) && AllOf !in h[t] && TableOk(h, p, Get(h[t], Properties))
  {
    hide Guarded, Walk, RefPath;
    assert NodeOk(h, p, x);
    assert TargetOk(h, p, x, t);
    if t in p.nodes {
      assert NodeOk(h, p, t) && Evolved(h, h', p, t);
    } else {
      assert Lends(h, p, x, t);
    }
  }

  lemma EvolvedThenKept(h0: Heap, h1: Heap, h2: Heap, p: Plan, x: Id)
    requires Sound(h0, p) && Sound(h1, p) && p.allOfFree && x in p.nodes && Fixed(h0, h1, p) && Fixed(h1, h2, p)
    requires Evolves(h0, h1, p) && Evolves(h1, h2, p)
    requires Get(h1[x], DollarRef) != Get(h0[x], DollarRef)
    ensures Evolved(h0, h2, p, x)
  {
    hide Guarded, Walk, RefPath, TargetOk, OwnKept, Carries, NothingMadeUp;
    NodeTables(h0, p, x);
    AllOfNowhere(h0, p, x);
    assert Evolved(h0, h1, p, x) && Evolved(h1, h2, p, x);
    OwnKeptTrans(h0, h1, h2, p, h0[x], h1[x], h2[x]);
    KeysGrow(h0, h1, h0[x], h1[x]);
    var t := Target(h0, p.root, x).value;
    TargetKept(h0, h1, p, x, t);
    TargetLater(h0, h1, h2, p, x, t);
    CarriesTrans(h0, h1, h2, p, h0[t], h0[x], h1[x], h2[x]);
    hide Sound, Fixed, Evolves, TableOk;
    KeysGrow(h1, h2, h1[t], h2[t]);
    KeysThrough(h0[x], h1[x], h2[x], h1[t], h2[t]);
    MadeUpThrough(h1, h2, h0[x], h1[x], h2[x], h1[t], h2[t]);
  }

  lemma KeysThrough(o0: Object, o1: Object, o2: Object, t1: Object, t2: Object)
    requires o1.Keys <= o0.Keys + t1.Keys + {Required, AdditionalProperties, Default} && DollarRef !in o1
    requires t1.Keys <= t2.Keys + {Default, DollarRef} && o2.Keys <= o1.Keys + {Required, AdditionalProperties}
    ensures DollarRef !in o2 && o2.Keys <= o0.Keys + t2.Keys + {Required, AdditionalProperties, Default}
  {
  }

  lemma AllOfNowhere(h: Heap, p: Plan, x: Id)
    requires Sound(h, p) && p.allOfFree && x in p.nodes
    ensures AllOf !in h[x]
  {
    hide Guarded;
    assert NodeOk(h, p, x);
  }

  lemma MadeUpThrough(h1: Heap, h2: Heap, o0: Object, o1: Object, o2: Object, t1: Object, t2: Object)
    requires o0.Keys <= o1.Keys + {Default, DollarRef} && (Default in o0 && o0[Default] != Null ==> Default in o1)
    requires NothingMadeUp(o0, o1, t1) && NothingMadeUp(o1, o2, map[]) && DollarRef !in o2
    requires OwnKept(h1, h2, t1, t2) && AllOf !in t1
    ensures NothingMadeUp(o0, o2, t2)
  {
  }

  lemma MadeUpLater(o0: Object, o1: Object, o2: Object, given: Object)
    requires o0.Keys <= o1.Keys + {Default, DollarRef} && (Default in o0 && o0[Default] != Null ==> Default in o1)
    requires NothingMadeUp(o0, o1, map[]) && NothingMadeUp(o1, o2, given)
    requires Get(o1, DollarRef) == Get(o0, DollarRef) && (DollarRef in o2 ==> given == map[])
    ensures NothingMadeUp(o0, o2, given)
  {
  }

  lemma TargetLater(h0: Heap, h1: Heap, h2: Heap, p: Plan, x: Id, t: Id)
    requires Sound(h0, p) && Sound(h1, p) && p.allOfFree && Fixed(h0, h1, p) && Fixed(h1, h2, p)
    requires Evolves(h1, h2, p) && x in p.nodes && Target(h0, p.root, x) == Some(t) && t in h0 && AllOf !in h0[t]
    requires TableOk(h0, p, Get(h0[t], Properties))
    ensures t in h1 && t in h2 && OwnKept(h1, h2, h1[t], h2[t]) && AllOf !in h1[t]
  {
    hide Guarded, Walk, RefPath, TargetOk;
    if t in p.nodes {
      assert NodeOk(h1, p, t) && Evolved(h1, h2, p, t);
    }
  }

  lemma KeptThenEvolved(h0: Heap, h1: Heap, h2: Heap, p: Plan, x: Id)
    requires Sound(h0, p) && Sound(h1, p) && p.allOfFree && x in p.nodes && Fixed(h0, h1, p)
    requires Evolves(h0, h1, p) && Evolves(h1, h2, p)
    requires Get(h1[x], DollarRef) == Get(h0[x], DollarRef) && Target(h1, p.root, x) == Target(h0, p.root, x)
    ensures Evolved(h0, h2, p, x)
  {
    hide Guarded, Walk, RefPath, TargetOk, OwnKept, Carries, NothingMadeUp;
    NodeTables(h0, p, x);
    AllOfNowhere(h0, p, x);
    assert Evolved(h0, h1, p, x) && Evolved(h1, h2, p, x);
    OwnKeptTrans(h0, h1, h2, p, h0[x], h1[x], h2[x]);
    KeysGrow(h0, h1, h0[x], h1[x]);
    if Get(h2[x], DollarRef) != Get(h1[x], DollarRef) {
      var t := Target(h0, p.root, x).value;
      TargetKept(h0, h1, p, x, t);
      CarriesLate(h0, h1, h2, p, h0[t], h1[t], h0[x], h1[x], h2[x]);
      MadeUpLater(h0[x], h1[x], h2[x], h2[t]);
    } else {
      MadeUpLater(h0[x], h1[x], h2[x], map[]);
    }
  }

  lemma EvolvesTrans(h0: Heap, h1: Heap, h2: Heap, p: Plan)
    requires Sound(h0, p) && Sound(h1, p) && p.allOfFree
    requires Fixed(h0, h1, p) && Fixed(h1, h2, p)
    requires Evolves(h0, h1, p) && Evolves(h1, h2, p)
    ensures Evolves(h0, h2, p)
  {
    hide Guarded, NodeOk, Evolved, Walk;
    forall x | x in p.nodes
      ensures Evolved(h0, h2, p, x)
    {
      if Get(h1[x], DollarRef) == Get(h0[x], DollarRef) {
        RefStable(h0, h1, p, x);
        KeptThenEvolved(h0, h1, h2, p, x);
      } else {
        EvolvedThenKept(h0, h1, h2, p, x);
      }
    }
  }

  // ----- gluing steps -----

  lemma EditKept(h0: Heap, h: Heap, h': Heap, p: Plan, d: Id, done0: set<Id>, done: set<Id>)
    requires Kept(h0, h, p, d, done0, done) && Edit(h, h', p, d, done)
    requires p.allOfFree ==> Sound(h0, p)
    ensures Kept(h0, h', p, d, done0, done)
  {
    EditSound(h, h', p, d, done);
    EditClosed(h, h', p, d, done);
    if p.allOfFree {
      forall x | x in p.nodes ensures Evolved(h, h', p, x) {
        assert NodeOk(h, p, x);
      }
      EvolvesTrans(h0, h, h', p);
    }
  }

  lemma EvolvesRefl(h: Heap, p: Plan)
    requires Sound(h, p)
    ensures Evolves(h, h, p)
  {
    forall x | x in p.nodes ensures Evolved(h, h, p, x) {
      assert NodeOk(h, p, x);
    }
  }

  lemma KeptRefl(h: Heap, p: Plan, d: Id, done: set<Id>)
    requires Sound(h, p) && Closed(h, p, done) && d in p.nodes
    ensures Kept(h, h, p, d, done, done)
  {
    EvolvesRefl(h, p);
  }

  // A finished call on c, made while working on d.
  lemma CallKept(h0: Heap, h: Heap, h': Heap, p: Plan, d: Id, c: Id, done0: set<Id>, done: set<Id>, done': set<Id>)
    requires Sound(h0, p) && Kept(h0, h, p, d, done0, done) && Kept(h, h', p, c, done, done')
    requires c == d || p.rank(c) < p.rank(d)
    ensures Kept(h0, h', p, d, done0, done')
    ensures c != d ==> h'[d] == h[d]
  {
    if p.allOfFree {
      EvolvesTrans(h0, h, h', p);
    }
  }

  // What has been settled at d once the keywords in ks have been dealt with.
  ghost predicate Settled(h: Heap, p: Plan, d: Id, done: set<Id>, ks: set<Key>) {
    && d in h
    && (forall k, y :: k in ks && Via(h, h[d], k, y) ==> y in done)
    && (AdditionalProperties in ks ==> ClosedObject(h[d]))
    && (Properties in ks && p.allOfFree ==> RequiresAll(h, h[d]))
    && (AllOf in ks && Get(h[d], AllOf).List? ==> |Get(h[d], AllOf).items| != 1)
    && (Default in ks ==> NoNullDefault(h[d]))
  }

  function ValuesOf(o: Object, ks: seq<Key>): (vs: seq<Json>) {
    seq(|ks|, i requires 0 <= i < |ks| => Get(o, ks[i]))
  }

  // The values of a table of d, listed, are its sub-schemas (and possibly non-dictionaries).
  lemma KidsListed(h: Heap, p: Plan, d: Id, k: Key, table: Json, ks: seq<Key>)
    requires Sound(h, p) && d in p.nodes && k in {Definitions, Properties}
    requires table == Get(h[d], k) && table.Dict? && table.id in h && Listing(h[table.id], ks)
    ensures forall j :: j in ValuesOf(h[table.id], ks) && j.Dict? ==> KidOk(p, d, j.id)
    ensures forall y :: Via(h, h[d], k, y) ==> Dict(y) in ValuesOf(h[table.id], ks)
    ensures p.loadable ==> AllDicts(ValuesOf(h[table.id], ks))
  {
    assert NodeOk(h, p, d);
    var vs := ValuesOf(h[table.id], ks);
    forall j | j in vs && j.Dict? ensures KidOk(p, d, j.id) {
      var i :| 0 <= i < |vs| && vs[i] == j;
      assert h[table.id][ks[i]] == Dict(j.id);
      assert Via(h, h[d], k, j.id);
    }
    forall y | Via(h, h[d], k, y) ensures Dict(y) in vs {
      var n :| n in h[table.id] && h[table.id][n] == Dict(y);
      var i :| 0 <= i < |ks| && ks[i] == n;
      assert vs[i] == Dict(y);
    }
  }

  ghost predicate SameContents(h: Heap, h': Heap, v: Json, v': Json) {
    if v.Dict? && v.id in h then v'.Dict? && v'.id in h' && h'[v'.id] == h[v.id] else v' == v && !v.Dict?
  }

  // o' in h' has the sub-schemas that o has in h.
  ghost predicate SameShape(h: Heap, h': Heap, o: Object, o': Object) {
    && SameContents(h, h', Get(o, Definitions), Get(o', Definitions))
    && SameContents(h, h', Get(o, Properties), Get(o', Properties))
    && Get(o', Items) == Get(o, Items)
    && Get(o', OneOf) == Get(o, OneOf) && Get(o', AnyOf) == Get(o, AnyOf) && Get(o', AllOf) == Get(o, AllOf)
  }

  lemma SameVia(h: Heap, h': Heap, o: Object, o': Object)
    requires SameShape(h, h', o, o')
    ensures forall k, y :: Via(h', o', k, y) <==> Via(h, o, k, y)
  {
    forall k, y ensures Via(h', o', k, y) <==> Via(h, o, k, y) {
      match k {
        case Definitions =>
        case Properties =>
        case _ =>
      }
    }
  }

  lemma TableThere(h: Heap, p: Plan, d: Id, k: Key)
    requires Sound(h, p) && d in p.nodes && k in {Definitions, Properties}
    ensures d in h && (Get(h[d], k).Dict? ==> Get(h[d], k).id in h && Get(h[d], k).id !in p.nodes)
  {
    assert NodeOk(h, p, d);
  }

  // An edit that moves no sub-schema and leaves the reference alone.
  ghost predicate ShapeKept(h: Heap, h': Heap, p: Plan, d: Id)
    requires d in h && d in h'
  {
    && SameShape(h, h', h[d], h'[d])
    && (forall k :: k !in VOLATILE ==> (k in h[d] <==> k in h'[d]) && Get(h'[d], k) == Get(h[d], k))
    && Get(h'[d], DollarRef) == Get(h[d], DollarRef)
    && (AllOf in h'[d] ==> AllOf in h[d])
  }

  lemma ShapeGuard(h: Heap, h': Heap, p: Plan, d: Id)
    requires Sound(h, p) && Local(h, h', p, d) && ShapeKept(h, h', p, d) && KeysKept(h[d], h'[d])
    ensures GuardKept(h, h', p, d) && AnchorsKept(h, h', p)
  {
    hide NodeOk, Target, NoDangling, SameContents;
    assert forall a :: a in p.anchors ==> a !in VOLATILE;
    assert d in p.tame ==> TameOk(h, p, d);
    assert !p.allOfFree && d in p.lead ==> LeadOk(h, p, d);
  }

  lemma ShapeKids(h: Heap, h': Heap, p: Plan, d: Id)
    requires Sound(h, p) && Local(h, h', p, d) && ShapeKept(h, h', p, d) && TableOk(h', p, Get(h'[d], Properties))
    ensures KidsOk(h', p, d) && forall k, y :: Via(h', h'[d], k, y) <==> Via(h, h[d], k, y)
  {
    hide Guarded, RefOk;
    assert NodeOk(h, p, d);
    SameVia(h, h', h[d], h'[d]);
    hide Via, SameShape;
    assert SameContents(h, h', Get(h[d], Definitions), Get(h'[d], Definitions));
  }

  lemma ShapeLoads(h: Heap, h': Heap, p: Plan, d: Id)
    requires Sound(h, p) && Local(h, h', p, d) && ShapeKept(h, h', p, d)
    ensures LoadOk(h', p, d) && (p.allOfFree ==> AllOf !in h'[d])
  {
    hide Guarded, RefOk, Via, KidOk;
    assert NodeOk(h, p, d);
  }

  lemma ShapeEdit(h: Heap, h': Heap, p: Plan, d: Id, done: set<Id>)
    requires Sound(h, p) && Closed(h, p, done) && d in p.nodes
    requires Local(h, h', p, d) && ShapeKept(h, h', p, d) && KeysKept(h[d], h'[d]) &&
      TableOk(h', p, Get(h'[d], Properties))
    requires d in done ==> LocalStrict(h', p, h'[d])
    requires p.allOfFree ==> Evolved(h, h', p, d)
    ensures Edit(h, h', p, d, done)
    ensures forall k, y :: Via(h', h'[d], k, y) <==> Via(h, h[d], k, y)
  {
    ShapeGuard(h, h', p, d);
    ShapeKids(h, h', p, d);
    ShapeLoads(h, h', p, d);
    hide Sound, Evolved, LocalStrict, Local, ShapeKept, KidsOk, AnchorsKept, GuardKept, KeysKept, LoadOk, Via;
  }

  // Writing a value that is no dictionary under `additionalProperties` or `required`.
  ghost predicate Puts(h: Heap, h': Heap, p: Plan, d: Id, k: Key, v: Json) {
    && d in p.nodes && p.nodes <= h.Keys && p.root in h && NoDangling(h)
    && TableOk(h, p, Get(h[d], Definitions)) && TableOk(h, p, Get(h[d], Properties))
    && k in {AdditionalProperties, Required} && !v.Dict?
    && (k == AdditionalProperties ==> k !in h[d] && v == Bool(false))
    && h' == h[d := h[d][k := v]]
  }

  lemma PutLocal(h: Heap, h': Heap, p: Plan, d: Id, k: Key, v: Json)
    requires Puts(h, h', p, d, k, v)
    ensures Local(h, h', p, d) && TableOk(h', p, Get(h'[d], Properties))
  {
    forall i, n | i in h' && n in h'[i] && h'[i][n].Dict?
      ensures h'[i][n].id in h'
    {
      assert i in h;
    }
  }

  lemma PutShape(h: Heap, h': Heap, p: Plan, d: Id, k: Key, v: Json)
    requires Puts(h, h', p, d, k, v)
    ensures ShapeKept(h, h', p, d) && KeysKept(h[d], h'[d])
  {
    assert forall n :: n != k ==> (n in h'[d] <==> n in h[d]) && Get(h'[d], n) == Get(h[d], n);
    hide NoDangling;
  }

  lemma PutEvolved(h: Heap, h': Heap, p: Plan, d: Id, k: Key, v: Json)
    requires Puts(h, h', p, d, k, v)
    ensures Evolved(h, h', p, d)
  {
    hide NoDangling, Walk, RefPath;
    var o, o' := h[d], h'[d];
    assert forall n :: n != k ==> (n in o' <==> n in o) && Get(o', n) == Get(o, n);
    assert OwnKept(h, h', o, o');
    assert o'.Keys <= o.Keys + {Required, AdditionalProperties};
  }

  lemma PutEdit(h: Heap, h': Heap, p: Plan, d: Id, done: set<Id>, k: Key, v: Json)
    requires Sound(h, p) && Closed(h, p, done) && d in p.nodes
    requires k in {AdditionalProperties, Required} && !v.Dict?
    requires k == AdditionalProperties ==> k !in h[d] && v == Bool(false)
    requires h' == h[d := h[d][k := v]]
    requires d in done ==> LocalStrict(h', p, h'[d])
    ensures Edit(h, h', p, d, done)
    ensures forall k, y :: Via(h', h'[d], k, y) <==> Via(h, h[d], k, y)
  {
    NodeTables(h, p, d);
    hide NodeOk, Guarded, LocalStrict, Evolved, Via, Local, ShapeKept, KeysKept, TableOk, NoDangling, Closed;
    PutLocal(h, h', p, d, k, v);
    PutShape(h, h', p, d, k, v);
    PutEvolved(h, h', p, d, k, v);
    hide Sound, Puts;
    ShapeEdit(h, h', p, d, done);
  }

  lemma NodeTables(h: Heap, p: Plan, d: Id)
    requires Sound(h, p) && d in p.nodes
    ensures TableOk(h, p, Get(h[d], Definitions)) && TableOk(h, p, Get(h[d], Properties))
  {
    assert NodeOk(h, p, d);
  }

  lemma CloseEdit(h: Heap, h': Heap, p: Plan, d: Id, done: set<Id>)
    requires Sound(h, p) && Closed(h, p, done) && d in p.nodes
    requires Get(h[d], Type) == Str("object") && AdditionalProperties !in h[d]
    requires h' == h[d := h[d][AdditionalProperties := Bool(false)]]
    ensures Edit(h, h', p, d, done)
    ensures forall k, y :: Via(h', h'[d], k, y) <==> Via(h, h[d], k, y)
  {
    hide NodeOk, Guarded, NoDangling, Via, RequiresAll, Edit;
    assert d !in done;
    PutEdit(h, h', p, d, done, AdditionalProperties, Bool(false));
  }

  lemma CloseKept(h0: Heap, h: Heap, h': Heap, p: Plan, d: Id, done0: set<Id>, done: set<Id>)
    requires Sound(h0, p) && Kept(h0, h, p, d, done0, done)
    requires Get(h[d], Type) == Str("object") && AdditionalProperties !in h[d]
    requires h' == h[d := h[d][AdditionalProperties := Bool(false)]]
    requires Settled(h, p, d, done, {Definitions})
    ensures Kept(h0, h', p, d, done0, done)
    ensures Settled(h', p, d, done, {Definitions, AdditionalProperties})
  {
    hide Sound, Closed, Edit, Frame, Evolves, Via;
    CloseEdit(h, h', p, d, done);
    CloseSettled(h, h', p, d, done);
    hide Kept, Settled;
    EditKept(h0, h, h', p, d, done0, done);
  }

  lemma CloseSettled(h: Heap, h': Heap, p: Plan, d: Id, done: set<Id>)
    requires Settled(h, p, d, done, {Definitions}) && h' == h[d := h[d][AdditionalProperties := Bool(false)]]
    requires forall k, y :: Via(h', h'[d], k, y) <==> Via(h, h[d], k, y)
    ensures Settled(h', p, d, done, {Definitions, AdditionalProperties})
  {
    assert forall y :: !Via(h', h'[d], AdditionalProperties, y);
    hide Via, RequiresAll;
  }

  lemma RequireEdit(h: Heap, h': Heap, p: Plan, d: Id, done: set<Id>, names: Json)
    requires Sound(h, p) && Closed(h, p, done) && d in p.nodes && names.List?
    requires h' == h[d := h[d][Required := names]] && (d in done ==> RequiresAll(h', h'[d]))
    ensures Edit(h, h', p, d, done)
    ensures forall k, y :: Via(h', h'[d], k, y) <==> Via(h, h[d], k, y)
  {
    hide NodeOk, Guarded, NoDangling, Via, RequiresAll, Edit;
    assert d in done ==> LocalStrict(h', p, h'[d]);
    PutEdit(h, h', p, d, done, Required, names);
  }

  lemma RequireKept(h0: Heap, h: Heap, h': Heap, p: Plan, d: Id, done0: set<Id>, done: set<Id>, ks: seq<Key>)
    requires Sound(h0, p) && Kept(h0, h, p, d, done0, done)
    requires var table := Get(h[d], Properties); table.Dict? && table.id in h && Listing(h[table.id], ks)
    requires h' == h[d := h[d][Required := List(Names(ks))]]
    requires Settled(h, p, d, done, {Definitions, AdditionalProperties})
    ensures Kept(h0, h', p, d, done0, done)
    ensures Settled(h', p, d, done, {Definitions, AdditionalProperties})
  {
    hide Sound, Closed, Edit, Frame, Evolves, Via, Listing;
    KeptSound(h0, h, p, d, done0, done);
    NodeTables(h, p, d);
    assert RequiresAll(h', h'[d]);
    RequireEdit(h, h', p, d, done, List(Names(ks)));
    RequireSettled(h, h', p, d, done, List(Names(ks)));
    hide Kept, Settled, RequiresAll;
    EditKept(h0, h, h', p, d, done0, done);
  }

  lemma RequireSettled(h: Heap, h': Heap, p: Plan, d: Id, done: set<Id>, names: Json)
    requires Settled(h, p, d, done, {Definitions, AdditionalProperties}) && h' == h[d := h[d][Required := names]]
    requires forall k, y :: Via(h', h'[d], k, y) <==> Via(h, h[d], k, y)
    ensures Settled(h', p, d, done, {Definitions, AdditionalProperties})
  {
    hide Via, RequiresAll;
    assert Get(h'[d], Type) == Get(h[d], Type);
  }

  ghost predicate Retables(h: Heap, h': Heap, p: Plan, d: Id, source: Id, copy: Id) {
    && d in p.nodes && p.nodes <= h.Keys && p.root in h && NoDangling(h) && copy !in h && source in h
    && Get(h[d], Properties).Dict? && Get(h[d], Properties).id in h && h[Get(h[d], Properties).id] == h[source]
    && TableOk(h, p, Get(h[d], Definitions)) && TableOk(h, p, Get(h[d], Properties))
    && h' == h[copy := h[source]][d := h[d][Properties := Dict(copy)]]
  }

  lemma RetableLocal(h: Heap, h': Heap, p: Plan, d: Id, source: Id, copy: Id)
    requires Retables(h, h', p, d, source, copy)
    ensures Local(h, h', p, d) && TableOk(h', p, Get(h'[d], Properties))
  {
    forall i, n | i in h' && n in h'[i] && h'[i][n].Dict?
      ensures h'[i][n].id in h'
    {
      assert i in h || i == copy;
    }
  }

  lemma RetableShape(h: Heap, h': Heap, p: Plan, d: Id, source: Id, copy: Id)
    requires Retables(h, h', p, d, source, copy)
    ensures ShapeKept(h, h', p, d) && KeysKept(h[d], h'[d])
  {
    hide NoDangling;
    assert forall n :: n != Properties ==> (n in h'[d] <==> n in h[d]) && Get(h'[d], n) == Get(h[d], n);
    assert h'[copy] == h[source];
  }

  lemma RetableEvolved(h: Heap, h': Heap, p: Plan, d: Id, source: Id, copy: Id)
    requires Retables(h, h', p, d, source, copy)
    ensures Evolved(h, h', p, d)
  {
    hide NoDangling, Walk, RefPath;
    assert h'[copy] == h[source];
    assert OwnKept(h, h', h[d], h'[d]);
  }

  lemma RetableStrict(h: Heap, h': Heap, p: Plan, d: Id, source: Id, copy: Id)
    requires Retables(h, h', p, d, source, copy) && LocalStrict(h, p, h[d]) && RequiresAll(h', h'[d])
    ensures LocalStrict(h', p, h'[d])
  {
    hide NoDangling, TableOk, RequiresAll;
    assert forall n :: n != Properties ==> (n in h'[d] <==> n in h[d]) && Get(h'[d], n) == Get(h[d], n);
  }

  // Replacing d's property table by a copy of a table with the same entries.
  lemma RetableEdit(h: Heap, h': Heap, p: Plan, d: Id, done: set<Id>, source: Id, copy: Id)
    requires Sound(h, p) && Closed(h, p, done) && d in p.nodes && copy !in h && source in h
    requires var table := Get(h[d], Properties); table.Dict? && table.id in h && h[table.id] == h[source]
    requires h' == h[copy := h[source]][d := h[d][Properties := Dict(copy)]]
    requires d in done ==> RequiresAll(h', h'[d])
    ensures Edit(h, h', p, d, done)
    ensures forall k, y :: Via(h', h'[d], k, y) <==> Via(h, h[d], k, y)
  {
    NodeTables(h, p, d);
    hide NodeOk, Guarded, Evolved, Via, Local, ShapeKept, KeysKept, TableOk, NoDangling, RequiresAll, Edit;
    RetableLocal(h, h', p, d, source, copy);
    RetableShape(h, h', p, d, source, copy);
    RetableEvolved(h, h', p, d, source, copy);
    if d in done {
      RetableStrict(h, h', p, d, source, copy);
    }
    hide Sound, Closed, LocalStrict, Retables;
    ShapeEdit(h, h', p, d, done);
  }

  // Visiting sub-schemas of d unsettles nothing at d.
  lemma SettledLater(h: Heap, h': Heap, p: Plan, d: Id, done: set<Id>, done': set<Id>, ks: set<Key>)
    requires Sound(h, p) && d in p.nodes && Fixed(h, h', p) && h'[d] == h[d] && done <= done'
    requires Settled(h, p, d, done, ks)
    ensures Settled(h', p, d, done', ks)
  {
    assert NodeOk(h, p, d);
    forall k, y | k in ks && Via(h', h'[d], k, y) ensures y in done' {
      ViaStable(h, h', p, d, k, y);
    }
  }

  // Once every listed value of a table is done, so is every sub-schema reached through it.
  lemma TableDone(h: Heap, h': Heap, p: Plan, d: Id, k: Key, table: Json, ks: seq<Key>, done: set<Id>)
    requires Sound(h, p) && d in p.nodes && k in {Definitions, Properties} && Fixed(h, h', p)
    requires table == Get(h[d], k) && table.Dict? && table.id in h && Listing(h[table.id], ks) && h'[d] == h[d]
    requires forall j :: j in ValuesOf(h[table.id], ks) ==> j.Dict? && j.id in done
    ensures forall y :: Via(h', h'[d], k, y) ==> y in done
  {
    assert NodeOk(h, p, d);
    KidsListed(h, p, d, k, table, ks);
    forall y | Via(h', h'[d], k, y) ensures y in done {
      ViaStable(h, h', p, d, k, y);
      assert Dict(y) in ValuesOf(h[table.id], ks);
    }
  }

  lemma RetableRequires(h: Heap, h': Heap, d: Id, table: Json, copy: Id, ks: seq<Key>)
    requires d in h && copy !in h && table.Dict? && table.id in h && Listing(h[table.id], ks)
    requires Get(h[d], Required) == List(Names(ks))
    requires h' == h[copy := h[table.id]][d := h[d][Properties := Dict(copy)]]
    ensures RequiresAll(h', h'[d])
  {
    assert h'[copy] == h[table.id];
    assert Listing(h'[copy], ks);
  }

  lemma RetableKept(h0: Heap, h: Heap, h': Heap, p: Plan, d: Id, done0: set<Id>, done: set<Id>, table: Json, copy: Id,
      ks: seq<Key>)
    requires Sound(h0, p) && Kept(h0, h, p, d, done0, done) && copy !in h
    requires table == Get(h[d], Properties) && table.Dict? && table.id in h && Listing(h[table.id], ks)
    requires Get(h[d], Required) == List(Names(ks))
    requires Settled(h, p, d, done, {Definitions, AdditionalProperties})
    requires forall y :: Via(h, h[d], Properties, y) ==> y in done
    requires h' == h[copy := h[table.id]][d := h[d][Properties := Dict(copy)]]
    ensures Kept(h0, h', p, d, done0, done)
    ensures Settled(h', p, d, done, {Definitions, AdditionalProperties, Properties})
  {
    hide Sound, Closed, Edit, Frame, Evolves, Via, Listing;
    assert d in p.nodes;
    RetableRequires(h, h', d, table, copy, ks);
    KeptSound(h0, h, p, d, done0, done);
    RetableEdit(h, h', p, d, done, table.id, copy);
    RetableSettled(h, h', p, d, done, copy);
    hide Kept, Settled, RequiresAll;
    EditKept(h0, h, h', p, d, done0, done);
  }

  lemma RetableSettled(h: Heap, h': Heap, p: Plan, d: Id, done: set<Id>, copy: Id)
    requires Settled(h, p, d, done, {Definitions, AdditionalProperties})
    requires forall y :: Via(h, h[d], Properties, y) ==> y in done
    requires d in h' && h'[d] == h[d][Properties := Dict(copy)] && RequiresAll(h', h'[d])
    requires forall k, y :: Via(h', h'[d], k, y) <==> Via(h, h[d], k, y)
    ensures Settled(h', p, d, done, {Definitions, AdditionalProperties, Properties})
  {
    hide Via, RequiresAll;
    assert Get(h'[d], Type) == Get(h[d], Type);
  }

  lemma KeptSound(h0: Heap, h: Heap, p: Plan, d: Id, done0: set<Id>, done: set<Id>)
    requires Kept(h0, h, p, d, done0, done)
    ensures d in p.nodes && d in h && d in h0 && Sound(h, p) && Closed(h, p, done)
  {
  }

  ghost const PROPERTY_KEYS: set<Key> := {Definitions, AdditionalProperties, Properties}
  ghost const UNION_KEYS: set<Key> := {Definitions, AdditionalProperties, Properties, Items, OneOf, AnyOf}

  // The sub-schemas that a keyword holding a dictionary or a list gives to visit.
  function SubSchemas(k: Key, v: Json): seq<Json> {
    if k == Items then (if v.Dict? then [v] else []) else if v.List? then v.items else []
  }

  lemma KeywordKids(h: Heap, p: Plan, d: Id, k: Key)
    requires Sound(h, p) && d in p.nodes && k in {Items, OneOf, AnyOf, AllOf}
    ensures forall j :: j in SubSchemas(k, Get(h[d], k)) && j.Dict? ==> KidOk(p, d, j.id)
    ensures forall y :: Via(h, h[d], k, y) ==> Dict(y) in SubSchemas(k, Get(h[d], k))
    ensures p.loadable ==> AllDicts(SubSchemas(k, Get(h[d], k)))
  {
    assert NodeOk(h, p, d);
    forall j | j in SubSchemas(k, Get(h[d], k)) && j.Dict? ensures KidOk(p, d, j.id) {
      assert Via(h, h[d], k, j.id);
    }
  }

  lemma MergeThere(h: Heap, p: Plan, d: Id, c: Id)
    requires Sound(h, p) && d in p.nodes && Get(h[d], AllOf) == List([Dict(c)])
    ensures KidOk(p, d, c) && c in h
  {
    assert NodeOk(h, p, d);
    assert Via(h, h[d], AllOf, c);
  }

  // Tables that no node holds are the same before and after.
  lemma MixVia(h: Heap, h': Heap, p: Plan, o: Object, from: Object, k: Key, y: Id)
    requires Via(h', o, k, y) && Get(o, k) == Get(from, k)
    requires TableOk(h, p, Get(from, Definitions)) && TableOk(h, p, Get(from, Properties))
    requires forall i :: i in h && i !in p.nodes ==> i in h' && h'[i] == h[i]
    ensures Via(h, from, k, y)
  {
  }

  lemma MergeKids(h: Heap, h': Heap, p: Plan, d: Id, c: Id, done: set<Id>)
    requires Sound(h, p) && Closed(h, p, done) && d in p.nodes && c in done && KidOk(p, d, c)
    requires p.ranked && h' == h[d := h[d] + h[c] - {AllOf}]
    requires Settled(h, p, d, done, UNION_KEYS)
    ensures KidsOk(h', p, d) && forall k, y :: Via(h', h'[d], k, y) ==> y in done && k != AllOf
  {
    hide Guarded, RefOk, LocalStrict;
    assert NodeOk(h, p, d) && NodeOk(h, p, c);
    forall k, y | Via(h', h'[d], k, y)
      ensures KidOk(p, d, y) && y in done && k != AllOf
    {
      assert k != AllOf;
      if k in h[c] {
        MixVia(h, h', p, h'[d], h[c], k, y);
      } else {
        MixVia(h, h', p, h'[d], h[d], k, y);
      }
    }
    hide Via, NoDangling;
  }

  lemma MergeLocal(h: Heap, h': Heap, p: Plan, d: Id, c: Id)
    requires d in p.nodes && p.nodes <= h.Keys && p.root in h && NoDangling(h) && c in h
    requires h' == h[d := h[d] + h[c] - {AllOf}]
    ensures Local(h, h', p, d)
  {
    forall i, n | i in h' && n in h'[i] && h'[i][n].Dict?
      ensures h'[i][n].id in h'
    {
      assert i in h;
      assert i == d ==> (n in h[d] && h'[d][n] == h[d][n]) || (n in h[c] && h'[d][n] == h[c][n]);
    }
  }

  // The merged entries are strict ones, so d stays as it was settled.
  lemma MergeSettled(h: Heap, h': Heap, p: Plan, d: Id, c: Id, done: set<Id>)
    requires Settled(h, p, d, done, UNION_KEYS) && c in h && LocalStrict(h, p, h[c]) && !p.allOfFree
    requires h' == h[d := h[d] + h[c] - {AllOf}]
    requires forall k, y :: Via(h', h'[d], k, y) ==> y in done && k != AllOf
    ensures Settled(h', p, d, done, UNION_KEYS + {AllOf}) && KeysKept(h[d], h'[d])
  {
    hide Via, RequiresAll;
  }

  lemma MergeEdit(h: Heap, h': Heap, p: Plan, d: Id, c: Id, done: set<Id>)
    requires Sound(h, p) && Closed(h, p, done) && d in p.nodes && c in done && KidOk(p, d, c)
    requires p.ranked && Get(h[d], AllOf) == List([Dict(c)])
    requires h' == h[d := h[d] + h[c] - {AllOf}]
    requires Settled(h, p, d, done, UNION_KEYS)
    ensures Edit(h, h', p, d, done)
    ensures Settled(h', p, d, done, UNION_KEYS + {AllOf})
  {
    hide Guarded, NodeOk, Via, KidsOk, AnchorsKept, GuardKept, LoadOk, LocalStrict, KeysKept, Settled, NoDangling,
      Local;
    MergeKids(h, h', p, d, c, done);
    MergeFree(h, p, d, c, done);
    MergeGuard(h, h', p, d, c);
    MergeLoadable(h, h', p, d, c);
    MergeLocal(h, h', p, d, c);
    assert LocalStrict(h, p, h[c]);
    MergeSettled(h, h', p, d, c, done);
    hide Sound, Closed;
  }

  lemma MergeFree(h: Heap, p: Plan, d: Id, c: Id, done: set<Id>)
    requires Sound(h, p) && Closed(h, p, done) && d in p.nodes && Get(h[d], AllOf) == List([Dict(c)])
    ensures !p.allOfFree && d !in done
  {
    hide Guarded, RefOk, Via;
    assert NodeOk(h, p, d);
  }

  lemma MergeLoadable(h: Heap, h': Heap, p: Plan, d: Id, c: Id)
    requires Sound(h, p) && d in p.nodes && c in p.nodes && h' == h[d := h[d] + h[c] - {AllOf}]
    ensures LoadOk(h', p, d)
  {
    hide Guarded, RefOk, Target, Via;
    assert NodeOk(h, p, d) && NodeOk(h, p, c);
  }

  lemma MergeGuard(h: Heap, h': Heap, p: Plan, d: Id, c: Id)
    requires Sound(h, p) && d in p.nodes && c in h && !p.allOfFree && Get(h[d], AllOf) == List([Dict(c)])
    requires h' == h[d := h[d] + h[c] - {AllOf}]
    ensures GuardKept(h, h', p, d) && AnchorsKept(h, h', p)
  {
    hide NodeOk, Target;
    assert d in p.tame ==> TameOk(h, p, d);
    assert d in p.lead ==> LeadOk(h, p, d);
    assert d in p.tame || d in p.lead ==> c in p.tame;
    assert c in p.tame ==> TameOk(h, p, c);
    assert forall a :: a in p.anchors ==> a !in VOLATILE;
  }

  ghost predicate Defaults(h: Heap, h': Heap, p: Plan, d: Id) {
    && d in p.nodes && p.nodes <= h.Keys && p.root in h && NoDangling(h)
    && TableOk(h, p, Get(h[d], Definitions)) && TableOk(h, p, Get(h[d], Properties))
    && Default in h[d] && h[d][Default] == Null && h' == h[d := h[d] - {Default}]
  }

  lemma DefaultLocal(h: Heap, h': Heap, p: Plan, d: Id)
    requires Defaults(h, h', p, d)
    ensures Local(h, h', p, d) && KeysKept(h[d], h'[d])
  {
    forall i, n | i in h' && n in h'[i] && h'[i][n].Dict?
      ensures h'[i][n].id in h'
    {
      assert i in h && n in h[i] && h[i][n] == h'[i][n];
    }
  }

  lemma DefaultShape(h: Heap, h': Heap, p: Plan, d: Id)
    requires Defaults(h, h', p, d)
    ensures SameShape(h, h', h[d], h'[d])
  {
    hide NoDangling;
    assert forall n :: n != Default ==> Get(h'[d], n) == Get(h[d], n);
  }

  lemma DefaultEvolved(h: Heap, h': Heap, p: Plan, d: Id)
    requires Defaults(h, h', p, d)
    ensures Evolved(h, h', p, d)
  {
    hide NoDangling, Walk, RefPath;
    assert forall n :: n != Default ==> (n in h'[d] <==> n in h[d]) && Get(h'[d], n) == Get(h[d], n);
    assert OwnKept(h, h', h[d], h'[d]);
  }

  lemma DefaultEdit(h: Heap, h': Heap, p: Plan, d: Id, done: set<Id>)
    requires Sound(h, p) && Closed(h, p, done) && d in p.nodes
    requires Default in h[d] && h[d][Default] == Null
    requires h' == h[d := h[d] - {Default}]
    ensures Edit(h, h', p, d, done)
    ensures forall k, y :: Via(h', h'[d], k, y) <==> Via(h, h[d], k, y)
  {
    NodeTables(h, p, d);
    hide NodeOk, Guarded, Via, RequiresAll, TableOk, NoDangling, SameShape;
    assert d !in done;
    DefaultLocal(h, h', p, d);
    DefaultShape(h, h', p, d);
    hide Local, KeysKept, KidsOk, LoadOk, AnchorsKept, GuardKept, Evolved, Closed, LocalStrict;
    DefaultEvolved(h, h', p, d);
    DefaultGuard(h, h', p, d);
    DefaultKids(h, h', p, d);
    hide Sound, Defaults;
  }

  lemma DefaultKids(h: Heap, h': Heap, p: Plan, d: Id)
    requires Sound(h, p) && d in p.nodes && h' == h[d := h[d] - {Default}]
    requires SameShape(h, h', h[d], h'[d])
    ensures KidsOk(h', p, d) && LoadOk(h', p, d) && (p.allOfFree ==> AllOf !in h'[d])
    ensures forall k, y :: Via(h', h'[d], k, y) <==> Via(h, h[d], k, y)
  {
    hide Guarded, RefOk;
    assert NodeOk(h, p, d);
    SameVia(h, h', h[d], h'[d]);
  }

  lemma DefaultGuard(h: Heap, h': Heap, p: Plan, d: Id)
    requires Sound(h, p) && d in p.nodes && Default in h[d] && h[d][Default] == Null
    requires h' == h[d := h[d] - {Default}]
    ensures GuardKept(h, h', p, d) && AnchorsKept(h, h', p)
  {
    hide NodeOk, Target;
    assert forall a :: a in p.anchors ==> a !in VOLATILE;
    assert d in p.tame ==> TameOk(h, p, d);
    assert !p.allOfFree && d in p.lead ==> LeadOk(h, p, d);
  }

  lemma DefaultKept(h0: Heap, h: Heap, h': Heap, p: Plan, d: Id, done0: set<Id>, done: set<Id>)
    requires Sound(h0, p) && Kept(h0, h, p, d, done0, done)
    requires Default in h[d] && h[d][Default] == Null
    requires h' == h[d := h[d] - {Default}]
    requires Settled(h, p, d, done, UNION_KEYS + {AllOf})
    ensures Kept(h0, h', p, d, done0, done)
    ensures Settled(h', p, d, done, UNION_KEYS + {AllOf, Default})
  {
    hide Sound, Closed, Edit, Frame, Evolves, Via;
    KeptSound(h0, h, p, d, done0, done);
    NodeTables(h, p, d);
    DefaultEdit(h, h', p, d, done);
    DefaultSettled(h, h', p, d, done);
    hide Kept, Settled;
    EditKept(h0, h, h', p, d, done0, done);
  }

  lemma DefaultSettled(h: Heap, h': Heap, p: Plan, d: Id, done: set<Id>)
    requires Settled(h, p, d, done, UNION_KEYS + {AllOf}) && h' == h[d := h[d] - {Default}]
    requires d in p.nodes && TableOk(h, p, Get(h[d], Properties))
    requires forall k, y :: Via(h', h'[d], k, y) <==> Via(h, h[d], k, y)
    ensures Settled(h', p, d, done, UNION_KEYS + {AllOf, Default})
  {
    if p.allOfFree {
      DefaultRequires(h, h', p, d);
    }
    hide RequiresAll;
    assert forall y :: !Via(h', h'[d], Default, y);
    hide Via;
    assert Get(h'[d], Type) == Get(h[d], Type) && Get(h'[d], AllOf) == Get(h[d], AllOf);
  }

  lemma DefaultRequires(h: Heap, h': Heap, p: Plan, d: Id)
    requires d in h && h' == h[d := h[d] - {Default}]
    requires RequiresAll(h, h[d]) && (Get(h[d], Properties).Dict? ==> Get(h[d], Properties).id != d)
    ensures RequiresAll(h', h'[d])
  {
  }

  // What a reference gives to take over, at any time.
  lemma TargetLends(h: Heap, p: Plan, d: Id, t: Id)
    requires Sound(h, p) && d in p.nodes && Target(h, p.root, d) == Some(t)
    ensures t in h && Lends(h, p, d, t)
  {
    hide Guarded;
    assert NodeOk(h, p, d);
    assert TargetOk(h, p, d, t);
    if t in p.nodes {
      assert NodeOk(h, p, t);
    }
  }

  lemma InlineEvolved(h: Heap, h': Heap, p: Plan, d: Id, t: Id)
    requires d in h && t in h && (Get(h[d], Properties).Dict? ==> Get(h[d], Properties).id != d)
    requires Get(h[t], Properties).Dict? ==> Get(h[t], Properties).id != d
    requires Get(h[d], DollarRef).Str? && Target(h, p.root, d) == Some(t)
    requires h' == h[d := h[t] + h[d] - {DollarRef}]
    ensures Evolved(h, h', p, d)
  {
    assert OwnKept(h, h', h[d], h'[d]);
    assert Carries(h, h', h[t], h[d], h'[d]);
  }

  lemma InlineGuard(h: Heap, h': Heap, p: Plan, d: Id, t: Id)
    requires Sound(h, p) && d in p.nodes && t in h && Target(h, p.root, d) == Some(t)
    requires h' == h[d := h[t] + h[d] - {DollarRef}]
    ensures GuardKept(h, h', p, d) && AnchorsKept(h, h', p)
  {
    hide NodeOk, Target;
    assert d in p.tame ==> TameOk(h, p, d);
    assert d in p.tame ==> t in p.tame;
    assert t in p.tame ==> TameOk(h, p, t);
    assert !p.allOfFree && d in p.lead ==> LeadOk(h, p, d);
    assert !p.allOfFree && d in p.lead ==> t in p.lead;
    assert !p.allOfFree && t in p.lead ==> LeadOk(h, p, t);
    assert forall a :: a in p.anchors ==> a !in VOLATILE;
    assert d == p.root && !(p.anchors <= h[d].Keys) ==> t in p.tame;
  }

  lemma InlineKid(h: Heap, h': Heap, p: Plan, d: Id, t: Id, k: Key, y: Id)
    requires d in h && t in h && d in p.nodes && Lends(h, p, d, t)
    requires TableOk(h, p, Get(h[d], Definitions)) && TableOk(h, p, Get(h[d], Properties))
    requires forall k, y :: Via(h, h[d], k, y) ==> KidOk(p, d, y)
    requires h' == h[d := h[t] + h[d] - {DollarRef}] && Via(h', h'[d], k, y)
    ensures KidOk(p, d, y)
  {
    hide ValuesLoadable, KidOk;
    if k in h[d] {
      MixVia(h, h', p, h'[d], h[d], k, y);
    } else {
      MixVia(h, h', p, h'[d], h[t], k, y);
    }
  }

  lemma InlineLoads(h: Heap, h': Heap, p: Plan, d: Id, t: Id)
    requires d in h && t in h && d in p.nodes && Lends(h, p, d, t) && (p.loadable ==> ValuesLoadable(h, h[d]))
    requires TableOk(h, p, Get(h[d], Definitions)) && TableOk(h, p, Get(h[d], Properties))
    requires h' == h[d := h[t] + h[d] - {DollarRef}]
    ensures LoadOk(h', p, d) && (p.allOfFree && AllOf !in h[d] ==> AllOf !in h'[d])
    ensures TableOk(h', p, Get(h'[d], Definitions)) && TableOk(h', p, Get(h'[d], Properties))
  {
    hide Via, KidOk;
    assert forall k :: k in h'[d] ==> h'[d][k] == if k in h[d] then h[d][k] else h[t][k];
  }

  lemma InlineKids(h: Heap, h': Heap, p: Plan, d: Id, t: Id)
    requires Sound(h, p) && d in p.nodes && t in h && Lends(h, p, d, t)
    requires h' == h[d := h[t] + h[d] - {DollarRef}]
    ensures KidsOk(h', p, d) && LoadOk(h', p, d) && (p.allOfFree ==> AllOf !in h'[d])
  {
    hide Guarded, RefOk, Target, Lends, Via, NoDangling, LoadOk, KidOk, TableOk;
    assert NodeOk(h, p, d);
    hide Sound;
    InlineLoads(h, h', p, d, t);
    forall k, y | Via(h', h'[d], k, y) ensures KidOk(p, d, y) {
      InlineKid(h, h', p, d, t, k, y);
    }
  }

  lemma InlineLocal(h: Heap, h': Heap, p: Plan, d: Id, t: Id)
    requires d in p.nodes && p.nodes <= h.Keys && p.root in h && NoDangling(h) && t in h
    requires h' == h[d := h[t] + h[d] - {DollarRef}]
    ensures Local(h, h', p, d) && KeysKept(h[d], h'[d])
  {
    forall i, n | i in h' && n in h'[i] && h'[i][n].Dict?
      ensures h'[i][n].id in h'
    {
      assert i in h;
      assert i == d ==> (n in h[d] && h'[d][n] == h[d][n]) || (n in h[t] && h'[d][n] == h[t][n]);
    }
  }

  lemma InlineEdit(h: Heap, h': Heap, p: Plan, d: Id, t: Id, done: set<Id>)
    requires Sound(h, p) && Closed(h, p, done) && d in p.nodes
    requires Get(h[d], DollarRef).Str? && Target(h, p.root, d) == Some(t)
    requires h' == h[d := h[t] + h[d] - {DollarRef}]
    ensures Edit(h, h', p, d, done)
  {
    TargetLends(h, p, d, t);
    NodeTables(h, p, d);
    hide Guarded, NodeOk, Target, Lends, Via, KidsOk, LoadOk, AnchorsKept, GuardKept, RequiresAll, KeysKept, Local,
      NoDangling;
    assert d !in done;
    InlineLocal(h, h', p, d, t);
    InlineGuard(h, h', p, d, t);
    InlineKids(h, h', p, d, t);
    LendsTable(h, p, d, t);
    hide Evolved, LocalStrict;
    InlineEvolved(h, h', p, d, t);
    hide Sound, Closed;
  }

  lemma LendsTable(h: Heap, p: Plan, d: Id, t: Id)
    requires d in h && t in h && Lends(h, p, d, t)
    ensures TableOk(h, p, Get(h[t], Properties))
  {
  }

  lemma RefThere(h: Heap, p: Plan, d: Id)
    requires Sound(h, p) && d in p.nodes
    ensures p.loadable && Get(h[d], DollarRef) != Null ==> Target(h, p.root, d).Some?
  {
    assert NodeOk(h, p, d);
  }

  lemma UnionKeys()
    ensures PROPERTY_KEYS + {Items} + {OneOf} + {AnyOf} == UNION_KEYS
  {
  }

  lemma SettledDone(h0: Heap, h: Heap, p: Plan, d: Id, done0: set<Id>, done: set<Id>)
    requires Kept(h0, h, p, d, done0, done) && Get(h[d], DollarRef) == Null
    requires Settled(h, p, d, done, UNION_KEYS + {AllOf, Default})
    ensures Kept(h0, h, p, d, done0, done + {d})
  {
    forall k, y | Via(h, h[d], k, y) ensures y in done {
      assert k in UNION_KEYS + {AllOf, Default};
    }
    assert LocalStrict(h, p, h[d]);
  }
}
