// db/llm_migration_utils.py: the in-place rewrite of model ids in stored configurations.
//
// A decoded configuration is a heap of dictionaries, changed in place; what it says is a tree.
module LlmMigration {

  type Id = nat

  datatype Json = Null | Flag(b: bool) | Number(n: real) | Text(s: string) | Array(items: seq<Json>) | Object(id: Id)

  // A dictionary: its keys in insertion order and their values.
  datatype Object = Obj(keys: seq<string>, values: seq<Json>)

  type Heap = map<Id, Object>

  // The content of a value.
  datatype Tree = Leaf(value: Json) | Branch(items: seq<Tree>) | Record(keys: seq<string>, values: seq<Tree>)

  type Replacements = map<string, string>

  // ----- what the rewrite means, on contents -----

  function IndexOf(keys: seq<string>, key: string): (i: nat)
    ensures i <= |keys| && (i < |keys| ==> keys[i] == key) && key !in keys[..i]
    ensures i == |keys| <==> key !in keys
  {
    if keys == [] then 0
    else if keys[0] == key then 0
    else
      assert keys == [keys[0]] + keys[1..];
      IndexOf(keys[1..], key) + 1
  }

  // The string under a key, if there is one.
  predicate HasText(keys: seq<string>, values: seq<Tree>, key: string, s: string)
    requires |keys| == |values|
  {
    var i := IndexOf(keys, key);
    i < |keys| && values[i] == Leaf(Text(s))
  }

  // A model id that is to be replaced: plain, and among the keys of the replacements.
  predicate Replaceable(m: string, rep: Replacements) { '/' !in m && m in rep }

  predicate Matches(t: Tree, rep: Replacements) {
    && t.Record? && |t.keys| == |t.values|
    && HasText(t.keys, t.values, "_type", "llm_config")
    && var i := IndexOf(t.keys, "model_id");
    i < |t.keys| && t.values[i].Leaf? && t.values[i].value.Text? && Replaceable(t.values[i].value.s, rep)
  }

  function ModelOf(t: Tree, rep: Replacements): string
    requires Matches(t, rep)
  {
    t.values[IndexOf(t.keys, "model_id")].value.s
  }

  ghost predicate FirstKey(keys: seq<string>, key: string, i: nat) {
    i < |keys| && keys[i] == key && forall j :: 0 <= j < i ==> keys[j] != key
  }

  // Its `_type` is "llm_config" and its `model_id` is a plain model id that is to be replaced.
  ghost predicate Configures(t: Tree, i: nat, m: string, rep: Replacements) {
    && t.Record? && |t.keys| == |t.values|
    && (exists j: nat :: FirstKey(t.keys, "_type", j) && t.values[j] == Leaf(Text("llm_config")))
    && FirstKey(t.keys, "model_id", i) && t.values[i] == Leaf(Text(m))
    && '/' !in m && m in rep
  }

  // Such a dictionary matches, and no other; its model id is the one to replace.
  lemma MatchesExact(t: Tree, rep: Replacements)
    ensures Matches(t, rep) <==> exists i: nat, m :: Configures(t, i, m, rep)
    ensures forall i: nat, m :: Configures(t, i, m, rep) ==>
      i < |t.keys| == |Kids(Rewrite(t, rep))| && Kids(Rewrite(t, rep))[i] == Leaf(Text(rep[m]))
  {
    forall i: nat, m | Configures(t, i, m, rep)
      ensures Matches(t, rep) && Kids(Rewrite(t, rep))[i] == Leaf(Text(rep[m]))
    {
      FirstIs(t.keys, "model_id", i);
      var j: nat :| FirstKey(t.keys, "_type", j) && t.values[j] == Leaf(Text("llm_config"));
      FirstIs(t.keys, "_type", j);
    }
    if Matches(t, rep) {
      MatchConfigures(t, rep);
    }
  }

  lemma MatchConfigures(t: Tree, rep: Replacements)
    requires Matches(t, rep)
    ensures exists i: nat, m :: Configures(t, i, m, rep)
  {
    var i, j := IndexOf(t.keys, "model_id"), IndexOf(t.keys, "_type");
    IndexFirst(t.keys, "model_id");
    IndexFirst(t.keys, "_type");
    assert Configures(t, i, t.values[i].value.s, rep);
  }

  lemma IndexFirst(keys: seq<string>, key: string)
    requires key in keys
    ensures FirstKey(keys, key, IndexOf(keys, key))
  {
    var k := IndexOf(keys, key);
    assert forall n :: 0 <= n < k ==> keys[..k][n] != key;
  }

  lemma FirstIs(keys: seq<string>, key: string, i: nat)
    requires FirstKey(keys, key, i)
    ensures IndexOf(keys, key) == i
  {
    var k := IndexOf(keys, key);
    assert forall n :: 0 <= n < k ==> keys[..k][n] != key;
  }

  // All model ids replaced at once.
  function Rewrite(t: Tree, rep: Replacements): Tree
    decreases t
  {
    match t
    case Leaf(_) => t
    case Branch(items) => Branch(RewriteAll(items, rep))
    case Record(keys, values) =>
      Record(keys, if Matches(t, rep) then RewriteAll(values,
        rep)[IndexOf(keys, "model_id") := Leaf(Text(rep[ModelOf(t, rep)]))]
                   else RewriteAll(values, rep))
  }

  function RewriteAll(ts: seq<Tree>, rep: Replacements): (r: seq<Tree>)
    ensures |r| == |ts| && forall i :: 0 <= i < |ts| ==> r[i] == Rewrite(ts[i], rep)
    decreases ts
  {
    seq(|ts|, i requires 0 <= i < |ts| => Rewrite(ts[i], rep))
  }

  // Some dictionary in the tree matches.
  predicate AnyMatch(t: Tree, rep: Replacements)
    decreases t
  {
    match t
    case Leaf(_) => false
    case Branch(items) => AnyIn(items, rep)
    case Record(keys, values) => Matches(t, rep) || AnyIn(values, rep)
  }

  predicate AnyIn(ts: seq<Tree>, rep: Replacements)
    decreases ts
  {
    exists i :: 0 <= i < |ts| && AnyMatch(ts[i], rep)
  }

  function Kids(t: Tree): seq<Tree> {
    match t
    case Leaf(_) => []
    case Branch(items) => items
    case Record(_, values) => values
  }

  // The subtree down a path.
  ghost predicate At(t: Tree, path: seq<nat>, s: Tree)
    decreases |path|
  {
    if path == [] then t == s else path[0] < |Kids(t)| && At(Kids(t)[path[0]], path[1..], s)
  }

  // A match is a matching dictionary somewhere in the tree.
  lemma {:induction false} AnyMatchExact(t: Tree, rep: Replacements)
    ensures AnyMatch(t, rep) <==> exists path, s :: At(t, path, s) && Matches(s, rep)
    decreases t
  {
    hide Matches;
    if AnyMatch(t, rep) {
      if t.Record? && Matches(t, rep) {
        assert At(t, [], t);
      } else {
        assert AnyIn(Kids(t), rep);
        var i :| 0 <= i < |Kids(t)| && AnyMatch(Kids(t)[i], rep);
        AnyMatchExact(Kids(t)[i], rep);
        var path, s :| At(Kids(t)[i], path, s) && Matches(s, rep);
        assert ([i] + path)[1..] == path;
        assert At(t, [i] + path, s);
      }
    }
    if path, s :| At(t, path, s) && Matches(s, rep) {
      MatchFound(t, path, s, rep);
    }
  }

  lemma {:induction false} MatchFound(t: Tree, path: seq<nat>, s: Tree, rep: Replacements)
    requires At(t, path, s) && Matches(s, rep)
    ensures AnyMatch(t, rep)
    decreases |path|
  {
    if path != [] {
      MatchFound(Kids(t)[path[0]], path[1..], s, rep);
    }
  }

  // The place of a replaced model id.
  ghost predicate Renamed(parent: Tree, i: nat, rep: Replacements) {
    Matches(parent, rep) && i == IndexOf(parent.keys, "model_id")
  }

  // Only the model ids of matching dictionaries change; every other place holds what it held, with
  // the same keys in the same order.
  lemma RewriteLocal(t: Tree, i: nat, rep: Replacements)
    ensures |Kids(Rewrite(t, rep))| == |Kids(t)|
    ensures i < |Kids(t)| && Renamed(t, i, rep) ==> Kids(Rewrite(t, rep))[i] == Leaf(Text(rep[ModelOf(t, rep)]))
    ensures i < |Kids(t)| && !Renamed(t, i, rep) ==> Kids(Rewrite(t, rep))[i] == Rewrite(Kids(t)[i], rep)
    ensures t.Leaf? ==> Rewrite(t, rep) == t
    ensures t.Branch? ==> Rewrite(t, rep).Branch?
    ensures t.Record? ==> Rewrite(t, rep).Record? && Rewrite(t, rep).keys == t.keys
  {
  }

  lemma {:induction false} NoMatchUnchanged(t: Tree, rep: Replacements)
    requires !AnyMatch(t, rep)
    ensures Rewrite(t, rep) == t
    decreases t
  {
    hide Matches;
    forall i | 0 <= i < |Kids(t)| ensures Rewrite(Kids(t)[i], rep) == Kids(t)[i] {
      NoMatchUnchanged(Kids(t)[i], rep);
    }
    assert RewriteAll(Kids(t), rep) == Kids(t);
  }

  // ----- running it again -----

  // No replacement leads to a model id that is replaced itself.
  ghost predicate Settled(rep: Replacements) {
    forall m :: m in rep && '/' !in m ==> !Replaceable(rep[m], rep)
  }

  lemma {:induction false} RewrittenSettled(t: Tree, rep: Replacements)
    requires Settled(rep)
    ensures !AnyMatch(Rewrite(t, rep), rep)
    decreases t
  {
    var r := Rewrite(t, rep);
    forall i | 0 <= i < |Kids(t)| ensures !AnyMatch(Kids(r)[i], rep) {
      RewriteLocal(t, i, rep);
      if Renamed(t, i, rep) {
        assert !AnyMatch(Leaf(Text(rep[ModelOf(t, rep)])), rep);
      } else {
        RewrittenSettled(Kids(t)[i], rep);
      }
    }
    RewriteLocal(t, 0, rep);
    if t.Record? {
      NoMatchAfter(t, rep);
    }
  }

  lemma NoMatchAfter(t: Tree, rep: Replacements)
    requires t.Record? && Settled(rep)
    ensures !Matches(Rewrite(t, rep), rep)
  {
    var i, j := IndexOf(t.keys, "model_id"), IndexOf(t.keys, "_type");
    if |t.keys| == |t.values| && i < |t.keys| {
      RewriteLocal(t, i, rep);
      if j < |t.keys| {
        RewriteLocal(t, j, rep);
        LeafBack(t.values[j], Text("llm_config"), rep);
      }
      if t.values[i].Leaf? {
        assert Rewrite(t.values[i], rep) == t.values[i];
      }
    }
  }

  lemma LeafBack(t: Tree, v: Json, rep: Replacements)
    ensures Rewrite(t, rep) == Leaf(v) <==> t == Leaf(v)
  {
  }

  // A second run changes nothing, whatever the configuration, exactly when the replacements are
  // settled.
  lemma SecondRunIdle(rep: Replacements)
    ensures (forall t :: !AnyMatch(Rewrite(t, rep), rep)) <==> Settled(rep)
  {
    if Settled(rep) {
      forall t ensures !AnyMatch(Rewrite(t, rep), rep) {
        RewrittenSettled(t, rep);
      }
    } else {
      var m :| m in rep && '/' !in m && Replaceable(rep[m], rep);
      var t := Record(["_type", "model_id"], [Leaf(Text("llm_config")), Leaf(Text(m))]);
      assert IndexOf(t.keys, "_type") == 0 && IndexOf(t.keys, "model_id") == 1;
      assert Matches(t, rep);
      RewriteLocal(t, 0, rep);
      RewriteLocal(t, 1, rep);
      assert Matches(Rewrite(t, rep), rep);
    }
  }

  // ----- decoded configurations -----
  //
  // Decoding makes a tree of dictionaries, shared by nobody.  They are numbered from the inside
  // out: a dictionary's number is above the numbers of those inside it.  `bound` is above them all.

  ghost function Reach(h: Heap, bound: nat, v: Json): set<Id>
    decreases bound, v
  {
    match v
    case Array(items) => ReachAll(h, bound, items)
    case Object(id) => if id in h && id < bound then {id} + ReachAll(h, id, h[id].values) else {}
    case _ => {}
  }

  ghost function ReachAll(h: Heap, bound: nat, vs: seq<Json>): (r: set<Id>)
    ensures forall i, id :: 0 <= i < |vs| && id in Reach(h, bound, vs[i]) ==> id in r
    ensures forall id :: id in r ==> exists i :: 0 <= i < |vs| && id in Reach(h, bound, vs[i])
    decreases bound, vs
  {
    set i, id | 0 <= i < |vs| && id in Reach(h, bound, vs[i]) :: id
  }

  ghost predicate Shaped(h: Heap, bound: nat, v: Json)
    decreases bound, v
  {
    match v
    case Array(items) => ShapedAll(h, bound, items)
    case Object(id) => id in h && id < bound && |h[id].keys| == |h[id].values| && ShapedAll(h, id, h[id].values)
    case _ => true
  }

  ghost predicate ShapedAll(h: Heap, bound: nat, vs: seq<Json>)
    decreases bound, vs
  {
    && (forall i :: 0 <= i < |vs| ==> Shaped(h, bound, vs[i]))
    && (forall i, j :: 0 <= i < j < |vs| ==> Reach(h, bound, vs[i]) !! Reach(h, bound, vs[j]))
  }

  // What a value says.
  ghost function Content(h: Heap, bound: nat, v: Json): Tree
    decreases bound, v
  {
    match v
    case Array(items) => Branch(ContentAll(h, bound, items))
    case Object(id) => if id in h && id < bound then Record(h[id].keys, ContentAll(h, id, h[id].values)) else Leaf(v)
    case _ => Leaf(v)
  }

  ghost function ContentAll(h: Heap, bound: nat, vs: seq<Json>): (r: seq<Tree>)
    ensures |r| == |vs| && forall i :: 0 <= i < |vs| ==> r[i] == Content(h, bound, vs[i])
    decreases bound, vs
  {
    seq(|vs|, i requires 0 <= i < |vs| => Content(h, bound, vs[i]))
  }

  ghost predicate Agree(h: Heap, h': Heap, ids: set<Id>) {
    forall id :: id in ids ==> id in h && id in h' && h[id] == h'[id]
  }

  lemma {:induction false} ReachBelow(h: Heap, bound: nat, v: Json)
    ensures forall id :: id in Reach(h, bound, v) ==> id < bound && id in h
    decreases bound, v
  {
    match v
    case Array(items) =>
      forall i | 0 <= i < |items| ensures forall id :: id in Reach(h, bound, items[i]) ==> id < bound && id in h {
        ReachBelow(h, bound, items[i]);
      }
    case Object(id) =>
      if id in h && id < bound {
        forall i | 0 <= i < |h[id].values| ensures forall x :: x in Reach(h, id, h[id].values[i]) ==> x < id && x in h {
          ReachBelow(h, id, h[id].values[i]);
        }
      }
    case _ =>
  }

  // A value depends only on the dictionaries it reaches.
  lemma {:induction false} AgreeSame(h: Heap, h': Heap, bound: nat, v: Json)
    requires Agree(h, h', Reach(h, bound, v)) && Shaped(h, bound, v)
    ensures Reach(h', bound, v) == Reach(h, bound, v) && Shaped(h', bound, v)
    ensures Content(h', bound, v) == Content(h, bound, v)
    decreases bound, v
  {
    match v
    case Array(items) => AgreeSameAll(h, h', bound, items);
    case Object(id) => AgreeSameAll(h, h', id, h[id].values);
    case _ =>
  }

  lemma {:induction false} AgreeSameAll(h: Heap, h': Heap, bound: nat, vs: seq<Json>)
    requires Agree(h, h', ReachAll(h, bound, vs)) && ShapedAll(h, bound, vs)
    ensures ReachAll(h', bound, vs) == ReachAll(h, bound, vs) && ShapedAll(h', bound, vs)
    ensures ContentAll(h', bound, vs) == ContentAll(h, bound, vs)
    decreases bound, vs
  {
    forall i | 0 <= i < |vs|
      ensures Reach(h', bound, vs[i]) == Reach(h, bound, vs[i]) && Shaped(h', bound, vs[i])
      ensures Content(h', bound, vs[i]) == Content(h, bound, vs[i])
    {
      AgreeSame(h, h', bound, vs[i]);
    }
  }

  // ----- the walk -----

  ghost predicate Outside(h: Heap, h': Heap, ids: set<Id>) {
    h.Keys == h'.Keys && forall id :: id in h && id !in ids ==> h'[id] == h[id]
  }

  // The value is where it was, and says what the rewrite makes of what it said.
  ghost predicate Done(h: Heap, h': Heap, bound: nat, v: Json, rep: Replacements) {
    && Shaped(h', bound, v) && Reach(h', bound, v) == Reach(h, bound, v)
    && Content(h', bound, v) == Rewrite(Content(h, bound, v), rep)
  }

  ghost predicate DoneAll(h: Heap, h': Heap, bound: nat, vs: seq<Json>, rep: Replacements) {
    && ShapedAll(h', bound, vs) && ReachAll(h', bound, vs) == ReachAll(h, bound, vs)
    && ContentAll(h', bound, vs) == RewriteAll(ContentAll(h, bound, vs), rep)
  }

  // The first i values are done, the others are still as they were.
  ghost predicate Progress(start: Heap, h: Heap, bound: nat, vs: seq<Json>, i: nat, rep: Replacements) {
    && Outside(start, h, ReachAll(start, bound, vs))
    && (forall k :: 0 <= k < i && k < |vs| ==> Done(start, h, bound, vs[k], rep))
    && (forall k :: i <= k < |vs| ==> Agree(start, h, Reach(start, bound, vs[k])))
  }

  lemma ProgressStart(h: Heap, bound: nat, vs: seq<Json>, rep: Replacements)
    ensures Progress(h, h, bound, vs, 0, rep)
  {
    forall k | 0 <= k < |vs| ensures Agree(h, h, Reach(h, bound, vs[k])) {
      ReachBelow(h, bound, vs[k]);
    }
  }

  lemma OutsideAgrees(h: Heap, h': Heap, ids: set<Id>, bound: nat, v: Json)
    requires Outside(h, h', ids) && Reach(h, bound, v) !! ids
    ensures Agree(h, h', Reach(h, bound, v))
  {
    ReachBelow(h, bound, v);
  }

  lemma ProgressStep(start: Heap, h: Heap, h': Heap, bound: nat, vs: seq<Json>, i: nat, rep: Replacements)
    requires ShapedAll(start, bound, vs) && i < |vs| && Progress(start, h, bound, vs, i, rep)
    requires Outside(h, h', Reach(h, bound, vs[i])) && Done(h, h', bound, vs[i], rep)
    ensures Progress(start, h', bound, vs, i + 1, rep)
  {
    hide Shaped, Reach, Content, Rewrite, Agree, Outside;
    AgreeSame(start, h, bound, vs[i]);
    var ids := Reach(start, bound, vs[i]);
    OutsideTrans(start, h, h', ReachAll(start, bound, vs), ids);
    forall k | 0 <= k < i ensures Done(start, h', bound, vs[k], rep) {
      StaysDone(start, h, h', bound, vs[k], ids, rep);
    }
    forall k | i < k < |vs| ensures Agree(start, h', Reach(start, bound, vs[k])) {
      StaysSame(start, h, h', bound, vs[k], ids);
    }
  }

  lemma OutsideTrans(start: Heap, h: Heap, h': Heap, all: set<Id>, ids: set<Id>)
    requires Outside(start, h, all) && Outside(h, h', ids) && ids <= all
    ensures Outside(start, h', all)
  {
  }

  lemma StaysDone(start: Heap, h: Heap, h': Heap, bound: nat, v: Json, ids: set<Id>, rep: Replacements)
    requires Done(start, h, bound, v, rep) && Outside(h, h', ids) && Reach(start, bound, v) !! ids
    ensures Done(start, h', bound, v, rep)
  {
    OutsideAgrees(h, h', ids, bound, v);
    AgreeSame(h, h', bound, v);
  }

  lemma StaysSame(start: Heap, h: Heap, h': Heap, bound: nat, v: Json, ids: set<Id>)
    requires Shaped(start, bound, v) && Agree(start, h, Reach(start, bound, v)) && Outside(h, h', ids) &&
      Reach(start, bound, v) !! ids
    ensures Agree(start, h', Reach(start, bound, v))
  {
    AgreeSame(start, h, bound, v);
    OutsideAgrees(h, h', ids, bound, v);
  }

  lemma ProgressEnd(start: Heap, h: Heap, bound: nat, vs: seq<Json>, rep: Replacements)
    requires ShapedAll(start, bound, vs) && Progress(start, h, bound, vs, |vs|, rep)
    ensures DoneAll(start, h, bound, vs, rep)
  {
    hide Shaped, Reach, Content, Rewrite;
    assert forall k :: 0 <= k < |vs| ==> Done(start, h, bound, vs[k], rep);
  }

  // Which value of a dictionary is a plain model id to replace: the test the code makes.
  predicate IsLlmConfig(o: Object, rep: Replacements)
    requires |o.keys| == |o.values|
  {
    var i, j := IndexOf(o.keys, "_type"), IndexOf(o.keys, "model_id");
    && i < |o.keys| && o.values[i] == Text("llm_config")
    && j < |o.keys| && o.values[j].Text? && Replaceable(o.values[j].s, rep)
  }

  function WithModel(o: Object, rep: Replacements): Object
    requires |o.keys| == |o.values|
  {
    if IsLlmConfig(o, rep) then
      var j := IndexOf(o.keys, "model_id");
      o.(values := o.values[j := Text(rep[o.values[j].s])])
    else o
  }

  lemma LlmConfigMatches(h: Heap, bound: nat, id: Id, rep: Replacements)
    requires Shaped(h, bound, Object(id))
    ensures IsLlmConfig(h[id], rep) <==> Matches(Content(h, bound, Object(id)), rep)
  {
  }

  ghost function ContentsSet(values: seq<Tree>, o: Object, rep: Replacements): seq<Tree>
    requires |o.keys| == |o.values| == |values|
  {
    if IsLlmConfig(o, rep) then
      var j := IndexOf(o.keys, "model_id");
      values[j := Leaf(Text(rep[o.values[j].s]))]
    else values
  }

  lemma ValueAfter(h: Heap, bound: nat, id: Id, rep: Replacements, i: nat)
    requires Shaped(h, bound, Object(id)) && i < |h[id].values|
    ensures id !in Reach(h, id, h[id].values[i])
    ensures var o', h' := WithModel(h[id], rep), h[id := WithModel(h[id], rep)];
            && Shaped(h', id, o'.values[i]) && Reach(h', id, o'.values[i]) == Reach(h, id, h[id].values[i])
            && Content(h', id, o'.values[i]) == ContentsSet(ContentAll(h, id, h[id].values), h[id], rep)[i]
  {
    var o := h[id];
    var h' := h[id := WithModel(o, rep)];
    ReachBelow(h, id, o.values[i]);
    AgreeSame(h, h', id, o.values[i]);
    hide Replaceable;
  }

  // Replacing the model id touches nothing the dictionary's values reach.
  lemma ModelReplaced(h: Heap, bound: nat, id: Id, rep: Replacements)
    requires Shaped(h, bound, Object(id))
    ensures id !in ReachAll(h, id, h[id].values)
    ensures var o', h' := WithModel(h[id], rep), h[id := WithModel(h[id], rep)];
            && ShapedAll(h', id, o'.values) && ReachAll(h', id, o'.values) == ReachAll(h, id, h[id].values)
            && ContentAll(h', id, o'.values) == ContentsSet(ContentAll(h, id, h[id].values), h[id], rep)
  {
    var o := h[id];
    var o', h' := WithModel(o, rep), h[id := WithModel(o, rep)];
    assert |o'.values| == |o.values| == |ContentsSet(ContentAll(h, id, o.values), o, rep)|;
    forall i | 0 <= i < |o.values|
      ensures id !in Reach(h, id, o.values[i])
      ensures Shaped(h', id, o'.values[i]) && Reach(h', id, o'.values[i]) == Reach(h, id, o.values[i])
      ensures Content(h', id, o'.values[i]) == ContentsSet(ContentAll(h, id, o.values), o, rep)[i]
    {
      ValueAfter(h, bound, id, rep, i);
    }
    hide IsLlmConfig, WithModel, ContentsSet, Reach, Content, Shaped;
    SameReach(h, h', id, o.values, o'.values);
  }

  lemma SameReach(h: Heap, h': Heap, bound: nat, vs: seq<Json>, vs': seq<Json>)
    requires |vs| == |vs'| && forall i :: 0 <= i < |vs| ==> Reach(h', bound, vs'[i]) == Reach(h, bound, vs[i])
    ensures ReachAll(h', bound, vs') == ReachAll(h, bound, vs)
  {
  }

  // A dictionary is done once its model id is replaced and its values are done.
  lemma RecordDone(h: Heap, h': Heap, bound: nat, id: Id, rep: Replacements)
    requires Shaped(h, bound, Object(id))
    requires var o', h1 := WithModel(h[id], rep), h[id := WithModel(h[id], rep)];
             Outside(h1, h', ReachAll(h1, id, o'.values)) && DoneAll(h1, h', id, o'.values, rep)
    ensures Outside(h, h', Reach(h, bound, Object(id))) && Done(h, h', bound, Object(id), rep)
  {
    hide WithModel, IsLlmConfig, ContentsSet, Matches, Rewrite, Replaceable, ShapedAll;
    var o', h1 := WithModel(h[id], rep), h[id := WithModel(h[id], rep)];
    ModelReplaced(h, bound, id, rep);
    KeysKept(h[id], rep);
    assert h'[id] == o';
    RecordSays(h, bound, id, rep);
    RewrittenSet(ContentAll(h, id, h[id].values), h[id], rep);
  }

  lemma KeysKept(o: Object, rep: Replacements)
    requires |o.keys| == |o.values|
    ensures WithModel(o, rep).keys == o.keys && |WithModel(o, rep).values| == |o.values|
  {
  }

  lemma RecordSays(h: Heap, bound: nat, id: Id, rep: Replacements)
    requires Shaped(h, bound, Object(id))
    ensures Rewrite(Content(h, bound, Object(id)), rep) ==
            Record(h[id].keys, ContentsSet(RewriteAll(ContentAll(h, id, h[id].values), rep), h[id], rep))
  {
    LlmConfigMatches(h, bound, id, rep);
  }

  lemma RewrittenSet(values: seq<Tree>, o: Object, rep: Replacements)
    requires |o.keys| == |o.values| == |values|
    ensures RewriteAll(ContentsSet(values, o, rep), rep) == ContentsSet(RewriteAll(values, rep), o, rep)
  {
    hide Replaceable;
  }

  // A replaced model id is no match and hides none.
  lemma SameMatches(values: seq<Tree>, o: Object, rep: Replacements)
    requires |o.keys| == |o.values| == |values|
    requires IsLlmConfig(o, rep) ==> values[IndexOf(o.keys, "model_id")].Leaf?
    ensures AnyIn(ContentsSet(values, o, rep), rep) <==> AnyIn(values, rep)
  {
    hide Replaceable;
    var values' := ContentsSet(values, o, rep);
    forall i | 0 <= i < |values| ensures AnyMatch(values'[i], rep) <==> AnyMatch(values[i], rep) {
    }
    assert AnyIn(values, rep) ==> exists i :: 0 <= i < |values'| && AnyMatch(values'[i], rep);
    assert AnyIn(values', rep) ==> exists i :: 0 <= i < |values| && AnyMatch(values[i], rep);
  }

  class Document {
    var dicts: Heap

    constructor (dicts: Heap)
      ensures this.dicts == dicts
    {
      this.dicts := dicts;
    }

    // walk_and_replace on the values of a list or a dictionary
    method WalkAll(ghost bound: nat, vs: seq<Json>, rep: Replacements, before: bool) returns (modified: bool)
      requires ShapedAll(dicts, bound, vs)
      modifies this
      ensures Outside(old(dicts), dicts, ReachAll(old(dicts), bound, vs))
      ensures DoneAll(old(dicts), dicts, bound, vs, rep)
      ensures modified <==> before || AnyIn(ContentAll(old(dicts), bound, vs), rep)
      decreases bound, vs
    {
      modified := before;
      ghost var start := dicts;
      ProgressStart(dicts, bound, vs, rep);
      for i := 0 to |vs|
        invariant Progress(start, dicts, bound, vs, i, rep)
        invariant modified <==> before || exists k :: 0 <= k < i && AnyMatch(Content(start, bound, vs[k]), rep)
      {
        ghost var here := dicts;
        AgreeSame(start, here, bound, vs[i]);
        var found := Walk(bound, vs[i], rep);
        ProgressStep(start, here, dicts, bound, vs, i, rep);
        modified := found || modified;
      }
      ProgressEnd(start, dicts, bound, vs, rep);
    }

    // walk_and_replace: what the value says is rewritten, nothing outside it changes, and the
    // answer is whether anything matched.
    method Walk(ghost bound: nat, v: Json, rep: Replacements) returns (modified: bool)
      requires Shaped(dicts, bound, v)
      modifies this
      ensures Outside(old(dicts), dicts, Reach(old(dicts), bound, v))
      ensures Done(old(dicts), dicts, bound, v, rep)
      ensures modified <==> AnyMatch(Content(old(dicts), bound, v), rep)
      decreases bound, v
    {
      modified := false;
      match v
      case Object(id) =>
        ghost var start := dicts;
        var o := dicts[id];
        ModelReplaced(dicts, bound, id, rep);
        LlmConfigMatches(dicts, bound, id, rep);
        SameMatches(ContentAll(dicts, id, o.values), o, rep);
        assert !IsLlmConfig(o, rep) ==> WithModel(o, rep) == o && dicts[id := o] == dicts;
        hide Matches, IsLlmConfig, WithModel, Reach, ShapedAll;
        if IsLlmConfig(o, rep) {
          dicts := dicts[id := WithModel(o, rep)];
          modified := true;
        }
        modified := WalkAll(id, dicts[id].values, rep, modified);
        RecordDone(start, dicts, bound, id, rep);
      case Array(items) =>
        modified := WalkAll(bound, items, rep, modified);
      case _ =>
    }
  }

  // ----- the migration -----

  // A row: its primary key and its decoded configuration, whose dictionaries are numbered below
  // `size`.
  datatype Row = Row(key: seq<string>, dicts: Heap, size: nat, config: Json)

  ghost predicate RowOk(r: Row) { Shaped(r.dicts, r.size, r.config) }

  ghost function Says(r: Row): Tree { Content(r.dicts, r.size, r.config) }

  ghost predicate TableOk(rows: seq<Row>) {
    && (forall i :: 0 <= i < |rows| ==> RowOk(rows[i]))
    && (forall i, j :: 0 <= i < j < |rows| ==> rows[i].key != rows[j].key)
  }

  // The rows with a match.
  ghost function Matching(rows: seq<Row>, rep: Replacements): nat {
    if rows == [] then 0
    else Matching(rows[..|rows| - 1], rep) + if AnyMatch(Says(rows[|rows| - 1]), rep) then 1 else 0
  }

  // Every configuration says what the rewrite makes of it, and rows without a match are untouched.
  ghost predicate Migrated(rows: seq<Row>, rows': seq<Row>, rep: Replacements) {
    && |rows'| == |rows|
    && forall i :: 0 <= i < |rows| ==> RowMigrated(rows[i], rows'[i], rep)
  }

  ghost predicate RowMigrated(r: Row, r': Row, rep: Replacements) {
    && RowOk(r') && r'.key == r.key && Says(r') == Rewrite(Says(r), rep)
    && (!AnyMatch(Says(r), rep) ==> r' == r)
  }

  // With settled replacements a second migration finds no row.
  lemma {:induction false} SecondMigrationIdle(rows: seq<Row>, rows': seq<Row>, rep: Replacements)
    requires Migrated(rows, rows', rep) && Settled(rep)
    ensures Matching(rows', rep) == 0
  {
    hide AnyMatch, Says, Settled, RowOk;
    if rows != [] {
      var n := |rows| - 1;
      assert RowMigrated(rows[n], rows'[n], rep);
      assert Migrated(rows[..n], rows'[..n], rep);
      SecondMigrationIdle(rows[..n], rows'[..n], rep);
      RewrittenSettled(Says(rows[n]), rep);
    }
  }

  class Table {
    var rows: seq<Row>

    // UPDATE ... WHERE the key columns are those of the row
    method Update(key: seq<string>, dicts: Heap)
      modifies this
      ensures |rows| == |old(rows)|
      ensures forall i :: 0 <= i < |rows| ==>
                rows[i] == if old(rows)[i].key == key then old(rows)[i].(dicts := dicts) else old(rows)[i]
    {
      var was := rows;
      rows := seq(|was|, i requires 0 <= i < |was| => if was[i].key == key then was[i].(dicts := dicts) else was[i]);
    }

    // The row loop.  `selected` is the query's test on the text of the configuration, which every
    // configuration with a match passes.
    method Migrate(rep: Replacements, selected: Row -> bool) returns (count: nat)
      requires TableOk(rows) && forall i :: 0 <= i < |rows| && AnyMatch(Says(rows[i]), rep) ==> selected(rows[i])
      modifies this
      ensures TableOk(rows) && Migrated(old(rows), rows, rep) && count == Matching(old(rows), rep)
    {
      var fetched := rows;
      count := 0;
      assert Matching(fetched[..0], rep) == 0;
      hide AnyMatch, Says, RowOk, RowMigrated, TableOk, Matching;
      for i := 0 to |fetched|
        invariant |rows| == |fetched|
        invariant forall k :: 0 <= k < |fetched| ==> rows[k].key == fetched[k].key
        invariant forall k :: 0 <= k < i ==> RowMigrated(fetched[k], rows[k], rep)
        invariant forall k :: i <= k < |fetched| ==> rows[k] == fetched[k]
        invariant count == Matching(fetched[..i], rep)
      {
        RowFetched(fetched, i, rep);
        var modified, dicts := RewriteRow(fetched[i], rep, selected);
        if !modified {
          continue;
        }
        Update(fetched[i].key, dicts);
        count := count + 1;
      }
      assert fetched[..|fetched|] == fetched;
      MigratedOk(fetched, rows, rep);
    }
  }

  lemma RowFetched(rows: seq<Row>, i: nat, rep: Replacements)
    requires TableOk(rows) && i < |rows|
    ensures RowOk(rows[i]) && forall k :: 0 <= k < |rows| && k != i ==> rows[k].key != rows[i].key
    ensures Matching(rows[..i + 1], rep) == Matching(rows[..i], rep) + if AnyMatch(Says(rows[i]), rep) then 1 else 0
  {
    assert rows[..i + 1][..i] == rows[..i];
  }

  lemma MigratedOk(rows: seq<Row>, rows': seq<Row>, rep: Replacements)
    requires TableOk(rows) && Migrated(rows, rows', rep)
    ensures TableOk(rows')
  {
    hide RowOk, Says, AnyMatch;
    assert forall i :: 0 <= i < |rows| ==> RowMigrated(rows[i], rows'[i], rep);
  }

  lemma Unmatched(r: Row, rep: Replacements)
    ensures RowOk(r) && !AnyMatch(Says(r), rep) ==> RowMigrated(r, r, rep)
    ensures r.config.Null? ==> !AnyMatch(Says(r), rep)
  {
    if !AnyMatch(Says(r), rep) {
      NoMatchUnchanged(Says(r), rep);
    }
  }

  // The configuration of one row, rewritten in memory.
  method RewriteRow(row: Row, rep: Replacements, selected: Row -> bool) returns (modified: bool, dicts: Heap)
    requires RowOk(row) && (AnyMatch(Says(row), rep) ==> selected(row))
    ensures modified <==> AnyMatch(Says(row), rep)
    ensures RowMigrated(row, if modified then row.(dicts := dicts) else row, rep)
  {
    Unmatched(row, rep);
    if !selected(row) || row.config.Null? {
      return false, row.dicts;
    }
    var document := new Document(row.dicts);
    modified := document.Walk(row.size, row.config, rep);
    return modified, document.dicts;
  }

  // migrate_llm_models: the agentic configurations, then the sources.
  method MigrateLlmModels(agentic: Table, sources: Table, rep: Replacements, selected: Row -> bool) returns (count: nat)
    requires agentic != sources && TableOk(agentic.rows) && TableOk(sources.rows)
    requires forall r :: (r in agentic.rows || r in sources.rows) && AnyMatch(Says(r), rep) ==> selected(r)
    modifies agentic, sources
    ensures Migrated(old(agentic.rows), agentic.rows, rep) && Migrated(old(sources.rows), sources.rows, rep)
    ensures count == Matching(old(agentic.rows), rep) + Matching(old(sources.rows), rep)
  {
    hide Matching, AnyMatch, Says, Migrated, TableOk;
    var first := agentic.Migrate(rep, selected);
    var second := sources.Migrate(rep, selected);
    count := first + second;
  }
}
