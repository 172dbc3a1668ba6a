// The edits the context strategies of ask/search/prompt.py make to the prompt context, and what
// any list of them keeps.
module PromptEdits {
  import opened Basics
  import opened OrderedDict
  import opened Ids
  import opened PromptContext

  datatype Edit =
    | Set(key: string, text: string)                     // context[key] = text
    | Add(key: string, text: string)                     // the same, only when the key is absent
    | AddWith(key: string, text: string, parsed: bool)   // the same, and what comes with it is parsed then
    | Clear(field: string)                               // delete the blocks of a field
    | Extend(key: string, suffix: string, strict: bool)  // pop the text and set it again, extended

  // A strict extension of a missing block is a KeyError; something malformed that comes with a new
  // block is a ValueError.
  function Step(es: Dict, e: Edit): Result<Dict, Error> {
    match e
    case Set(key, text) => Ok(Put(es, key, text))
    case Add(key, text) => Ok(if Has(es, key) then es else es + [Entry(key, text)])
    case AddWith(key, text, parsed) =>
      if Has(es, key) then Ok(es) else if parsed then Ok(es + [Entry(key, text)]) else Err(ValueError)
    case Clear(field) => Ok(Unclaimed(es, [field]))
    case Extend(key, suffix, strict) =>
      if Has(es, key) then Ok(Drop(es, key) + [Entry(key, Lookup(es, key) + suffix)])
      else if strict then Err(KeyError)
      else Ok(es)
  }

  function Apply(es: Dict, edits: seq<Edit>): Result<Dict, Error>
    decreases |edits|
  {
    if edits == [] then Ok(es)
    else
      var next := Step(es, edits[0]);
      if next.Err? then next else Apply(next.value, edits[1..])
  }

  lemma {:induction false} ApplyConcat(es: Dict, a: seq<Edit>, b: seq<Edit>)
    ensures Apply(es, a + b) == if Apply(es, a).Err? then Apply(es, a) else Apply(Apply(es, a).value, b)
    decreases |a|
  {
    if a == [] {
      assert a + b == b;
    } else {
      assert (a + b)[1..] == a[1..] + b && (a + b)[0] == a[0];
      var next := Step(es, a[0]);
      if next.Ok? {
        ApplyConcat(next.value, a[1..], b);
      }
    }
  }

  lemma ApplyNone(es: Dict)
    ensures Apply(es, []) == Ok(es)
  {
  }

  lemma ApplyOne(es: Dict, e: Edit)
    ensures Apply(es, [e]) == Step(es, e)
  {
    var next := Step(es, e);
    if next.Ok? {
      assert Apply(next.value, [e][1..]) == Ok(next.value);
    }
  }

  // ----- what edits keep -----

  predicate EditOk(e: Edit, codes: Codes) {
    if e.Clear? then '/' in e.field else Canonical(e.key, codes)
  }

  predicate EditsOk(edits: seq<Edit>, codes: Codes) {
    forall i :: 0 <= i < |edits| ==> EditOk(edits[i], codes)
  }

  // The user's blocks come first, under keys that are no ids; every other key is canonical.
  ghost predicate Shape(es: Dict, user: Dict, codes: Codes) {
    && Distinct(es)
    && user <= es
    && (forall i :: 0 <= i < |user| ==> '/' !in user[i].key)
    && (forall i :: |user| <= i < |es| ==> Canonical(es[i].key, codes))
  }

  // A key with a slash stands behind the user's blocks.
  lemma BehindUser(es: Dict, key: string, user: Dict)
    requires user <= es && (forall i :: 0 <= i < |user| ==> '/' !in user[i].key) && '/' in key && Has(es, key)
    ensures |user| <= At(es, key)
  {
    assert forall i :: 0 <= i < |user| ==> es[i] == user[i];
  }

  lemma SetShape(es: Dict, key: string, text: string, user: Dict, codes: Codes)
    requires Shape(es, user, codes) && Canonical(key, codes)
    ensures Shape(Put(es, key, text), user, codes)
    ensures !Has(es, key) ==> Put(es, key, text) == es + [Entry(key, text)]
  {
    hide Faithful;
    PutDistinct(es, key, text);
    if Has(es, key) {
      BehindUser(es, key, user);
    }
  }

  lemma DropShape(es: Dict, key: string, user: Dict, codes: Codes)
    requires Shape(es, user, codes) && Canonical(key, codes)
    ensures Shape(Drop(es, key), user, codes) && !Has(Drop(es, key), key)
  {
    assert '/' in key;
    DropDistinct(es, key);
    hide Canonical, Distinct;
    if Has(es, key) {
      BehindUser(es, key, user);
      RemoveBehind(es, At(es, key), user, codes);
    }
  }

  lemma RemoveBehind(es: Dict, n: nat, user: Dict, codes: Codes)
    requires user <= es && |user| <= n < |es| && forall i :: |user| <= i < |es| ==> Canonical(es[i].key, codes)
    ensures var es' := es[..n] + es[n + 1..];
            user <= es' && forall i :: |user| <= i < |es'| ==> Canonical(es'[i].key, codes)
  {
    hide Canonical;
    var es' := es[..n] + es[n + 1..];
    assert es'[..|user|] == es[..|user|];
    assert forall i :: |user| <= i < n ==> es'[i] == es[i];
    assert forall i :: n <= i < |es'| ==> es'[i] == es[i + 1];
  }

  lemma ClearKeepsUser(es: Dict, field: string, user: Dict)
    requires user <= es && '/' in field && forall i :: 0 <= i < |user| ==> '/' !in user[i].key
    ensures Unclaimed(es, [field]) == user + Unclaimed(es[|user|..], [field])
  {
    var rest := es[|user|..];
    assert es == user + rest;
    UnclaimedConcat(user, rest, [field]);
    forall i | 0 <= i < |user| ensures !Claimed(user[i].key, [field]) {
      assert '/' !in user[i].key;
    }
    UnclaimedNone(user, [field]);
  }

  lemma ClearShape(es: Dict, field: string, user: Dict, codes: Codes)
    requires Shape(es, user, codes) && '/' in field
    ensures Shape(Unclaimed(es, [field]), user, codes)
  {
    hide Canonical, Unclaimed, Distinct;
    var rest := es[|user|..];
    var kept := Unclaimed(rest, [field]);
    ClearKeepsUser(es, field, user);
    UnclaimedDistinct(es, [field]);
    UnclaimedMembers(rest, [field]);
    forall i | 0 <= i < |kept| ensures Canonical(kept[i].key, codes) {
      assert kept[i] in rest;
    }
  }

  lemma StepShape(es: Dict, e: Edit, user: Dict, codes: Codes)
    requires Shape(es, user, codes) && EditOk(e, codes) && Step(es, e).Ok?
    ensures Shape(Step(es, e).value, user, codes)
  {
    hide Faithful, Shape;
    match e
    case Set(key, text) => SetShape(es, key, text, user, codes);
    case Add(key, text) => SetShape(es, key, text, user, codes);
    case AddWith(key, text, parsed) => SetShape(es, key, text, user, codes);
    case Clear(field) => ClearShape(es, field, user, codes);
    case Extend(key, suffix, strict) =>
      if Has(es, key) {
        DropShape(es, key, user, codes);
        SetShape(Drop(es, key), key, Lookup(es, key) + suffix, user, codes);
      }
  }

  // No list of edits moves or changes the user's blocks.
  lemma {:induction false} ApplyShape(es: Dict, edits: seq<Edit>, user: Dict, codes: Codes)
    requires Shape(es, user, codes) && EditsOk(edits, codes) && Apply(es, edits).Ok?
    ensures Shape(Apply(es, edits).value, user, codes)
    decreases |edits|
  {
    hide Canonical, Shape;
    if edits != [] {
      StepShape(es, edits[0], user, codes);
      ApplyShape(Step(es, edits[0]).value, edits[1..], user, codes);
    }
  }

  predicate NeverFails(edits: seq<Edit>) { forall i :: 0 <= i < |edits| ==> !edits[i].Extend? && !edits[i].AddWith? }

  lemma {:induction false} ApplyPasses(es: Dict, edits: seq<Edit>)
    requires NeverFails(edits)
    ensures Apply(es, edits).Ok?
    decreases |edits|
  {
    if edits != [] {
      ApplyPasses(Step(es, edits[0]).value, edits[1..]);
    }
  }

  // ----- edits that only add -----

  predicate Adding(e: Edit) { e.Add? || e.AddWith? }

  predicate AddsOnly(edits: seq<Edit>) { forall i :: 0 <= i < |edits| ==> Adding(edits[i]) }

  predicate Names(edits: seq<Edit>, key: string) {
    exists i :: 0 <= i < |edits| && !edits[i].Clear? && edits[i].key == key
  }

  // Some edit of the list sets key to text.
  predicate Gives(edits: seq<Edit>, key: string, text: string) {
    exists i :: 0 <= i < |edits| && Sets(edits[i], key, text)
  }

  predicate Sets(e: Edit, key: string, text: string) {
    (e.Set? || e.Add? || e.AddWith?) && e.key == key && e.text == text
  }

  // From es to es' blocks are only added, behind the old ones: exactly those the edits name, each
  // with a text that one of them gives.
  ghost predicate Appends(es: Dict, es': Dict, edits: seq<Edit>) {
    && es <= es'
    && (forall key :: Has(es', key) <==> Has(es, key) || Names(edits, key))
    && (forall i :: |es| <= i < |es'| ==> Gives(edits, es'[i].key, es'[i].text))
  }

  lemma NamesCons(e: Edit, rest: seq<Edit>, key: string)
    requires Adding(e)
    ensures Names([e] + rest, key) <==> e.key == key || Names(rest, key)
  {
    if Names(rest, key) {
      var i :| 0 <= i < |rest| && !rest[i].Clear? && rest[i].key == key;
      assert ([e] + rest)[i + 1] == rest[i];
    }
    if e.key == key {
      assert ([e] + rest)[0] == e;
    }
  }

  lemma GivesCons(e: Edit, rest: seq<Edit>, key: string, text: string)
    ensures Gives([e] + rest, key, text) <==> Sets(e, key, text) || Gives(rest, key, text)
  {
    if Gives(rest, key, text) {
      var i :| 0 <= i < |rest| && Sets(rest[i], key, text);
      assert Sets(([e] + rest)[i + 1], key, text);
    }
    if Sets(e, key, text) {
      assert Sets(([e] + rest)[0], key, text);
    }
  }

  lemma HasSnoc(es: Dict, e: Entry, key: string)
    ensures Has(es + [e], key) <==> Has(es, key) || e.key == key
  {
    if Has(es, key) {
      var i :| 0 <= i < |es| && es[i].key == key;
      assert (es + [e])[i] == es[i];
    }
    assert (es + [e])[|es|] == e;
  }

  lemma AddStep(es: Dict, e: Edit)
    requires Adding(e) && Step(es, e).Ok?
    ensures var es' := Step(es, e).value;
      && es <= es' && (es' == es || es' == es + [Entry(e.key, e.text)])
      && forall key :: Has(es', key) <==> Has(es, key) || e.key == key
  {
    forall key ensures Has(Step(es, e).value, key) <==> Has(es, key) || e.key == key {
      HasSnoc(es, Entry(e.key, e.text), key);
    }
  }

  lemma {:induction false} AddsAppend(es: Dict, edits: seq<Edit>)
    requires AddsOnly(edits) && Apply(es, edits).Ok?
    ensures Appends(es, Apply(es, edits).value, edits)
    decreases |edits|
  {
    hide Has;
    if edits != [] {
      var e, rest := edits[0], edits[1..];
      var es1 := Step(es, e).value;
      AddStep(es, e);
      AddsAppend(es1, rest);
      assert edits == [e] + rest;
      var es' := Apply(es1, rest).value;
      hide Names, Gives, Step, Apply;
      forall key ensures Has(es', key) <==> Has(es, key) || Names(edits, key) {
        NamesCons(e, rest, key);
      }
      forall i | |es| <= i < |es'| ensures Gives(edits, es'[i].key, es'[i].text) {
        GivesCons(e, rest, es'[i].key, es'[i].text);
        assert i < |es1| ==> es'[i] == es1[i] == Entry(e.key, e.text);
      }
    }
  }

  // Adding fails exactly at a new key with something malformed.
  lemma {:induction false} AddsFail(es: Dict, edits: seq<Edit>)
    requires AddsOnly(edits)
    ensures Apply(es, edits).Err? ==> Apply(es, edits) == Err(ValueError)
    ensures (forall i :: 0 <= i < |edits| && edits[i].AddWith? ==> edits[i].parsed) ==> Apply(es, edits).Ok?
    decreases |edits|
  {
    if edits != [] {
      var next := Step(es, edits[0]);
      if next.Ok? {
        AddsFail(next.value, edits[1..]);
      }
    }
  }

  lemma NamesConcat(a: seq<Edit>, b: seq<Edit>, key: string)
    ensures Names(a + b, key) <==> Names(a, key) || Names(b, key)
  {
    if Names(a, key) {
      var i :| 0 <= i < |a| && !a[i].Clear? && a[i].key == key;
      assert (a + b)[i] == a[i];
    }
    if Names(b, key) {
      var i :| 0 <= i < |b| && !b[i].Clear? && b[i].key == key;
      assert (a + b)[|a| + i] == b[i];
    }
  }

  lemma GivesConcat(a: seq<Edit>, b: seq<Edit>, key: string, text: string)
    ensures Gives(a + b, key, text) <==> Gives(a, key, text) || Gives(b, key, text)
  {
    if Gives(a, key, text) {
      var i :| 0 <= i < |a| && Sets(a[i], key, text);
      assert Sets((a + b)[i], key, text);
    }
    if Gives(b, key, text) {
      var i :| 0 <= i < |b| && Sets(b[i], key, text);
      assert Sets((a + b)[|a| + i], key, text);
    }
  }

  lemma NoneNamed()
    ensures AddsOnly([]) && forall key :: !Names([], key)
    ensures forall key, text :: !Gives([], key, text)
  {
  }

  lemma OneNamed(e: Edit)
    requires Adding(e)
    ensures AddsOnly([e]) && forall key :: Names([e], key) <==> e.key == key
    ensures forall key, text :: Gives([e], key, text) <==> Sets(e, key, text)
  {
    assert [e][0] == e;
  }

  lemma ConcatNamed(a: seq<Edit>, b: seq<Edit>)
    ensures AddsOnly(a) && AddsOnly(b) ==> AddsOnly(a + b)
    ensures forall key :: Names(a + b, key) <==> Names(a, key) || Names(b, key)
    ensures forall key, text :: Gives(a + b, key, text) <==> Gives(a, key, text) || Gives(b, key, text)
  {
    forall key ensures Names(a + b, key) <==> Names(a, key) || Names(b, key) { NamesConcat(a, b, key); }
    forall key, text ensures Gives(a + b, key, text) <==> Gives(a, key, text) || Gives(b, key, text) {
      GivesConcat(a, b, key, text);
    }
  }

  // ----- edits that set -----

  // Sets under different keys.
  predicate SetsApart(edits: seq<Edit>) {
    && (forall i :: 0 <= i < |edits| ==> edits[i].Set?)
    && (forall i, j :: 0 <= i < j < |edits| && edits[i].Set? && edits[j].Set? ==> edits[i].key != edits[j].key)
  }

  // From es to es' exactly the named blocks have new texts; the old blocks keep their places.
  ghost predicate Overwrites(es: Dict, es': Dict, edits: seq<Edit>) {
    && Distinct(es') && KeysOf(es) <= KeysOf(es')
    && (forall key :: Has(es', key) <==> Has(es, key) || Names(edits, key))
    && (forall key, text :: Gives(edits, key, text) ==> Has(es', key) && Lookup(es', key) == text)
    && (forall key :: Has(es, key) && !Names(edits, key) ==> Has(es', key) && Lookup(es', key) == Lookup(es, key))
  }

  lemma PutKeys(es: Dict, key: string, text: string)
    ensures KeysOf(es) <= KeysOf(Put(es, key, text))
  {
  }

  lemma SetNamed(e: Edit, rest: seq<Edit>, key: string, text: string)
    requires e.Set?
    ensures Names([e] + rest, key) <==> e.key == key || Names(rest, key)
    ensures Gives([e] + rest, key, text) <==> Sets(e, key, text) || Gives(rest, key, text)
  {
    NamesConcat([e], rest, key);
    GivesConcat([e], rest, key, text);
    assert [e][0] == e;
  }

  lemma {:induction false} SetsOverwrite(es: Dict, edits: seq<Edit>)
    requires Distinct(es) && SetsApart(edits)
    ensures Apply(es, edits).Ok? && Overwrites(es, Apply(es, edits).value, edits)
    decreases |edits|
  {
    if edits != [] {
      var e, rest := edits[0], edits[1..];
      var es1 := Put(es, e.key, e.text);
      assert Step(es, e) == Ok(es1);
      PutDistinct(es, e.key, e.text);
      PutKeys(es, e.key, e.text);
      SetsOverwrite(es1, rest);
      NotAgain(e, rest, edits);
      OverwritesCons(es, es1, Apply(es1, rest).value, e, rest);
      assert edits == [e] + rest;
    } else {
      NoneNamed();
    }
  }

  lemma NotAgain(e: Edit, rest: seq<Edit>, edits: seq<Edit>)
    requires SetsApart(edits) && edits != [] && e == edits[0] && rest == edits[1..]
    ensures SetsApart(rest) && e.Set? && !Names(rest, e.key)
  {
    assert forall i :: 0 <= i < |rest| ==> rest[i] == edits[i + 1];
  }

  lemma OverwritesCons(es: Dict, es1: Dict, es': Dict, e: Edit, rest: seq<Edit>)
    requires Distinct(es) && e.Set? && es1 == Put(es, e.key, e.text) && !Names(rest, e.key)
    requires Overwrites(es1, es', rest) && KeysOf(es) <= KeysOf(es1)
    ensures Overwrites(es, es', [e] + rest)
  {
    hide Names, Gives, Put, Distinct, Has;
    forall key
      ensures Has(es', key) <==> Has(es, key) || Names([e] + rest, key)
      ensures Has(es, key) && !Names([e] + rest, key) ==> Has(es', key) && Lookup(es', key) == Lookup(es, key)
    {
      SetNamed(e, rest, key, "");
      PutThenGet(es, e.key, e.text, key);
    }
    forall key, text | Gives([e] + rest, key, text) ensures Has(es', key) && Lookup(es', key) == text {
      SetNamed(e, rest, key, text);
      PutThenGet(es, e.key, e.text, key);
    }
  }

  predicate SetsOnly(edits: seq<Edit>) { forall i :: 0 <= i < |edits| ==> edits[i].Set? }

  // Exactly the named blocks have new texts, each one that some edit gives; the old blocks keep
  // their places.
  ghost predicate SetsGiven(es: Dict, es': Dict, edits: seq<Edit>) {
    && Distinct(es') && KeysOf(es) <= KeysOf(es')
    && (forall key :: Has(es', key) <==> Has(es, key) || Names(edits, key))
    && (forall key :: Names(edits, key) ==> Has(es', key) && Gives(edits, key, Lookup(es', key)))
    && (forall key :: Has(es, key) && !Names(edits, key) ==> Has(es', key) && Lookup(es', key) == Lookup(es, key))
  }

  lemma {:induction false} SetsReach(es: Dict, edits: seq<Edit>)
    requires Distinct(es) && SetsOnly(edits)
    ensures Apply(es, edits).Ok? && SetsGiven(es, Apply(es, edits).value, edits)
    decreases |edits|
  {
    if edits != [] {
      var e, rest := edits[0], edits[1..];
      var es1 := Put(es, e.key, e.text);
      assert Step(es, e) == Ok(es1);
      PutDistinct(es, e.key, e.text);
      PutKeys(es, e.key, e.text);
      SetsReach(es1, rest);
      GivenCons(es, es1, Apply(es1, rest).value, e, rest);
      assert edits == [e] + rest;
    } else {
      NoneNamed();
    }
  }

  lemma GivenCons(es: Dict, es1: Dict, es': Dict, e: Edit, rest: seq<Edit>)
    requires Distinct(es) && e.Set? && es1 == Put(es, e.key, e.text)
    requires SetsGiven(es1, es', rest) && KeysOf(es) <= KeysOf(es1)
    ensures SetsGiven(es, es', [e] + rest)
  {
    hide Names, Gives, Put, Distinct, Has;
    forall key
      ensures Has(es', key) <==> Has(es, key) || Names([e] + rest, key)
      ensures Has(es, key) && !Names([e] + rest, key) ==> Has(es', key) && Lookup(es', key) == Lookup(es, key)
    {
      SetNamed(e, rest, key, "");
      PutThenGet(es, e.key, e.text, key);
    }
    forall key | Names([e] + rest, key) ensures Has(es', key) && Gives([e] + rest, key, Lookup(es', key)) {
      SetNamed(e, rest, key, "");
      PutThenGet(es, e.key, e.text, key);
      SetNamed(e, rest, key, Lookup(es', key));
    }
  }

  lemma OneSet(e: Edit)
    requires e.Set?
    ensures SetsOnly([e]) && forall key :: Names([e], key) <==> e.key == key
    ensures forall key, text :: Gives([e], key, text) <==> Sets(e, key, text)
  {
    assert [e][0] == e;
  }

  lemma SetsConcat(a: seq<Edit>, b: seq<Edit>)
    requires SetsOnly(a) && SetsOnly(b)
    ensures SetsOnly(a + b)
  {
  }
}
