// The strategies of ask/search/prompt.py that replace paragraphs by the whole text of a field:
// full resource and field extension.
module WholeFields {
  import opened Basics
  import opened OrderedDict
  import opened Ids
  import opened PromptContext
  import opened PromptEdits
  import opened PromptStrategies

  // ----- the texts of whole fields -----

  // Titles and summaries as fields; whether an empty one counts depends on the strategy.
  function TitleEdits(resources: seq<(string, AugmentedResource)>, blank: bool): (edits: seq<Edit>)
    ensures NeverFails(edits)
  {
    if resources == [] then [] else OneTitle(resources[0].0, resources[0].1, blank) + TitleEdits(resources[1..], blank)
  }

  predicate Counts(t: Option<string>, blank: bool) { t.Some? && (blank || t.value != "") }

  function OneTitle(rid: string, r: AugmentedResource, blank: bool): (edits: seq<Edit>)
    ensures NeverFails(edits)
  {
    (if Counts(r.title, blank) then [Set(rid + "/a/title", r.title.value)] else [])
    + (if Counts(r.summary, blank) then [Set(rid + "/a/summary", r.summary.value)] else [])
  }

  function FieldTextEdits(fields: seq<(string, AugmentedField)>): (edits: seq<Edit>)
    ensures NeverFails(edits)
  {
    if fields == [] then []
    else
      (if fields[0].1.text.Some? then [Set(fields[0].0, fields[0].1.text.value)] else [])
      + FieldTextEdits(fields[1..])
  }

  function ExtractEdits(a: Augmented, blank: bool): (edits: seq<Edit>)
    ensures NeverFails(edits)
  {
    TitleEdits(a.resources, blank) + FieldTextEdits(a.fields)
  }

  // extracted_texts
  function Extracted(a: Augmented, blank: bool): Dict {
    ApplyPasses([], ExtractEdits(a, blank));
    Apply([], ExtractEdits(a, blank)).value
  }

  lemma TitleCanonical(rid: string, key: string, codes: Codes)
    requires '/' !in rid && '/' !in key
    ensures Canonical(rid + "/a/" + key, codes)
  {
    var f := FieldId(rid, "a", key, None);
    assert f.Full() == rid + "/a/" + key;
    FieldCanonical(f, codes);
  }

  lemma {:induction false} TitleEditsOk(resources: seq<(string, AugmentedResource)>, blank: bool, codes: Codes)
    requires forall i :: 0 <= i < |resources| ==> '/' !in resources[i].0
    ensures EditsOk(TitleEdits(resources, blank), codes)
  {
    hide OneTitle, EditOk;
    if resources != [] {
      OneTitleOk(resources[0].0, resources[0].1, blank, codes);
      TitleEditsOk(resources[1..], blank, codes);
    }
  }

  lemma TitleKeys(rid: string)
    ensures rid + "/a/" + "title" == rid + "/a/title" && rid + "/a/" + "summary" == rid + "/a/summary"
  {
  }

  lemma OneTitleOk(rid: string, r: AugmentedResource, blank: bool, codes: Codes)
    requires '/' !in rid
    ensures EditsOk(OneTitle(rid, r, blank), codes)
  {
    hide Canonical;
    TitleKeys(rid);
    TitleCanonical(rid, "title", codes);
    TitleCanonical(rid, "summary", codes);
  }

  lemma {:induction false} FieldTextEditsOk(fields: seq<(string, AugmentedField)>, codes: Codes)
    requires forall i :: 0 <= i < |fields| ==> Canonical(fields[i].0, codes)
    ensures EditsOk(FieldTextEdits(fields), codes)
  {
    hide Canonical;
    if fields != [] {
      FieldTextEditsOk(fields[1..], codes);
    }
  }

  lemma ExtractedShape(a: Augmented, blank: bool, codes: Codes)
    requires AnswerOk(a, codes)
    ensures Shape(Extracted(a, blank), [], codes)
  {
    hide Canonical, TitleEdits, FieldTextEdits;
    TitleEditsOk(a.resources, blank, codes);
    FieldTextEditsOk(a.fields, codes);
    ApplyPasses([], ExtractEdits(a, blank));
    ApplyShape([], ExtractEdits(a, blank), [], codes);
  }

  method ExtractTitles(resources: seq<(string, AugmentedResource)>, blank: bool) returns (texts: Dict)
    ensures Apply([], TitleEdits(resources, blank)) == Ok(texts)
  {
    hide Put;
    texts := [];
    assert resources[0..] == resources;
    for i := 0 to |resources|
      invariant Apply(texts, TitleEdits(resources[i..], blank)) == Apply([], TitleEdits(resources, blank))
    {
      assert resources[i..][1..] == resources[i + 1..];
      var rid, resource := resources[i].0, resources[i].1;
      ApplyConcat(texts, OneTitle(rid, resource, blank), TitleEdits(resources[i + 1..], blank));
      ApplyTitle(texts, rid, resource, blank);
      if Counts(resource.title, blank) {
        texts := Put(texts, rid + "/a/title", resource.title.value);
      }
      if Counts(resource.summary, blank) {
        texts := Put(texts, rid + "/a/summary", resource.summary.value);
      }
    }
    ApplyNone(texts);
  }

  lemma ApplyTitle(es: Dict, rid: string, r: AugmentedResource, blank: bool)
    ensures var titled := if Counts(r.title, blank) then Put(es, rid + "/a/title", r.title.value) else es;
            Apply(es, OneTitle(rid, r, blank)) ==
            Ok(if Counts(r.summary, blank) then Put(titled, rid + "/a/summary", r.summary.value) else titled)
  {
    hide Put;
    var titled := if Counts(r.title, blank) then Put(es, rid + "/a/title", r.title.value) else es;
    var first := if Counts(r.title, blank) then [Set(rid + "/a/title", r.title.value)] else [];
    var second := if Counts(r.summary, blank) then [Set(rid + "/a/summary", r.summary.value)] else [];
    ApplyConcat(es, first, second);
    ApplyNone(es);
    ApplyNone(titled);
    if Counts(r.title, blank) { ApplyOne(es, first[0]); }
    if Counts(r.summary, blank) { ApplyOne(titled, second[0]); }
  }

  // The extracted_texts loops of both strategies.
  method Extract(a: Augmented, blank: bool) returns (texts: Dict)
    ensures texts == Extracted(a, blank)
  {
    hide Put, Step, TitleEdits;
    texts := ExtractTitles(a.resources, blank);
    ApplyConcat([], TitleEdits(a.resources, blank), FieldTextEdits(a.fields));
    ghost var before := texts;
    assert a.fields[0..] == a.fields;
    for i := 0 to |a.fields|
      invariant Apply(texts, FieldTextEdits(a.fields[i..])) == Apply(before, FieldTextEdits(a.fields))
    {
      assert a.fields[i..][1..] == a.fields[i + 1..];
      var fid, text := a.fields[i].0, a.fields[i].1.text;
      if text.Some? {
        ApplyConcat(texts, [Set(fid, text.value)], FieldTextEdits(a.fields[i + 1..]));
        ApplyOne(texts, Set(fid, text.value));
        SetPuts(texts, fid, text.value);
        texts := Put(texts, fid, text.value);
      } else {
        assert [] + FieldTextEdits(a.fields[i + 1..]) == FieldTextEdits(a.fields[i + 1..]);
      }
    }
    ApplyNone(texts);
  }

  lemma SetPuts(es: Dict, key: string, text: string)
    ensures Step(es, Set(key, text)) == Ok(Put(es, key, text))
  {
  }

  // What is extracted under a key: a title, a summary or the text of a field; with `blank`, empty
  // titles and summaries too.
  ghost predicate Says(key: string, text: string, a: Augmented, blank: bool) {
    || (exists i :: 0 <= i < |a.resources| && Titles(key, text, a.resources[i].0, a.resources[i].1, blank))
    || (exists i :: 0 <= i < |a.fields| && a.fields[i].0 == key && a.fields[i].1.text == Some(text))
  }

  ghost predicate Titles(key: string, text: string, rid: string, r: AugmentedResource, blank: bool) {
    && (blank || text != "")
    && ((key == rid + "/a/title" && r.title == Some(text)) || (key == rid + "/a/summary" && r.summary == Some(text)))
  }

  lemma OneTitleNames(rid: string, r: AugmentedResource, blank: bool)
    ensures SetsOnly(OneTitle(rid, r, blank))
    ensures forall key :: Names(OneTitle(rid, r, blank), key) <==>
      exists text :: Gives(OneTitle(rid, r, blank), key, text)
    ensures forall key, text :: Gives(OneTitle(rid, r, blank), key, text) <==> Titles(key, text, rid, r, blank)
  {
    var first := if Counts(r.title, blank) then [Set(rid + "/a/title", r.title.value)] else [];
    var second := if Counts(r.summary, blank) then [Set(rid + "/a/summary", r.summary.value)] else [];
    OptionalSet(first);
    OptionalSet(second);
    ConcatNamed(first, second);
    SetsConcat(first, second);
    BothGiven(first, second);
    hide Names, Gives, SetsOnly;
  }

  lemma OptionalSet(edits: seq<Edit>)
    requires |edits| <= 1 && SetsOnly(edits)
    ensures forall key :: Names(edits, key) <==> exists text :: Gives(edits, key, text)
    ensures forall key, text :: Gives(edits, key, text) <==>
      |edits| == 1 && edits[0].key == key && edits[0].text == text
  {
    NoneNamed();
    if edits != [] {
      OneSet(edits[0]);
      assert edits == [edits[0]];
      hide Names, Gives;
      assert Gives(edits, edits[0].key, edits[0].text);
    }
  }

  lemma {:induction false} TitleNames(resources: seq<(string, AugmentedResource)>, blank: bool)
    ensures var edits := TitleEdits(resources, blank);
      && SetsOnly(edits) && (forall key :: Names(edits, key) <==> exists text :: Gives(edits, key, text))
      && forall key, text :: Gives(edits, key, text) <==>
        exists i :: 0 <= i < |resources| && Titles(key, text, resources[i].0, resources[i].1, blank)
  {
    hide Names, Gives, SetsOnly, OneTitle, Titles;
    NoneNamed();
    NoSets();
    if resources != [] {
      var own, rest := OneTitle(resources[0].0, resources[0].1, blank), TitleEdits(resources[1..], blank);
      OneTitleNames(resources[0].0, resources[0].1, blank);
      TitleNames(resources[1..], blank);
      ConcatNamed(own, rest);
      SetsConcat(own, rest);
      BothGiven(own, rest);
      assert forall i :: 0 < i < |resources| ==> resources[1..][i - 1] == resources[i];
      forall key, text
        ensures Gives(own + rest, key, text) <==>
          exists i :: 0 <= i < |resources| && Titles(key, text, resources[i].0, resources[i].1, blank)
      {
        if i :| 0 <= i < |resources[1..]| && Titles(key, text, resources[1..][i].0, resources[1..][i].1, blank) {
          assert resources[i + 1] == resources[1..][i];
        }
      }
    }
  }

  lemma {:induction false} FieldTextNames(fields: seq<(string, AugmentedField)>)
    ensures var edits := FieldTextEdits(fields);
      && SetsOnly(edits) && (forall key :: Names(edits, key) <==> exists text :: Gives(edits, key, text))
      && forall key, text :: Gives(edits, key, text) <==>
        exists i :: 0 <= i < |fields| && fields[i].0 == key && fields[i].1.text == Some(text)
  {
    hide Names, Gives, SetsOnly;
    NoneNamed();
    NoSets();
    if fields != [] {
      var own := if fields[0].1.text.Some? then [Set(fields[0].0, fields[0].1.text.value)] else [];
      var rest := FieldTextEdits(fields[1..]);
      if own != [] {
        OneSet(own[0]);
        assert own == [own[0]];
      }
      OptionalSet(own);
      FieldTextNames(fields[1..]);
      ConcatNamed(own, rest);
      SetsConcat(own, rest);
      BothGiven(own, rest);
      assert forall i :: 0 < i < |fields| ==> fields[1..][i - 1] == fields[i];
      forall key, text
        ensures Gives(own + rest, key, text) <==>
          exists i :: 0 <= i < |fields| && fields[i].0 == key && fields[i].1.text == Some(text)
      {
        if i :| 0 <= i < |fields[1..]| && fields[1..][i].0 == key && fields[1..][i].1.text == Some(text) {
          assert fields[i + 1] == fields[1..][i];
        }
      }
    }
  }

  // Exactly what was answered is extracted, each key with a text answered for it.
  lemma ExtractedExact(a: Augmented, blank: bool)
    ensures var es := Extracted(a, blank);
      && Distinct(es) && (forall key :: Has(es, key) <==> exists text :: Says(key, text, a, blank))
      && (forall key :: Has(es, key) ==> Says(key, Lookup(es, key), a, blank))
  {
    var first, rest := TitleEdits(a.resources, blank), FieldTextEdits(a.fields);
    TitleNames(a.resources, blank);
    FieldTextNames(a.fields);
    hide Names, Gives, SetsOnly, Titles, TitleEdits, FieldTextEdits;
    ConcatNamed(first, rest);
    SetsConcat(first, rest);
    BothGiven(first, rest);
    SetsReach([], first + rest);
    forall key, text ensures Gives(first + rest, key, text) <==> Says(key, text, a, blank) {}
    hide Says, Apply;
  }

  // ----- replacing the blocks of a field by its text -----

  function ReplaceEdits(texts: Dict): (edits: seq<Edit>)
    ensures NeverFails(edits)
  {
    if texts == [] then [] else [Clear(texts[0].key), Set(texts[0].key, texts[0].text)] + ReplaceEdits(texts[1..])
  }

  lemma {:induction false} ReplaceEditsOk(texts: Dict, codes: Codes)
    requires forall i :: 0 <= i < |texts| ==> Canonical(texts[i].key, codes)
    ensures EditsOk(ReplaceEdits(texts), codes)
  {
    hide Faithful;
    if texts != [] {
      ReplaceEditsOk(texts[1..], codes);
    }
  }

  // The blocks of the field go, and its text comes last.
  function Replaced(es: Dict, e: Entry): Dict { Unclaimed(es, [e.key]) + [e] }

  lemma ApplyReplace(es: Dict, e: Entry)
    ensures !Has(Unclaimed(es, [e.key]), e.key)
    ensures Apply(es, [Clear(e.key), Set(e.key, e.text)]) == Ok(Replaced(es, e))
  {
    var cleared := Unclaimed(es, [e.key]);
    UnclaimedMembers(es, [e.key]);
    forall i | 0 <= i < |cleared| ensures cleared[i].key != e.key {
      assert cleared[i] in cleared;
      assert [e.key][0] <= e.key;
    }
    hide Unclaimed;
    ApplyConcat(es, [Clear(e.key)], [Set(e.key, e.text)]);
    assert [Clear(e.key)] + [Set(e.key, e.text)] == [Clear(e.key), Set(e.key, e.text)];
    ApplyOne(es, Clear(e.key));
    ApplyOne(cleared, Set(e.key, e.text));
  }

  // The fields that no later field's id is a prefix of.
  function Surviving(texts: Dict): Dict {
    if texts == [] then []
    else (if Claimed(texts[0].key, KeysOf(texts[1..])) then [] else [texts[0]]) + Surviving(texts[1..])
  }

  // What full_resource leaves: the old blocks that start with no added field id, in their old
  // order, then the added fields with their whole text, in the order of the answer, without those
  // whose id starts with a later field's id.
  lemma {:induction false} FullResourceExact(es: Dict, texts: Dict)
    ensures Apply(es, ReplaceEdits(texts)) == Ok(Unclaimed(es, KeysOf(texts)) + Surviving(texts))
    decreases |texts|
  {
    if texts == [] {
      NothingClaimed(es);
      assert KeysOf(texts) == [] && es + [] == es;
    } else {
      var e, rest := texts[0], texts[1..];
      FullResourceExact(Replaced(es, e), rest);
      ReplaceFirst(es, e, rest);
      SurviveFirst(es, e, rest);
      assert [e] + rest == texts;
    }
  }

  lemma ReplaceFirst(es: Dict, e: Entry, rest: Dict)
    ensures Apply(es, ReplaceEdits([e] + rest)) == Apply(Replaced(es, e), ReplaceEdits(rest))
  {
    assert ([e] + rest)[1..] == rest;
    ApplyReplace(es, e);
    ApplyConcat(es, [Clear(e.key), Set(e.key, e.text)], ReplaceEdits(rest));
  }

  lemma SurviveFirst(es: Dict, e: Entry, rest: Dict)
    ensures Unclaimed(Replaced(es, e), KeysOf(rest)) + Surviving(rest) ==
      Unclaimed(es, KeysOf([e] + rest)) + Surviving([e] + rest)
  {
    hide *;
    var own := if Claimed(e.key, KeysOf(rest)) then [] else [e];
    SurvivingCons(e, rest);
    ReplacedUnclaimed(es, e, KeysOf(rest));
    var kept, survivors := Unclaimed(es, [e.key] + KeysOf(rest)), Surviving(rest);
    assert (kept + own) + survivors == kept + (own + survivors);
  }

  lemma SurvivingCons(e: Entry, rest: Dict)
    ensures KeysOf([e] + rest) == [e.key] + KeysOf(rest)
    ensures Surviving([e] + rest) == (if Claimed(e.key, KeysOf(rest)) then [] else [e]) + Surviving(rest)
  {
    hide Claimed;
    assert ([e] + rest)[1..] == rest;
  }

  lemma NothingClaimed(es: Dict)
    ensures Unclaimed(es, []) == es
  {
    UnclaimedNone(es, []);
  }

  lemma ReplacedUnclaimed(es: Dict, e: Entry, later: seq<string>)
    ensures Unclaimed(Replaced(es, e), later) ==
            Unclaimed(es, [e.key] + later) + if Claimed(e.key, later) then [] else [e]
  {
    UnclaimedConcat(Unclaimed(es, [e.key]), [e], later);
    UnclaimedTwice(es, [e.key], later);
    assert Unclaimed([e], later) == (if Claimed(e.key, later) then [] else [e]) + Unclaimed([e][1..], later);
  }

  ghost predicate PrefixFree(texts: Dict) {
    forall i, j :: 0 <= i < j < |texts| ==> !(texts[j].key <= texts[i].key)
  }

  // Every field survives with its whole text exactly when the ids are prefix-free in this sense.
  lemma {:induction false} PrefixFreeSurvives(texts: Dict)
    ensures |Surviving(texts)| <= |texts|
    ensures Surviving(texts) == texts <==> PrefixFree(texts)
  {
    if texts != [] {
      var e, rest := texts[0], texts[1..];
      PrefixFreeSurvives(rest);
      PrefixFreeHead(texts);
      assert Surviving(texts) == (if Claimed(e.key, KeysOf(rest)) then [] else [e]) + Surviving(rest);
      hide Surviving, PrefixFree, Claimed;
      assert texts == [e] + rest;
      assert [e] + Surviving(rest) == texts <==> Surviving(rest) == rest by {
        assert ([e] + Surviving(rest))[1..] == Surviving(rest);
      }
    }
  }

  lemma PrefixFreeHead(texts: Dict)
    requires texts != []
    ensures PrefixFree(texts) <==> !Claimed(texts[0].key, KeysOf(texts[1..])) && PrefixFree(texts[1..])
  {
    var rest := texts[1..];
    assert forall j :: 0 <= j < |rest| ==> rest[j] == texts[j + 1] && KeysOf(rest)[j] == texts[j + 1].key;
    if !Claimed(texts[0].key, KeysOf(rest)) && PrefixFree(rest) {
      forall i, j | 0 <= i < j < |texts| ensures !(texts[j].key <= texts[i].key) {
        assert texts[j] == rest[j - 1] && KeysOf(rest)[j - 1] == texts[j].key;
        assert i > 0 ==> texts[i] == rest[i - 1];
      }
    }
  }

  // The plain case: with prefix-free ids the old blocks of other fields come first, in their old
  // order, followed by every added field with its whole text.
  lemma FullResourcePrefixFree(es: Dict, texts: Dict)
    requires PrefixFree(texts)
    ensures Apply(es, ReplaceEdits(texts)) == Ok(Unclaimed(es, KeysOf(texts)) + texts)
  {
    FullResourceExact(es, texts);
    PrefixFreeSurvives(texts);
  }

  // ----- which resources are expanded -----

  // The request's apply_to.exclude labels and the alias table that translates them.
  datatype Exclusion = Exclusion(labels: seq<string>, translate: string -> string)

  predicate Excluded(p: Paragraph, exclude: Exclusion) {
    exists i :: 0 <= i < |exclude.labels| && exclude.translate(exclude.labels[i]) in p.labels
  }

  function RidOf(p: Paragraph, codes: Codes): string
    requires ParagraphIdOk(p.id, codes)
  {
    Pid(p, codes).field.rid
  }

  // The resources with an unexcluded paragraph, each once, in order of relevance.
  function Picks(ps: seq<Paragraph>, exclude: Exclusion, codes: Codes): seq<string>
    requires AllRetrieved(ps, codes)
  {
    if ps == [] then []
    else
      var before, p := Picks(ps[..|ps| - 1], exclude, codes), ps[|ps| - 1];
      if RidOf(p, codes) in before || Excluded(p, exclude) then before else before + [RidOf(p, codes)]
  }

  // The paragraph has none of the labels that exclude it.
  ghost predicate Allowed(p: Paragraph, exclude: Exclusion) {
    forall l :: l in exclude.labels ==> exclude.translate(l) !in p.labels
  }

  lemma AllowedExact(p: Paragraph, exclude: Exclusion)
    ensures Allowed(p, exclude) <==> !Excluded(p, exclude)
  {
    if l :| l in exclude.labels && exclude.translate(l) in p.labels {
      var i :| 0 <= i < |exclude.labels| && exclude.labels[i] == l;
    }
  }

  // The resource of a paragraph is what stands before the first slash of its id.
  lemma RidFront(p: Paragraph, codes: Codes)
    requires ParagraphIdOk(p.id, codes)
    ensures '/' !in RidOf(p, codes) && RidOf(p, codes) + "/" <= p.id
  {
    hide ParseParagraph;
    var pid := Pid(p, codes);
    assert pid.Full() == pid.field.rid + ("/" + pid.Full()[|pid.field.rid| + 1..]);
  }

  // A resource is picked exactly when it has an unexcluded paragraph, and only once.
  lemma {:induction false} PicksExact(ps: seq<Paragraph>, exclude: Exclusion, codes: Codes)
    requires AllRetrieved(ps, codes)
    ensures forall rid :: rid in Picks(ps, exclude, codes) <==>
              exists i :: 0 <= i < |ps| && Allowed(ps[i], exclude) && RidOf(ps[i], codes) == rid
    ensures forall i, j :: 0 <= i < j < |Picks(ps, exclude, codes)| ==>
      Picks(ps, exclude, codes)[i] != Picks(ps, exclude, codes)[j]
  {
    hide RidOf, Excluded, ParagraphIdOk, Allowed;
    if ps != [] {
      var front := ps[..|ps| - 1];
      PicksExact(front, exclude, codes);
      AllowedExact(ps[|ps| - 1], exclude);
      forall rid | rid in Picks(front, exclude, codes)
        ensures exists i :: 0 <= i < |ps| && Allowed(ps[i], exclude) && RidOf(ps[i], codes) == rid
      {
        var i :| 0 <= i < |front| && Allowed(front[i], exclude) && RidOf(front[i], codes) == rid;
        assert ps[i] == front[i];
      }
      forall i | 0 <= i < |front| && Allowed(front[i], exclude)
        ensures ps[i] == front[i] && RidOf(ps[i], codes) in Picks(front, exclude, codes)
      {
      }
    }
  }

  // Looking at more paragraphs only adds picks behind those already made.
  lemma {:induction false} PicksGrow(ps: seq<Paragraph>, n: nat, exclude: Exclusion, codes: Codes)
    requires AllRetrieved(ps, codes) && n <= |ps|
    ensures Picks(ps[..n], exclude, codes) <= Picks(ps, exclude, codes)
  {
    hide RidOf, Excluded, ParagraphIdOk;
    if n == |ps| {
      assert ps[..n] == ps;
    } else {
      assert ps[..|ps| - 1][..n] == ps[..n];
      PicksGrow(ps[..|ps| - 1], n, exclude, codes);
    }
  }

  lemma PicksStep(ps: seq<Paragraph>, i: nat, exclude: Exclusion, codes: Codes)
    requires AllRetrieved(ps, codes)
    ensures AllRetrieved(ps[..0], codes) && Picks(ps[..0], exclude, codes) == []
    ensures i < |ps| ==>
              && AllRetrieved(ps[..i], codes) && AllRetrieved(ps[..i + 1], codes) && ParagraphIdOk(ps[i].id, codes)
              && var before, p := Picks(ps[..i], exclude, codes), ps[i];
              Picks(ps[..i + 1], exclude, codes) ==
              if RidOf(p, codes) in before || Excluded(p, exclude) then before else before + [RidOf(p, codes)]
  {
    hide RidOf, Excluded, ParagraphIdOk;
    if i < |ps| {
      assert ps[..i + 1][..i] == ps[..i];
    }
  }

  function Head<T>(xs: seq<T>, count: Option<nat>): seq<T> {
    if count.None? || |xs| <= count.value then xs else xs[..count.value]
  }

  lemma HeadExact<T>(xs: seq<T>, count: Option<nat>)
    ensures Head(xs, count) <= xs
    ensures |Head(xs, count)| == if count.Some? && count.value < |xs| then count.value else |xs|
  {
  }

  lemma HeadOfPrefix<T>(xs: seq<T>, ys: seq<T>, n: Option<nat>, whole: bool)
    requires xs <= ys && if whole then xs == ys else n.Some? && |xs| > n.value
    ensures Head(xs, n) == Head(ys, n)
  {
  }

  // The resources full_resource asks for: the loop may stop early, and still they are the first
  // `count` of all the picks.
  method SelectResources(ps: seq<Paragraph>, rid: Option<string>, exclude: Exclusion, count: Option<nat>, codes: Codes)
    returns (resources: seq<string>)
    requires AllRetrieved(ps, codes)
    ensures resources == Head(if rid.Some? then [rid.value] else Picks(ps, exclude, codes), count)
    ensures var all := if rid.Some? then [rid.value] else Picks(ps, exclude, codes);
      resources <= all && |resources| == if count.Some? && count.value < |all| then count.value else |all|
  {
    hide *;
    HeadExact(if rid.Some? then [rid.value] else Picks(ps, exclude, codes), count);
    if rid.Some? {
      return Head([rid.value], count);
    }
    var ordered := [];
    var i := 0;
    PicksStep(ps, 0, exclude, codes);
    while i < |ps| && (count.None? || |ordered| <= count.value)
      invariant 0 <= i <= |ps|
      invariant AllRetrieved(ps[..i], codes)
      invariant ordered == Picks(ps[..i], exclude, codes)
    {
      PicksStep(ps, i, exclude, codes);
      var r := RidOf(ps[i], codes);
      if r !in ordered && !Excluded(ps[i], exclude) {
        ordered := ordered + [r];
      }
      i := i + 1;
    }
    PicksGrow(ps, i, exclude, codes);
    assert i == |ps| ==> ps[..i] == ps;
    HeadOfPrefix(ordered, Picks(ps, exclude, codes), count, i == |ps|);
    return Head(ordered, count);
  }

  // ----- full_resource_prompt_context -----

  // The retrieved paragraphs of fields that were not added.
  function OneRemaining(p: Paragraph, added: seq<string>, codes: Codes): (edits: seq<Edit>)
    requires ParagraphIdOk(p.id, codes)
    ensures NeverFails(edits) && |edits| <= 1
  {
    if Pid(p, codes).field.Full() in added then [] else [Set(p.id, Clean(p.text))]
  }

  function RemainingEdits(ps: seq<Paragraph>, added: seq<string>, codes: Codes): (edits: seq<Edit>)
    requires AllRetrieved(ps, codes)
    ensures NeverFails(edits)
  {
    if ps == [] then [] else OneRemaining(ps[0], added, codes) + RemainingEdits(ps[1..], added, codes)
  }

  function FullResourceEdits(texts: Dict, ps: seq<Paragraph>, remaining: bool, codes: Codes): (edits: seq<Edit>)
    requires AllRetrieved(ps, codes)
    ensures NeverFails(edits)
  {
    ReplaceEdits(texts) + if remaining then RemainingEdits(ps, KeysOf(texts), codes) else []
  }

  lemma {:induction false} RemainingEditsOk(ps: seq<Paragraph>, added: seq<string>, codes: Codes)
    requires AllRetrieved(ps, codes)
    ensures EditsOk(RemainingEdits(ps, added, codes), codes)
  {
    hide Clean, Canonical, ParagraphIdOk, Pid;
    if ps != [] {
      RetrievedCanonical(ps[0].id, codes);
      RemainingEditsOk(ps[1..], added, codes);
    }
  }

  // A retrieved paragraph of a field that was not added.
  ghost predicate Remains(key: string, text: string, ps: seq<Paragraph>, added: seq<string>, codes: Codes)
    requires AllRetrieved(ps, codes)
  {
    exists i :: 0 <= i < |ps| && ps[i].id == key && Clean(ps[i].text) == text &&
      ParseParagraph(ps[i].id, codes).value.field.Full() !in added
  }

  lemma {:induction false} RemainingNames(ps: seq<Paragraph>, added: seq<string>, codes: Codes)
    requires AllRetrieved(ps, codes)
    ensures var edits := RemainingEdits(ps, added, codes);
      && SetsOnly(edits) && (forall key :: Names(edits, key) <==> exists text :: Gives(edits, key, text))
      && forall key, text :: Gives(edits, key, text) <==> Remains(key, text, ps, added, codes)
  {
    hide Names, Gives, SetsOnly, Clean;
    NoneNamed();
    NoSets();
    if ps != [] {
      var own, rest := OneRemaining(ps[0], added, codes), RemainingEdits(ps[1..], added, codes);
      if own != [] {
        OneSet(own[0]);
        assert own == [own[0]];
      }
      OptionalSet(own);
      RemainingNames(ps[1..], added, codes);
      hide ParseParagraph;
      ConcatNamed(own, rest);
      SetsConcat(own, rest);
      BothGiven(own, rest);
      forall key, text ensures Gives(own + rest, key, text) <==> Remains(key, text, ps, added, codes) {
        RemainsCons(ps, key, text, added, codes);
      }
    }
  }

  lemma RemainsCons(ps: seq<Paragraph>, key: string, text: string, added: seq<string>, codes: Codes)
    requires AllRetrieved(ps, codes) && ps != []
    ensures Remains(key, text, ps, added, codes) <==>
      (OneRemaining(ps[0], added, codes) == [Set(key, text)]) || Remains(key, text, ps[1..], added, codes)
  {
    hide Clean, ParseParagraph;
    assert forall i :: 0 < i < |ps| ==> ps[1..][i - 1] == ps[i];
    if Remains(key, text, ps[1..], added, codes) {
      var i :| 0 <= i < |ps[1..]| && ps[1..][i].id == key && Clean(ps[1..][i].text) == text &&
        ParseParagraph(ps[1..][i].id, codes).value.field.Full() !in added;
      assert ps[i + 1] == ps[1..][i];
    }
  }

  // With the remaining blocks asked for, the retrieved paragraphs of other fields are set behind
  // what full_resource leaves, or in place when they are still there; all else stays.
  ghost predicate RemainingSet(kept: Dict, es': Dict, ps: seq<Paragraph>, added: seq<string>, codes: Codes)
    requires AllRetrieved(ps, codes)
  {
    && Distinct(es') && KeysOf(kept) <= KeysOf(es')
    && (forall key :: Has(es', key) <==> Has(kept, key) || exists text :: Remains(key, text, ps, added, codes))
    && (forall key :: (exists text :: Remains(key, text, ps, added, codes)) ==>
          Has(es', key) && Remains(key, Lookup(es', key), ps, added, codes))
    && (forall key :: Has(kept, key) && !(exists text :: Remains(key, text, ps, added, codes)) ==>
          Has(es', key) && Lookup(es', key) == Lookup(kept, key))
  }

  lemma RemainingExact(kept: Dict, ps: seq<Paragraph>, added: seq<string>, codes: Codes)
    requires AllRetrieved(ps, codes) && Distinct(kept)
    ensures var r := Apply(kept, RemainingEdits(ps, added, codes));
      r.Ok? && RemainingSet(kept, r.value, ps, added, codes)
  {
    hide Names, Gives, SetsOnly, Has, Distinct, Apply, Remains, RemainingEdits, ParagraphIdOk;
    RemainingNames(ps, added, codes);
    SetsReach(kept, RemainingEdits(ps, added, codes));
  }

  method AddRemaining(context: CappedPromptContext, ps: seq<Paragraph>, added: seq<string>, codes: Codes)
    requires context.Valid() && AllRetrieved(ps, codes)
    modifies context`output
    ensures context.Valid() && Apply(old(context.output), RemainingEdits(ps, added, codes)) == Ok(context.output)
  {
    hide Clean, Put, ParagraphIdOk, Pid;
    assert ps[0..] == ps;
    for i := 0 to |ps|
      invariant context.Valid()
      invariant Apply(context.output, RemainingEdits(ps[i..], added, codes)) ==
        Apply(old(context.output), RemainingEdits(ps, added, codes))
    {
      assert ps[i..][1..] == ps[i + 1..];
      ghost var rest := RemainingEdits(ps[i + 1..], added, codes);
      if Pid(ps[i], codes).field.Full() !in added {
        assert ([Set(ps[i].id, Clean(ps[i].text))] + rest)[1..] == rest;
        context.SetItem(ps[i].id, Clean(ps[i].text));
      } else {
        assert [] + rest == rest;
      }
    }
  }

  method ReplaceFields(context: CappedPromptContext, texts: Dict)
    requires context.Valid()
    modifies context`output
    ensures context.Valid() && Apply(old(context.output), ReplaceEdits(texts)) == Ok(context.output)
  {
    hide Put, Unclaimed, Step, Apply;
    assert texts[0..] == texts;
    for i := 0 to |texts|
      invariant context.Valid()
      invariant Apply(context.output, ReplaceEdits(texts[i..])) == Apply(old(context.output), ReplaceEdits(texts))
    {
      assert texts[i..][1..] == texts[i + 1..];
      ghost var here := context.output;
      var fid, text := texts[i].key, texts[i].text;
      ApplyConcat(here, [Clear(fid), Set(fid, text)], ReplaceEdits(texts[i + 1..]));
      ApplyReplace(here, texts[i]);
      PutAbsent(Unclaimed(here, [fid]), fid, text);
      context.RemoveField(fid);
      context.SetItem(fid, text);
    }
    ApplyNone(context.output);
  }

  datatype FullResource = FullResource(count: Option<nat>, remaining: bool, exclude: Exclusion)

  // The texts of the resources the strategy asks for; `augment` answers the request.
  function FullTexts(ps: seq<Paragraph>, rid: Option<string>, s: FullResource, augment: seq<string> -> Augmented,
      codes: Codes): Dict
    requires AllRetrieved(ps, codes)
  {
    Extracted(augment(Head(if rid.Some? then [rid.value] else Picks(ps, s.exclude, codes), s.count)), true)
  }

  method FullResourceContext(context: CappedPromptContext, ps: seq<Paragraph>, rid: Option<string>, s: FullResource,
                             augment: seq<string> -> Augmented, codes: Codes)
    requires context.Valid() && AllRetrieved(ps, codes)
    modifies context`output
    ensures context.Valid()
    ensures Apply(old(context.output), FullResourceEdits(FullTexts(ps, rid, s, augment, codes), ps, s.remaining,
      codes)) == Ok(context.output)
    ensures var texts := FullTexts(ps, rid, s, augment, codes);
      var kept := Unclaimed(old(context.output), KeysOf(texts)) + Surviving(texts);
      if s.remaining then RemainingSet(kept, context.output, ps, KeysOf(texts), codes) else context.output == kept
  {
    hide Apply, Picks, ReplaceEdits, RemainingEdits, ParagraphIdOk, Extracted, RemainingSet, Surviving, Unclaimed;
    var resources := SelectResources(ps, rid, s.exclude, s.count, codes);
    var texts := Extract(augment(resources), true);
    ghost var before := context.output;
    FullResourceExact(before, texts);
    ReplaceFields(context, texts);
    if s.remaining {
      RemainingExact(context.output, ps, KeysOf(texts), codes);
      ApplyConcat(before, ReplaceEdits(texts), RemainingEdits(ps, KeysOf(texts), codes));
      AddRemaining(context, ps, KeysOf(texts), codes);
    } else {
      assert ReplaceEdits(texts) + [] == ReplaceEdits(texts);
    }
  }

  lemma FullResourceEditsOk(texts: Dict, ps: seq<Paragraph>, remaining: bool, codes: Codes)
    requires AllRetrieved(ps, codes) && Shape(texts, [], codes)
    ensures EditsOk(FullResourceEdits(texts, ps, remaining, codes), codes)
  {
    hide EditOk, Canonical, ParagraphIdOk;
    ReplaceEditsOk(texts, codes);
    RemainingEditsOk(ps, KeysOf(texts), codes);
  }

  // ----- field_extension_prompt_context -----

  function ExtendEdits(texts: Dict): (edits: seq<Edit>)
    ensures NeverFails(edits)
  {
    if texts == [] then [] else [Clear(texts[0].key), Add(texts[0].key, texts[0].text)] + ExtendEdits(texts[1..])
  }

  // Paragraphs removed with their field come back at the end.
  function FieldExtensionEdits(texts: Dict, ps: seq<Paragraph>): (edits: seq<Edit>)
    ensures NeverFails(edits)
  {
    ExtendEdits(texts) + MissingParagraphEdits(ps)
  }

  lemma {:induction false} ExtendEditsOk(texts: Dict, codes: Codes)
    requires forall i :: 0 <= i < |texts| ==> Canonical(texts[i].key, codes)
    ensures EditsOk(ExtendEdits(texts), codes)
  {
    hide Faithful;
    if texts != [] {
      ExtendEditsOk(texts[1..], codes);
    }
  }

  lemma FieldExtensionEditsOk(texts: Dict, ps: seq<Paragraph>, codes: Codes)
    requires AllRetrieved(ps, codes) && Shape(texts, [], codes)
    ensures EditsOk(FieldExtensionEdits(texts, ps), codes)
  {
    hide EditOk, Canonical, ParagraphIdOk;
    ExtendEditsOk(texts, codes);
    ParagraphEditsOk(ps, codes);
  }

  // Once its field is cleared, the text of a field is never there: adding it is replacing it.
  lemma {:induction false} ExtendReplaces(es: Dict, texts: Dict)
    ensures Apply(es, ExtendEdits(texts)) == Apply(es, ReplaceEdits(texts))
    decreases |texts|
  {
    if texts != [] {
      var e, rest := texts[0], texts[1..];
      ApplyReplace(es, e);
      ApplyExtend(es, e);
      ApplyConcat(es, [Clear(e.key), Set(e.key, e.text)], ReplaceEdits(rest));
      ApplyConcat(es, [Clear(e.key), Add(e.key, e.text)], ExtendEdits(rest));
      ExtendReplaces(Replaced(es, e), rest);
    }
  }

  lemma ApplyExtend(es: Dict, e: Entry)
    ensures Apply(es, [Clear(e.key), Add(e.key, e.text)]) == Ok(Replaced(es, e))
  {
    ApplyReplace(es, e);
    var cleared := Unclaimed(es, [e.key]);
    hide Unclaimed;
    ApplyConcat(es, [Clear(e.key)], [Add(e.key, e.text)]);
    assert [Clear(e.key)] + [Add(e.key, e.text)] == [Clear(e.key), Add(e.key, e.text)];
    ApplyOne(es, Clear(e.key));
    ApplyOne(cleared, Add(e.key, e.text));
  }

  // What field extension leaves: the old blocks that start with no extended field's id, in their
  // old order, then the extended fields with their whole text, then, once each, the retrieved
  // paragraphs that are among neither.
  ghost predicate FieldsExtended(es: Dict, es': Dict, texts: Dict, ps: seq<Paragraph>) {
    var kept := Unclaimed(es, KeysOf(texts)) + Surviving(texts);
    && kept <= es' && Distinct(es')
    && (forall key :: Has(es', key) <==> Has(kept, key) || IsParagraph(key, ps))
    && (forall i :: |kept| <= i < |es'| ==> ParagraphText(es'[i].key, es'[i].text, ps))
  }

  lemma FieldExtensionExact(es: Dict, texts: Dict, ps: seq<Paragraph>)
    ensures var r := Apply(es, FieldExtensionEdits(texts, ps));
      r.Ok? && (Distinct(r.value) ==> FieldsExtended(es, r.value, texts, ps))
  {
    hide Apply, ExtendEdits, ReplaceEdits, MissingParagraphEdits, Names, Gives, Has, Surviving, Unclaimed,
      IsParagraph, ParagraphText;
    var kept := Unclaimed(es, KeysOf(texts)) + Surviving(texts);
    ApplyConcat(es, ExtendEdits(texts), MissingParagraphEdits(ps));
    ExtendReplaces(es, texts);
    FullResourceExact(es, texts);
    ApplyPasses(kept, MissingParagraphEdits(ps));
    MissingNames(ps);
    AddsAppend(kept, MissingParagraphEdits(ps));
  }

  method FieldExtensionContext(context: CappedPromptContext, ps: seq<Paragraph>, a: Augmented, codes: Codes)
    requires context.Valid() && AllRetrieved(ps, codes)
    modifies context`output
    ensures context.Valid()
    ensures Apply(old(context.output), FieldExtensionEdits(Extracted(a, false), ps)) == Ok(context.output)
    ensures FieldsExtended(old(context.output), context.output, Extracted(a, false), ps)
  {
    hide Apply, Unclaimed, Step, Extracted, MissingParagraphEdits, Clean, FieldsExtended;
    var texts := Extract(a, false);
    FieldExtensionExact(context.output, texts, ps);
    ApplyConcat(context.output, ExtendEdits(texts), MissingParagraphEdits(ps));
    assert texts[0..] == texts;
    for i := 0 to |texts|
      invariant context.Valid()
      invariant Apply(context.output, ExtendEdits(texts[i..])) == Apply(old(context.output), ExtendEdits(texts))
    {
      assert texts[i..][1..] == texts[i + 1..];
      var fid, text := texts[i].key, texts[i].text;
      ApplyConcat(context.output, [Clear(fid), Add(fid, text)], ExtendEdits(texts[i + 1..]));
      assert [Clear(fid)] + [Add(fid, text)] == [Clear(fid), Add(fid, text)];
      ApplyConcat(context.output, [Clear(fid)], [Add(fid, text)]);
      ApplyOne(context.output, Clear(fid));
      ClearSteps(context.output, fid);
      context.RemoveField(fid);
      AddItem(context, fid, text);
    }
    ApplyNone(context.output);
    AddMissingParagraphs(context, ps);
  }

  lemma ClearSteps(es: Dict, field: string)
    ensures Step(es, Clear(field)) == Ok(Unclaimed(es, [field]))
  {
  }
}
