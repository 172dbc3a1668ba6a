// hierarchy_prompt_context of ask/search/prompt.py: the paragraphs of a resource are gathered
// under its title and summary, in the block of the first of them.
module HierarchyContext {
  import opened Basics
  import opened OrderedDict
  import opened Ids
  import opened PromptContext
  import opened PromptEdits
  import opened PromptStrategies
  import opened WholeFields
  import opened Occurrences
  import Text

  function Rids(ps: seq<Paragraph>, codes: Codes): (r: seq<string>)
    requires AllRetrieved(ps, codes)
    ensures |r| == |ps| && forall i :: 0 <= i < |ps| ==> r[i] == RidOf(ps[i], codes)
  {
    seq(|ps|, i requires 0 <= i < |ps| => RidOf(ps[i], codes))
  }

  function Is(rid: string): string -> bool {
    r => r == rid
  }

  // Where a resource's paragraphs stand.
  function Positions(rids: seq<string>, rid: string): seq<nat> { Where(rids, Is(rid)) }

  function TextAt(a: Augmented, id: string): string {
    var found := Find(a.paragraphs, id);
    if found.Some? then TextOf(found.value.text) else ""
  }

  // The text around a paragraph, some characters beyond its end.
  function Block(p: Paragraph, extra: nat, a: Augmented, codes: Codes): string
    requires ParagraphIdOk(p.id, codes)
  {
    var pid := Pid(p, codes);
    "\n EXTRACTED BLOCK: \n " + TextAt(a, pid.(end := pid.end + extra).Full()) + " \n\n "
  }

  function Blocks(ps: seq<Paragraph>, at: seq<nat>, extra: nat, a: Augmented, codes: Codes): string
    requires AllRetrieved(ps, codes) && Below(at, |ps|)
  {
    if at == [] then ""
    else Blocks(ps, at[..|at| - 1], extra, a, codes) + Block(ps[at[|at| - 1]], extra, a, codes)
  }

  function Assembled(rid: string, blocks: string, a: Augmented): (s: string)
    ensures s != ""
  {
    var title := ParagraphId(FieldId(rid, "a", "title", None), 0, 500);
    var summary := ParagraphId(FieldId(rid, "a", "summary", None), 0, 1000);
    "DOCUMENT: " + TextAt(a, title.Full()) + " \n SUMMARY: " + TextAt(a, summary.Full()) + " \n RESOURCE CONTENT: " +
      blocks
  }

  // The text a paragraph's copy ends up with: all of its resource if it is the first, else none.
  function FinalText(ps: seq<Paragraph>, i: nat, extra: nat, a: Augmented, codes: Codes): string
    requires AllRetrieved(ps, codes) && i < |ps|
  {
    var rid := RidOf(ps[i], codes);
    var at := Positions(Rids(ps, codes), rid);
    WhereExact(Rids(ps, codes), Is(rid));
    if at[0] == i then Assembled(rid, Blocks(ps, at, extra, a, codes), a) else ""
  }

  function FinalTexts(ps: seq<Paragraph>, extra: nat, a: Augmented, codes: Codes): (r: seq<string>)
    requires AllRetrieved(ps, codes)
    ensures |r| == |ps| && forall i :: 0 <= i < |ps| ==> r[i] == FinalText(ps, i, extra, a, codes)
  {
    seq(|ps|, i requires 0 <= i < |ps| => FinalText(ps, i, extra, a, codes))
  }

  // The text that was answered under an id, or nothing.
  lemma TextAnswered(a: Augmented, id: string, p: AugmentedParagraph)
    ensures IsAnswer(a.paragraphs, id, p) ==> TextAt(a, id) == if p.text.Some? then p.text.value else ""
    ensures (forall q :: !IsAnswer(a.paragraphs, id, q)) ==> TextAt(a, id) == ""
  {
    FindExact(a.paragraphs, id, p);
    if Find(a.paragraphs, id).Some? {
      FindExact(a.paragraphs, id, Find(a.paragraphs, id).value);
    }
  }

  // The block of a resource starts with its title and summary, which are asked for as the first
  // 500 characters of one field and the first 1000 of another.
  lemma AssembledTells(rid: string, blocks: string, a: Augmented)
    ensures Assembled(rid, blocks, a) ==
      "DOCUMENT: " + TextAt(a, rid + "/a/title/0-500") + " \n SUMMARY: " + TextAt(a, rid + "/a/summary/0-1000") +
        " \n RESOURCE CONTENT: " + blocks
  {
    hide TextAt;
    FrontIds(rid);
    var title := ParagraphId(FieldId(rid, "a", "title", None), 0, 500);
    var summary := ParagraphId(FieldId(rid, "a", "summary", None), 0, 1000);
    var t, s := TextAt(a, title.Full()), TextAt(a, summary.Full());
    assert Assembled(rid, blocks, a) == "DOCUMENT: " + t + " \n SUMMARY: " + s + " \n RESOURCE CONTENT: " + blocks;
    assert t == TextAt(a, rid + "/a/title/0-500") && s == TextAt(a, rid + "/a/summary/0-1000");
    hide Assembled;
  }

  lemma FrontIds(rid: string)
    ensures ParagraphId(FieldId(rid, "a", "title", None), 0, 500).Full() == rid + "/a/title/0-500"
    ensures ParagraphId(FieldId(rid, "a", "summary", None), 0, 1000).Full() == rid + "/a/summary/0-1000"
  {
    hide ParagraphId.Full, Text.Dec;
    FrontId(rid, "title", 500);
    FrontId(rid, "summary", 1000);
    FrontNumbers();
    FrontParts();
  }

  lemma FrontNumbers()
    ensures Text.Dec(500) == "500" && Text.Dec(1000) == "1000"
  {
    assert Text.Dec(50) == "50" && Text.Dec(100) == "100";
  }

  lemma FrontParts()
    ensures "/a/" + "title" + "/0-" + "500" == "/a/title/0-500"
    ensures "/a/" + "summary" + "/0-" + "1000" == "/a/summary/0-1000"
  {
  }

  lemma FrontId(rid: string, field: string, end: nat)
    ensures ParagraphId(FieldId(rid, "a", field, None), 0, end).Full() == rid + ("/a/" + field + "/0-" + Text.Dec(end))
  {
    assert Text.Dec(0) == "0";
    var f := FieldId(rid, "a", field, None);
    assert f.Full() == rid + ("/a/" + field);
    assert ParagraphId(f, 0, end).Full() == f.Full() + ("/0-" + Text.Dec(end));
  }

  // The texts of the paragraphs follow in order, each asked for with `extra` characters more.
  lemma BlocksTell(ps: seq<Paragraph>, at: seq<nat>, k: nat, extra: nat, a: Augmented, codes: Codes)
    requires AllRetrieved(ps, codes) && Below(at, |ps|) && k < |ps|
    ensures Blocks(ps, [], extra, a, codes) == ""
    ensures var pid := ParseParagraph(ps[k].id, codes).value;
      Blocks(ps, at + [k], extra, a, codes) == Blocks(ps, at, extra, a, codes) +
        ("\n EXTRACTED BLOCK: \n " +
         TextAt(a, pid.field.Full() + "/" + Text.Dec(pid.start) + "-" + Text.Dec(pid.end + extra)) + " \n\n ")
  {
    hide TextAt, ParseParagraph, Block, ParagraphIdOk;
    assert (at + [k])[..|at|] == at;
    BlockTells(ps[k], extra, a, codes);
  }

  lemma BlockTells(p: Paragraph, extra: nat, a: Augmented, codes: Codes)
    requires ParagraphIdOk(p.id, codes)
    ensures var pid := ParseParagraph(p.id, codes).value;
      Block(p, extra, a, codes) == "\n EXTRACTED BLOCK: \n " +
        TextAt(a, pid.field.Full() + "/" + Text.Dec(pid.start) + "-" + Text.Dec(pid.end + extra)) + " \n\n "
  {
    hide TextAt, ParseParagraph;
    var pid := Pid(p, codes);
    assert pid.(end := pid.end + extra).Full() ==
      pid.field.Full() + "/" + Text.Dec(pid.start) + "-" + Text.Dec(pid.end + extra);
  }

  // Setting the copies that still have a text.
  function TextEdits(ps: seq<Paragraph>, texts: seq<string>): (edits: seq<Edit>)
    requires |ps| == |texts|
    ensures NeverFails(edits)
  {
    if ps == [] then []
    else (if texts[0] == "" then [] else [Set(ps[0].id, Clean(texts[0]))]) + TextEdits(ps[1..], texts[1..])
  }

  function HierarchyEdits(ps: seq<Paragraph>, extra: nat, a: Augmented, codes: Codes): (edits: seq<Edit>)
    requires AllRetrieved(ps, codes)
    ensures NeverFails(edits)
  {
    TextEdits(ps, FinalTexts(ps, extra, a, codes))
  }

  lemma {:induction false} TextEditsOk(ps: seq<Paragraph>, texts: seq<string>, codes: Codes)
    requires AllRetrieved(ps, codes) && |ps| == |texts|
    ensures EditsOk(TextEdits(ps, texts), codes)
  {
    hide Clean, Canonical, ParagraphIdOk;
    if ps != [] {
      RetrievedCanonical(ps[0].id, codes);
      TextEditsOk(ps[1..], texts[1..], codes);
    }
  }

  // Every resource keeps its place in exactly one block: that of its most relevant paragraph.
  lemma OneBlockPerResource(ps: seq<Paragraph>, i: nat, extra: nat, a: Augmented, codes: Codes)
    requires AllRetrieved(ps, codes) && i < |ps|
    ensures FinalText(ps, i, extra, a, codes) != "" <==>
      forall k :: 0 <= k < i ==> RidOf(ps[k], codes) != RidOf(ps[i], codes)
  {
    hide RidOf, Blocks, Assembled, Where, ParagraphIdOk, FinalText, Rids;
    var rid := RidOf(ps[i], codes);
    var at := Positions(Rids(ps, codes), rid);
    RidPositions(ps, rid, codes);
    assert i in at;
    FinalOf(ps, i, rid, at, extra, a, codes);
  }

  // The paragraphs of each resource, the resources in order of relevance.
  ghost predicate Grouped(rids: seq<string>, order: seq<string>, members: map<string, seq<nat>>) {
    && (forall i, j :: 0 <= i < j < |order| ==> order[i] != order[j])
    && (forall rid :: rid in order <==> rid in members)
    && (forall rid :: rid in members <==> rid in rids)
    && (forall rid :: rid in members ==> members[rid] == Positions(rids, rid))
  }

  method Group(rids: seq<string>) returns (order: seq<string>, members: map<string, seq<nat>>)
    ensures Grouped(rids, order, members)
  {
    hide Where;
    order, members := [], map[];
    for i := 0 to |rids|
      invariant Grouped(rids[..i], order, members)
    {
      var rid := rids[i];
      assert rids[..i + 1] == rids[..i] + [rid];
      forall r ensures Positions(rids[..i + 1], r) == Positions(rids[..i], r) + if rid == r then [i] else [] {
        WhereSnoc(rids[..i], rid, Is(r));
      }
      WhereExact(rids[..i], Is(rid));
      if rid !in members {
        NoWhere(rids[..i], Is(rid));
        order, members := order + [rid], members[rid := [i]];
      } else {
        members := members[rid := members[rid] + [i]];
      }
    }
    assert rids[..|rids|] == rids;
  }

  // The extended texts of one resource; the copies' texts are cleared on the way.
  method GatherBlocks(ps: seq<Paragraph>, at: seq<nat>, texts0: seq<string>, extra: nat, a: Augmented, codes: Codes)
    returns (texts: seq<string>, blocks: string)
    requires AllRetrieved(ps, codes) && |texts0| == |ps| && Below(at, |ps|)
    ensures |texts| == |ps| && blocks == Blocks(ps, at, extra, a, codes)
    ensures forall k :: 0 <= k < |ps| ==> texts[k] == if k in at then "" else texts0[k]
  {
    hide Block, ParagraphIdOk;
    texts, blocks := texts0, "";
    for j := 0 to |at|
      invariant |texts| == |ps| && blocks == Blocks(ps, at[..j], extra, a, codes)
      invariant forall k :: 0 <= k < |ps| ==> texts[k] == if k in at[..j] then "" else texts0[k]
    {
      assert at[j] in at;
      assert at[..j + 1][..j] == at[..j];
      blocks := blocks + Block(ps[at[j]], extra, a, codes);
      texts := texts[at[j] := ""];
      assert at[..j + 1] == at[..j] + [at[j]];
    }
    assert at[..|at|] == at;
  }

  ghost predicate Settled(ps: seq<Paragraph>, texts: seq<string>, done: seq<string>, extra: nat, a: Augmented,
      codes: Codes)
    requires AllRetrieved(ps, codes)
  {
    && |texts| == |ps|
    && forall k :: 0 <= k < |ps| && RidOf(ps[k], codes) in done ==> texts[k] == FinalText(ps, k, extra, a, codes)
  }

  // One resource is done: its first copy holds everything, its other copies are empty.
  ghost predicate Rewritten(ps: seq<Paragraph>, texts: seq<string>, texts': seq<string>, rid: string, at: seq<nat>,
      extra: nat, a: Augmented, codes: Codes)
    requires AllRetrieved(ps, codes) && |texts| == |ps| && at != [] && Below(at, |ps|)
  {
    && |texts'| == |ps|
    && forall k :: 0 <= k < |ps| ==>
         texts'[k] == if k == at[0] then Assembled(rid, Blocks(ps, at, extra, a, codes), a) else if k in at
           then "" else texts[k]
  }

  method RewriteResource(ps: seq<Paragraph>, texts0: seq<string>, rid: string, at: seq<nat>, extra: nat, a: Augmented,
      codes: Codes)
    returns (texts: seq<string>)
    requires AllRetrieved(ps, codes) && |texts0| == |ps| && at != [] && Below(at, |ps|)
    ensures Rewritten(ps, texts0, texts, rid, at, extra, a, codes)
  {
    hide Assembled, Blocks, ParagraphIdOk;
    var blocks;
    texts, blocks := GatherBlocks(ps, at, texts0, extra, a, codes);
    texts := texts[at[0] := Assembled(rid, blocks, a)];
  }

  lemma SettledSnoc(ps: seq<Paragraph>, texts: seq<string>, texts': seq<string>, done: seq<string>, rid: string,
      at: seq<nat>, extra: nat, a: Augmented, codes: Codes)
    requires AllRetrieved(ps, codes) && Settled(ps, texts, done, extra, a, codes) && rid !in done
    requires at == Positions(Rids(ps, codes), rid) && at != [] && Below(at, |ps|) && |texts| == |ps|
    requires Rewritten(ps, texts, texts', rid, at, extra, a, codes)
    ensures |texts'| == |ps| && Settled(ps, texts', done + [rid], extra, a, codes)
  {
    hide RidOf, Blocks, Assembled, Where, FinalText, ParagraphIdOk, Rids;
    RidPositions(ps, rid, codes);
    forall k | 0 <= k < |ps| && RidOf(ps[k], codes) in done + [rid]
      ensures texts'[k] == FinalText(ps, k, extra, a, codes)
    {
      assert k in at <==> RidOf(ps[k], codes) == rid;
      if RidOf(ps[k], codes) == rid {
        FinalOf(ps, k, rid, at, extra, a, codes);
      }
    }
  }

  lemma RidPositions(ps: seq<Paragraph>, rid: string, codes: Codes)
    requires AllRetrieved(ps, codes)
    ensures var at := Positions(Rids(ps, codes), rid);
      && Below(at, |ps|) && Ascending(at) && (at != [] ==> at[0] in at)
      && forall k :: 0 <= k < |ps| ==> (k in at <==> RidOf(ps[k], codes) == rid)
  {
    hide RidOf, Where, ParagraphIdOk;
    WhereExact(Rids(ps, codes), Is(rid));
  }

  lemma FinalOf(ps: seq<Paragraph>, k: nat, rid: string, at: seq<nat>, extra: nat, a: Augmented, codes: Codes)
    requires AllRetrieved(ps, codes) && k < |ps| && RidOf(ps[k], codes) == rid
    requires at == Positions(Rids(ps, codes), rid) && at != [] && Below(at, |ps|)
    ensures FinalText(ps, k, extra, a, codes) == if at[0] ==
      k then Assembled(rid, Blocks(ps, at, extra, a, codes), a) else ""
  {
    hide RidOf, Blocks, Assembled, Where, ParagraphIdOk;
  }

  method AddTexts(context: CappedPromptContext, ps: seq<Paragraph>, texts: seq<string>)
    requires context.Valid() && |ps| == |texts|
    modifies context`output
    ensures context.Valid() && Apply(old(context.output), TextEdits(ps, texts)) == Ok(context.output)
  {
    hide Clean, Put;
    assert ps[0..] == ps && texts[0..] == texts;
    for i := 0 to |ps|
      invariant context.Valid()
      invariant Apply(context.output, TextEdits(ps[i..], texts[i..])) ==
        Apply(old(context.output), TextEdits(ps, texts))
    {
      assert ps[i..][1..] == ps[i + 1..] && texts[i..][1..] == texts[i + 1..];
      ghost var rest := TextEdits(ps[i + 1..], texts[i + 1..]);
      if texts[i] == "" {
        assert [] + rest == rest;
        continue;
      }
      assert ([Set(ps[i].id, Clean(texts[i]))] + rest)[1..] == rest;
      context.SetItem(ps[i].id, Clean(texts[i]));
    }
  }

  // max(strategy.count, 0)
  function Extra(count: int): (r: nat)
    ensures r >= count && (count >= 0 ==> r == count) && (count <= 0 ==> r == 0)
  {
    if count < 0 then 0 else count
  }

  lemma GroupMember(rids: seq<string>, order: seq<string>, members: map<string, seq<nat>>, j: nat)
    requires Grouped(rids, order, members) && j < |order|
    ensures order[j] in members && order[j] !in order[..j]
    ensures var at := members[order[j]]; at == Positions(rids, order[j]) && at != [] && Below(at, |rids|) && at[0] in at
  {
    hide Where;
    assert order[j] in order;
    WhereExact(rids, Is(order[j]));
    var i :| 0 <= i < |rids| && rids[i] == order[j];
    assert i in members[order[j]];
  }

  lemma AllSettled(ps: seq<Paragraph>, texts: seq<string>, order: seq<string>, members: map<string, seq<nat>>,
      extra: nat, a: Augmented, codes: Codes)
    requires AllRetrieved(ps, codes) && Grouped(Rids(ps, codes), order, members) &&
      Settled(ps, texts, order, extra, a, codes)
    ensures texts == FinalTexts(ps, extra, a, codes)
  {
    hide RidOf, FinalText, Where;
    assert forall i :: 0 <= i < |ps| ==> Rids(ps, codes)[i] in Rids(ps, codes);
  }

  function Texts(ps: seq<Paragraph>): (r: seq<string>)
    ensures |r| == |ps|
  {
    seq(|ps|, i requires 0 <= i < |ps| => ps[i].text)
  }

  lemma NothingSettled(ps: seq<Paragraph>, order: seq<string>, extra: nat, a: Augmented, codes: Codes)
    requires AllRetrieved(ps, codes)
    ensures Settled(ps, Texts(ps), order[..0], extra, a, codes)
  {
  }

  // The texts of the copies after the rewrite.
  method Rewrite(ps: seq<Paragraph>, extra: nat, a: Augmented, codes: Codes) returns (texts: seq<string>)
    requires AllRetrieved(ps, codes)
    ensures texts == FinalTexts(ps, extra, a, codes)
  {
    hide *;
    var rids := Rids(ps, codes);
    var order, members := Group(rids);
    texts := Texts(ps);
    NothingSettled(ps, order, extra, a, codes);
    for j := 0 to |order|
      invariant |texts| == |ps| && Settled(ps, texts, order[..j], extra, a, codes)
    {
      var rid := order[j];
      GroupMember(rids, order, members, j);
      var at := members[rid];
      var texts' := RewriteResource(ps, texts, rid, at, extra, a, codes);
      SettledSnoc(ps, texts, texts', order[..j], rid, at, extra, a, codes);
      assert order[..j + 1] == order[..j] + [rid];
      texts := texts';
    }
    assert order[..|order|] == order;
    AllSettled(ps, texts, order, members, extra, a, codes);
  }

  // ----- what the context holds afterwards -----

  // The i-th paragraph is the first of its resource.
  ghost predicate Leads(ps: seq<Paragraph>, i: int, codes: Codes)
    requires AllRetrieved(ps, codes)
  {
    0 <= i < |ps| && forall k :: 0 <= k < i ==> RidOf(ps[k], codes) != RidOf(ps[i], codes)
  }

  // Exactly the blocks of the first paragraphs are overwritten, each with all of its resource;
  // every other block, those of the resource's other paragraphs included, keeps its text, and the
  // old blocks keep their places.
  ghost predicate FirstsOverwritten(es: Dict, es': Dict, ps: seq<Paragraph>, extra: nat, a: Augmented, codes: Codes)
    requires AllRetrieved(ps, codes)
  {
    && Distinct(es') && KeysOf(es) <= KeysOf(es')
    && (forall i :: Leads(ps, i, codes) ==>
          Has(es', ps[i].id) && Lookup(es', ps[i].id) == Clean(FinalText(ps, i, extra, a, codes)))
    && (forall key :: Has(es', key) <==> Has(es, key) || LeadKey(ps, key, codes))
    && (forall key :: Has(es, key) && !LeadKey(ps, key, codes) ==> Has(es', key) && Lookup(es', key) == Lookup(es, key))
  }

  ghost predicate LeadKey(ps: seq<Paragraph>, key: string, codes: Codes)
    requires AllRetrieved(ps, codes)
  {
    exists i :: Leads(ps, i, codes) && ps[i].id == key
  }

  // Paragraph i is the first of those whose copy kept a text.
  ghost predicate Texted(ps: seq<Paragraph>, texts: seq<string>, i: int, key: string, text: string)
    requires |ps| == |texts|
  {
    0 <= i < |ps| && texts[i] != "" && ps[i].id == key && Clean(texts[i]) == text
  }

  lemma {:induction false} TextNames(ps: seq<Paragraph>, texts: seq<string>)
    requires |ps| == |texts|
    ensures forall key :: Names(TextEdits(ps, texts), key) <==>
      exists i :: 0 <= i < |ps| && texts[i] != "" && ps[i].id == key
    ensures forall key, text :: Gives(TextEdits(ps, texts), key, text) <==> exists i :: Texted(ps, texts, i, key, text)
  {
    hide Clean, Names, Gives;
    NoneNamed();
    if ps != [] {
      TextNames(ps[1..], texts[1..]);
      var own := Set(ps[0].id, Clean(texts[0]));
      var rest := TextEdits(ps[1..], texts[1..]);
      assert texts[0] == "" ==> TextEdits(ps, texts) == rest;
      forall key ensures Names(TextEdits(ps, texts), key) <==>
        exists i :: 0 <= i < |ps| && texts[i] != "" && ps[i].id == key {
        SetNamed(own, rest, key, "");
        TextKeys(ps, texts, key);
      }
      forall key, text ensures Gives(TextEdits(ps, texts), key, text) <==> exists i :: Texted(ps, texts, i, key, text) {
        SetNamed(own, rest, key, text);
        TextedCons(ps, texts, key, text);
      }
    }
  }

  lemma TextKeys(ps: seq<Paragraph>, texts: seq<string>, key: string)
    requires |ps| == |texts| && ps != []
    ensures (exists i :: 0 <= i < |ps| && texts[i] != "" && ps[i].id == key) <==>
      (texts[0] != "" && ps[0].id == key) || exists i ::
        0 <= i < |ps[1..]| && texts[1..][i] != "" &&
        ps[1..][i].id == key
  {
    if i :| 0 <= i < |ps[1..]| && texts[1..][i] != "" && ps[1..][i].id == key {
      assert texts[i + 1] == texts[1..][i] && ps[i + 1] == ps[1..][i];
    }
    if i :| 0 < i < |ps| && texts[i] != "" && ps[i].id == key {
      assert texts[1..][i - 1] == texts[i] && ps[1..][i - 1] == ps[i];
    }
  }

  lemma TextedCons(ps: seq<Paragraph>, texts: seq<string>, key: string, text: string)
    requires |ps| == |texts| && ps != []
    ensures (exists i :: Texted(ps, texts, i, key, text)) <==>
      Texted(ps, texts, 0, key, text) || exists i :: Texted(ps[1..], texts[1..], i, key, text)
  {
    hide Clean;
    if i :| Texted(ps[1..], texts[1..], i, key, text) {
      assert Texted(ps, texts, i + 1, key, text);
    }
    if i :| Texted(ps, texts, i, key, text) && i > 0 {
      assert Texted(ps[1..], texts[1..], i - 1, key, text);
    }
  }

  // Copies that kept a text have ids of their own.
  ghost predicate TextsApart(ps: seq<Paragraph>, texts: seq<string>)
    requires |ps| == |texts|
  {
    forall i, j :: 0 <= i < j < |ps| && texts[i] != "" && texts[j] != "" ==> ps[i].id != ps[j].id
  }

  lemma {:induction false} TextsSetApart(ps: seq<Paragraph>, texts: seq<string>)
    requires |ps| == |texts| && TextsApart(ps, texts)
    ensures SetsApart(TextEdits(ps, texts))
  {
    hide Clean, TextsApart, Names, Gives, SetsApart;
    if ps == [] {
      NothingApart();
    } else {
      ApartLater(ps, texts);
      TextsSetApart(ps[1..], texts[1..]);
      var rest := TextEdits(ps[1..], texts[1..]);
      if texts[0] != "" {
        FirstApart(ps, texts);
        ApartCons(Set(ps[0].id, Clean(texts[0])), rest);
        assert TextEdits(ps, texts) == [Set(ps[0].id, Clean(texts[0]))] + rest;
      } else {
        assert TextEdits(ps, texts) == rest;
      }
    }
  }

  lemma NothingApart()
    ensures SetsApart([])
  {
  }

  lemma ApartCons(e: Edit, rest: seq<Edit>)
    requires e.Set? && SetsApart(rest) && forall i :: 0 <= i < |rest| ==> rest[i].key != e.key
    ensures SetsApart([e] + rest)
  {
  }

  lemma ApartLater(ps: seq<Paragraph>, texts: seq<string>)
    requires |ps| == |texts| && ps != [] && TextsApart(ps, texts)
    ensures TextsApart(ps[1..], texts[1..])
  {
    assert forall i :: 0 <= i < |ps[1..]| ==> ps[1..][i] == ps[i + 1] && texts[1..][i] == texts[i + 1];
  }

  lemma FirstApart(ps: seq<Paragraph>, texts: seq<string>)
    requires |ps| == |texts| && ps != [] && TextsApart(ps, texts) && texts[0] != ""
    requires SetsApart(TextEdits(ps[1..], texts[1..]))
    ensures var rest := TextEdits(ps[1..], texts[1..]);
      forall i :: 0 <= i < |rest| ==> rest[i].Set? && rest[i].key != ps[0].id
  {
    hide Clean;
    TextNames(ps[1..], texts[1..]);
    var rest := TextEdits(ps[1..], texts[1..]);
    hide TextEdits;
    forall i | 0 <= i < |rest| ensures rest[i].Set? && rest[i].key != ps[0].id {
      assert Names(rest, rest[i].key);
      var k :| 0 <= k < |ps[1..]| && texts[1..][k] != "" && ps[1..][k].id == rest[i].key;
      assert texts[k + 1] != "" && ps[k + 1].id == rest[i].key;
    }
  }

  lemma LeadsTexted(ps: seq<Paragraph>, i: nat, extra: nat, a: Augmented, codes: Codes)
    requires AllRetrieved(ps, codes) && i < |ps|
    ensures FinalTexts(ps, extra, a, codes)[i] != "" <==> Leads(ps, i, codes)
  {
    hide FinalText, RidOf, ParagraphIdOk;
    OneBlockPerResource(ps, i, extra, a, codes);
  }

  lemma LeadsApart(ps: seq<Paragraph>, i: nat, j: nat, codes: Codes)
    requires AllRetrieved(ps, codes) && i < j < |ps| && Leads(ps, j, codes)
    ensures ps[i].id != ps[j].id
  {
    hide ParseParagraph;
    assert RidOf(ps[i], codes) != RidOf(ps[j], codes);
  }

  lemma HierarchyExact(es: Dict, ps: seq<Paragraph>, extra: nat, a: Augmented, codes: Codes)
    requires AllRetrieved(ps, codes) && Distinct(es)
    ensures var r := Apply(es, HierarchyEdits(ps, extra, a, codes));
      r.Ok? && FirstsOverwritten(es, r.value, ps, extra, a, codes)
  {
    hide FinalText, ParagraphIdOk, TextEdits, Leads, Apply, Names, Gives, Has, Clean, Distinct, RidOf;
    var texts := FinalTexts(ps, extra, a, codes);
    forall i | 0 <= i < |ps| ensures texts[i] != "" <==> Leads(ps, i, codes) { LeadsTexted(ps, i, extra, a, codes); }
    forall i, j | 0 <= i < j < |ps| && texts[i] != "" && texts[j] != "" ensures ps[i].id != ps[j].id {
      LeadsApart(ps, i, j, codes);
    }
    TextsSetApart(ps, texts);
    SetsOverwrite(es, TextEdits(ps, texts));
    TextNames(ps, texts);
    forall i | Leads(ps, i, codes) ensures 0 <= i < |ps| && Gives(TextEdits(ps, texts), ps[i].id, Clean(texts[i])) {
      LeadsIn(ps, i, codes);
      assert Texted(ps, texts, i, ps[i].id, Clean(texts[i]));
    }
    forall key ensures Names(TextEdits(ps, texts), key) <==> LeadKey(ps, key, codes) {
      LeadKeys(ps, texts, key, codes);
    }
  }

  lemma LeadsIn(ps: seq<Paragraph>, i: int, codes: Codes)
    requires AllRetrieved(ps, codes) && Leads(ps, i, codes)
    ensures 0 <= i < |ps|
  {
  }

  lemma LeadKeys(ps: seq<Paragraph>, texts: seq<string>, key: string, codes: Codes)
    requires AllRetrieved(ps, codes) && |texts| == |ps| && forall i :: 0 <= i < |ps| ==>
      (texts[i] != "" <==> Leads(ps, i, codes))
    ensures (exists i :: 0 <= i < |ps| && texts[i] != "" && ps[i].id == key) <==> LeadKey(ps, key, codes)
  {
    hide RidOf, ParagraphIdOk;
    if LeadKey(ps, key, codes) {
      var i :| Leads(ps, i, codes) && ps[i].id == key;
      assert texts[i] != "";
    }
  }

  // hierarchy_prompt_context
  method Hierarchy(context: CappedPromptContext, ps: seq<Paragraph>, count: int, a: Augmented, codes: Codes)
    requires context.Valid() && AllRetrieved(ps, codes)
    modifies context`output
    ensures context.Valid()
    ensures Apply(old(context.output), HierarchyEdits(ps, Extra(count), a, codes)) == Ok(context.output)
    ensures FirstsOverwritten(old(context.output), context.output, ps, Extra(count), a, codes)
  {
    hide FinalText, ParagraphIdOk, TextEdits, FirstsOverwritten, Apply;
    HierarchyExact(context.output, ps, Extra(count), a, codes);
    var texts := Rewrite(ps, Extra(count), a, codes);
    AddTexts(context, ps, texts);
  }
}
