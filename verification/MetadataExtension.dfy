// extend_prompt_context_with_metadata of ask/search/prompt.py: text blocks are popped and set
// again with metadata of their resource and field behind their text.
module MetadataExtension {
  import opened Basics
  import opened OrderedDict
  import opened Ids
  import opened PromptContext
  import opened PromptEdits
  import opened PromptStrategies

  datatype Types = Types(origin: bool, extra: bool, labels: bool, ners: bool)

  function LabelLines(labels: Labels): string {
    if labels == [] then "" else LabelLinesOf(labels[0].0, labels[0].1) + LabelLines(labels[1..])
  }

  function LabelLinesOf(labelset: string, labels: seq<string>): string {
    if labels == [] then "" else "\n - " + labels[0] + " (" + labelset + ")" + LabelLinesOf(labelset, labels[1..])
  }

  function EntityLines(entities: seq<(string, seq<string>)>): string {
    if entities == [] then ""
    else "\n - " + entities[0].0 + ":" + TokenLines(entities[0].1) + EntityLines(entities[1..])
  }

  function TokenLines(tokens: seq<string>): string {
    if tokens == [] then "" else "\n   - " + tokens[0] + TokenLines(tokens[1..])
  }

  // What is appended to a block, piece by piece, each with whether a missing block is an error.
  datatype Piece = Piece(suffix: string, strict: bool)

  function Pieces(id: TextBlockId, a: Augmented): seq<Piece> {
    var resource := Find(a.resources, id.Rid());
    var field := Find(a.fields, id.FieldOf().Full());
    var resourceLabels := if resource.Some? then resource.value.labels else [];
    var fieldLabels := if field.Some? then field.value.labels else [];
    (if resource.Some? && resource.value.origin.Some?
     then [Piece("\n\nDOCUMENT METADATA AT ORIGIN:\n" + resource.value.origin.value, true)] else [])
    + (if resource.Some? && resource.value.extra.Some?
       then [Piece("\n\nDOCUMENT EXTRA METADATA:\n" + resource.value.extra.value, true)] else [])
    + (if resourceLabels != [] || fieldLabels != []
       then [Piece("\n\nDOCUMENT CLASSIFICATION LABELS:" + LabelLines(resourceLabels) +
         LabelLines(fieldLabels), false)] else [])
    + (if field.Some? && field.value.entities != []
       then [Piece("\n\nDOCUMENT NAMED ENTITIES (NERs):" + EntityLines(field.value.entities), false)] else [])
  }

  function Extends(key: string, pieces: seq<Piece>): seq<Edit> {
    if pieces == [] then [] else [Extend(key, pieces[0].suffix, pieces[0].strict)] + Extends(key, pieces[1..])
  }

  // The ids among the keys of a context; other keys are skipped.
  function IdsOf(es: Dict, codes: Codes): seq<TextBlockId> {
    if es == [] then []
    else
      var id := ParseTextBlock(es[0].key, codes);
      (if id.Some? then [id.value] else []) + IdsOf(es[1..], codes)
  }

  function ExtendAll(ids: seq<TextBlockId>, a: Augmented): seq<Edit> {
    if ids == [] then [] else Extends(ids[0].Full(), Pieces(ids[0], a)) + ExtendAll(ids[1..], a)
  }

  function MetadataEdits(es: Dict, types: Types, a: Augmented, codes: Codes): seq<Edit> {
    if types.origin || types.extra || types.labels || types.ners then ExtendAll(IdsOf(es, codes), a) else []
  }

  // ----- what the extension means -----

  function Suffix(pieces: seq<Piece>): string {
    if pieces == [] then "" else pieces[0].suffix + Suffix(pieces[1..])
  }

  function PiecesAt(key: string, a: Augmented, codes: Codes): seq<Piece> {
    var id := ParseTextBlock(key, codes);
    if id.Some? then Pieces(id.value, a) else []
  }

  // The blocks nothing is appended to, in order.
  function Untouched(es: Dict, a: Augmented, codes: Codes): Dict {
    if es == [] then []
    else (if PiecesAt(es[0].key, a, codes) == [] then [es[0]] else []) + Untouched(es[1..], a, codes)
  }

  // The other blocks, in order, with everything appended.
  function Extended(es: Dict, a: Augmented, codes: Codes): Dict {
    if es == [] then []
    else
      var pieces := PiecesAt(es[0].key, a, codes);
      (if pieces == [] then [] else [Entry(es[0].key, es[0].text + Suffix(pieces))]) + Extended(es[1..], a, codes)
  }

  ghost predicate AllFaithful(es: Dict, codes: Codes) { forall i :: 0 <= i < |es| ==> Faithful(es[i].key, codes) }

  // ----- what is behind the text of a block -----

  ghost predicate Mentions(text: string, line: string) { exists i: nat :: Occurs(text, line, i) }

  lemma MentionsMore(before: string, text: string, after: string, line: string)
    requires Mentions(text, line)
    ensures Mentions(before + text + after, line)
  {
    var i: nat :| Occurs(text, line, i);
    var all := before + text + after;
    assert all[|before| + i..|before| + i + |line|] == text[i..i + |line|];
    assert Occurs(all, line, |before| + i);
  }

  lemma MentionsItself(line: string)
    ensures Mentions(line, line)
  {
    assert Occurs(line, line, 0);
  }

  function LabelLine(labelset: string, name: string): string { "\n - " + name + " (" + labelset + ")" }

  lemma {:induction false} LabelLinesOfTell(labelset: string, labels: seq<string>, j: nat)
    requires j < |labels|
    ensures Mentions(LabelLinesOf(labelset, labels), LabelLine(labelset, labels[j]))
  {
    hide Mentions;
    var line, rest := LabelLine(labelset, labels[0]), LabelLinesOf(labelset, labels[1..]);
    assert LabelLinesOf(labelset, labels) == [] + line + rest == line + rest + [];
    if j == 0 {
      MentionsItself(line);
      MentionsMore([], line, rest, line);
    } else {
      LabelLinesOfTell(labelset, labels[1..], j - 1);
      MentionsMore(line, rest, [], LabelLine(labelset, labels[j]));
    }
  }

  // Every label is listed with its labelset.
  lemma {:induction false} LabelLinesTell(labels: Labels, i: nat, j: nat)
    requires i < |labels| && j < |labels[i].1|
    ensures Mentions(LabelLines(labels), LabelLine(labels[i].0, labels[i].1[j]))
  {
    hide Mentions, LabelLine, LabelLinesOf;
    var own, rest := LabelLinesOf(labels[0].0, labels[0].1), LabelLines(labels[1..]);
    assert LabelLines(labels) == [] + own + rest == own + rest + [];
    var line := LabelLine(labels[i].0, labels[i].1[j]);
    if i == 0 {
      LabelLinesOfTell(labels[0].0, labels[0].1, j);
      MentionsMore([], own, rest, line);
    } else {
      LabelLinesTell(labels[1..], i - 1, j);
      MentionsMore(own, rest, [], line);
    }
  }

  lemma {:induction false} TokenLinesTell(tokens: seq<string>, j: nat)
    requires j < |tokens|
    ensures Mentions(TokenLines(tokens), "\n   - " + tokens[j])
  {
    hide Mentions;
    var line, rest := "\n   - " + tokens[0], TokenLines(tokens[1..]);
    assert TokenLines(tokens) == [] + line + rest == line + rest + [];
    if j == 0 {
      MentionsItself(line);
      MentionsMore([], line, rest, line);
    } else {
      TokenLinesTell(tokens[1..], j - 1);
      MentionsMore(line, rest, [], "\n   - " + tokens[j]);
    }
  }

  // Every family of entities is listed, and every token behind its family.
  lemma {:induction false} EntityLinesTell(entities: seq<(string, seq<string>)>, i: nat)
    requires i < |entities|
    ensures Mentions(EntityLines(entities), "\n - " + entities[i].0 + ":" + TokenLines(entities[i].1))
  {
    hide TokenLines, Mentions;
    var own, rest := "\n - " + entities[0].0 + ":" + TokenLines(entities[0].1), EntityLines(entities[1..]);
    assert EntityLines(entities) == [] + own + rest == own + rest + [];
    if i == 0 {
      MentionsItself(own);
      MentionsMore([], own, rest, own);
    } else {
      var line := "\n - " + entities[i].0 + ":" + TokenLines(entities[i].1);
      EntityLinesTell(entities[1..], i - 1);
      hide EntityLines;
      assert entities[1..][i - 1] == entities[i];
      MentionsMore(own, rest, [], line);
    }
  }

  // The lists are their lines and nothing else.
  lemma {:induction false} LabelLinesConcat(a: Labels, b: Labels)
    ensures LabelLines([]) == "" && LabelLines(a + b) == LabelLines(a) + LabelLines(b)
  {
    if a == [] {
      assert a + b == b;
    } else {
      assert (a + b)[1..] == a[1..] + b;
      LabelLinesConcat(a[1..], b);
    }
  }

  lemma {:induction false} LabelLinesOfConcat(labelset: string, a: seq<string>, b: seq<string>)
    ensures LabelLines([(labelset, a)]) == LabelLinesOf(labelset, a)
    ensures LabelLinesOf(labelset, []) == ""
    ensures forall name :: LabelLinesOf(labelset, [name]) == LabelLine(labelset, name)
    ensures LabelLinesOf(labelset, a + b) == LabelLinesOf(labelset, a) + LabelLinesOf(labelset, b)
  {
    assert [(labelset, a)][1..] == [];
    forall name ensures LabelLinesOf(labelset, [name]) == LabelLine(labelset, name) { assert [name][1..] == []; }
    if a == [] {
      assert a + b == b;
    } else {
      assert (a + b)[1..] == a[1..] + b;
      LabelLinesOfConcat(labelset, a[1..], b);
    }
  }

  lemma {:induction false} EntityLinesConcat(a: seq<(string, seq<string>)>, b: seq<(string, seq<string>)>)
    ensures EntityLines([]) == "" && EntityLines(a + b) == EntityLines(a) + EntityLines(b)
  {
    if a == [] {
      assert a + b == b;
    } else {
      assert (a + b)[1..] == a[1..] + b;
      EntityLinesConcat(a[1..], b);
    }
  }

  lemma {:induction false} TokenLinesConcat(a: seq<string>, b: seq<string>)
    ensures TokenLines([]) == "" && TokenLines(a + b) == TokenLines(a) + TokenLines(b)
    ensures forall token :: TokenLines([token]) == "\n   - " + token
  {
    forall token ensures TokenLines([token]) == "\n   - " + token { assert [token][1..] == []; }
    if a == [] {
      assert a + b == b;
    } else {
      assert (a + b)[1..] == a[1..] + b;
      TokenLinesConcat(a[1..], b);
    }
  }

  function Headed(header: string, body: Option<string>): string {
    if body.Some? then header + body.value else ""
  }

  function LabelsAnswered(a: Augmented, id: TextBlockId): (Labels, Labels) {
    var resource, field := Find(a.resources, id.Rid()), Find(a.fields, id.FieldOf().Full());
    (if resource.Some? then resource.value.labels else [], if field.Some? then field.value.labels else [])
  }

  // Behind the text of a block stand the origin and the extra metadata answered for its resource,
  // the labels answered for its resource and then for its field, and the entities answered for
  // its field; each under its heading, and only what was answered.
  lemma SuffixTells(id: TextBlockId, a: Augmented) returns (origin: string, extra: string, labels: string, ners: string)
    ensures Suffix(Pieces(id, a)) == origin + extra + labels + ners
    ensures forall r :: IsAnswer(a.resources, id.Rid(), r) ==>
      origin == Headed("\n\nDOCUMENT METADATA AT ORIGIN:\n", r.origin) &&
      extra == Headed("\n\nDOCUMENT EXTRA METADATA:\n", r.extra)
    ensures (forall r :: !IsAnswer(a.resources, id.Rid(), r)) ==> origin == "" && extra == ""
    ensures var (own, fields) := LabelsAnswered(a, id);
      labels == if own == [] && fields == [] then ""
                else "\n\nDOCUMENT CLASSIFICATION LABELS:" + LabelLines(own) + LabelLines(fields)
    ensures forall f :: IsAnswer(a.fields, id.FieldOf().Full(), f) ==>
      ners == if f.entities == [] then ""
              else "\n\nDOCUMENT NAMED ENTITIES (NERs):" + EntityLines(f.entities)
    ensures (forall f :: !IsAnswer(a.fields, id.FieldOf().Full(), f)) ==> ners == ""
  {
    var resource, field := Find(a.resources, id.Rid()), Find(a.fields, id.FieldOf().Full());
    forall r ensures resource == Some(r) <==> IsAnswer(a.resources, id.Rid(), r) {
      FindExact(a.resources, id.Rid(), r);
    }
    forall f ensures field == Some(f) <==> IsAnswer(a.fields, id.FieldOf().Full(), f) {
      FindExact(a.fields, id.FieldOf().Full(), f);
    }
    hide Find, IsAnswer, LabelLines, EntityLines, Pieces, Suffix;
    var (own, fields) := LabelsAnswered(a, id);
    origin, extra, labels, ners := OriginText(resource), ExtraText(resource), LabelText(own, fields), NersText(field);
    PiecesSuffix(id, a);
  }

  function OriginText(resource: Option<AugmentedResource>): string {
    if resource.Some? then Headed("\n\nDOCUMENT METADATA AT ORIGIN:\n", resource.value.origin) else ""
  }

  function ExtraText(resource: Option<AugmentedResource>): string {
    if resource.Some? then Headed("\n\nDOCUMENT EXTRA METADATA:\n", resource.value.extra) else ""
  }

  function LabelText(own: Labels, fields: Labels): string {
    if own == [] && fields == [] then ""
    else "\n\nDOCUMENT CLASSIFICATION LABELS:" + LabelLines(own) + LabelLines(fields)
  }

  function NersText(field: Option<AugmentedField>): string {
    if field.None? || field.value.entities == [] then ""
    else "\n\nDOCUMENT NAMED ENTITIES (NERs):" + EntityLines(field.value.entities)
  }

  lemma PiecesSuffix(id: TextBlockId, a: Augmented)
    ensures var resource, field := Find(a.resources, id.Rid()), Find(a.fields, id.FieldOf().Full());
      var (own, fields) := LabelsAnswered(a, id);
      Suffix(Pieces(id, a)) ==
        OriginText(resource) + ExtraText(resource) + LabelText(own, fields) + NersText(field)
  {
    hide Find, LabelLines, EntityLines, Suffix;
    var resource, field := Find(a.resources, id.Rid()), Find(a.fields, id.FieldOf().Full());
    var (own, fields) := LabelsAnswered(a, id);
    var o := if resource.Some? && resource.value.origin.Some? then [Piece(OriginText(resource), true)] else [];
    var e := if resource.Some? && resource.value.extra.Some? then [Piece(ExtraText(resource), true)] else [];
    var l := if own != [] || fields != [] then [Piece(LabelText(own, fields), false)] else [];
    var n := if field.Some? && field.value.entities != [] then [Piece(NersText(field), false)] else [];
    assert Pieces(id, a) == o + e + l + n;
    SuffixNone();
    SuffixConcat(o + e + l, n);
    SuffixConcat(o + e, l);
    SuffixConcat(o, e);
    SuffixConcat([], o);
    hide Pieces;
  }

  // A block that is missing is an error when its resource was answered with origin or extra
  // metadata; labels and entities of a missing block are passed over.
  lemma MissingBlock(es: Dict, id: TextBlockId, a: Augmented)
    requires !Has(es, id.Full())
    ensures var resource := Find(a.resources, id.Rid());
      Apply(es, Extends(id.Full(), Pieces(id, a))) ==
        if resource.Some? && (resource.value.origin.Some? || resource.value.extra.Some?) then Err(KeyError) else Ok(es)
  {
    hide Find, LabelLines, EntityLines, Has;
    var resource := Find(a.resources, id.Rid());
    var pieces := Pieces(id, a);
    if resource.Some? && (resource.value.origin.Some? || resource.value.extra.Some?) {
      assert pieces[0].strict;
      assert Step(es, Extends(id.Full(), pieces)[0]) == Err(KeyError);
    } else {
      assert forall p :: p in pieces ==> !p.strict;
      LoosePieces(es, id.Full(), pieces);
    }
  }

  lemma {:induction false} LoosePieces(es: Dict, key: string, pieces: seq<Piece>)
    requires !Has(es, key) && forall p :: p in pieces ==> !p.strict
    ensures Apply(es, Extends(key, pieces)) == Ok(es)
  {
    hide Has;
    if pieces != [] {
      assert pieces[0] in pieces && forall p :: p in pieces[1..] ==> p in pieces;
      LoosePieces(es, key, pieces[1..]);
      assert Extends(key, pieces)[1..] == Extends(key, pieces[1..]);
    }
  }

  lemma SuffixNone()
    ensures Suffix([]) == ""
  {
  }

  lemma {:induction false} SuffixConcat(a: seq<Piece>, b: seq<Piece>)
    ensures Suffix(a + b) == Suffix(a) + Suffix(b)
    ensures |b| == 1 ==> Suffix(b) == b[0].suffix
  {
    if a == [] {
      assert a + b == b;
    } else {
      assert (a + b)[1..] == a[1..] + b;
      SuffixConcat(a[1..], b);
    }
  }

  // On keys that print back, nothing is ever missing, and the result is the untouched blocks in
  // their old order followed by the extended ones in their old order.
  lemma MetadataExact(es: Dict, types: Types, a: Augmented, codes: Codes)
    requires Distinct(es) && AllFaithful(es, codes)
    requires types.origin || types.extra || types.labels || types.ners
    ensures Apply(es, MetadataEdits(es, types, a, codes)) == Ok(Untouched(es, a, codes) + Extended(es, a, codes))
  {
    hide Apply, Faithful, Untouched, Extended, IdsOf, ExtendAll;
    var untouched, extended := Untouched(es, a, codes), Extended(es, a, codes);
    assert [] + es + [] == es;
    ExtendFrom([], es, [], a, codes);
    assert [] + untouched + [] + extended == untouched + extended;
  }

  // Mid-way: `kept` and `done` are finished, `es` is still to come.
  lemma {:induction false} ExtendFrom(kept: Dict, es: Dict, done: Dict, a: Augmented, codes: Codes)
    requires Distinct(kept + es + done) && AllFaithful(es, codes)
    ensures Apply(kept + es + done, ExtendAll(IdsOf(es, codes), a)) ==
            Ok(kept + Untouched(es, a, codes) + done + Extended(es, a, codes))
    decreases |es|
  {
    if es == [] {
      assert kept + [] + done == kept + [] + done + [];
      ApplyNone(kept + es + done);
    } else {
      var e, rest := es[0], es[1..];
      var pieces := PiecesAt(e.key, a, codes);
      assert es == [e] + rest;
      hide Apply, Faithful, Untouched, Extended, IdsOf, ExtendAll, PiecesAt, Distinct;
      SameKeys(kept, e, rest, done, Suffix(pieces));
      if pieces == [] {
        PlainHead(kept, es, done, a, codes);
        ExtendFrom(kept + [e], rest, done, a, codes);
        UntouchedHead(kept, es, done, a, codes);
      } else {
        MovedHead(kept, es, done, a, codes);
        ExtendFrom(kept, rest, done + [Entry(e.key, e.text + Suffix(pieces))], a, codes);
        ExtendedHead(kept, es, done, a, codes);
      }
    }
  }

  lemma UntouchedHead(kept: Dict, es: Dict, done: Dict, a: Augmented, codes: Codes)
    requires es != [] && PiecesAt(es[0].key, a, codes) == []
    ensures kept + [es[0]] + Untouched(es[1..], a, codes) + done + Extended(es[1..], a, codes) ==
            kept + Untouched(es, a, codes) + done + Extended(es, a, codes)
  {
    hide PiecesAt;
    var untouched := Untouched(es[1..], a, codes);
    assert Untouched(es, a, codes) == [es[0]] + untouched;
    assert Extended(es, a, codes) == Extended(es[1..], a, codes);
    assert kept + [es[0]] + untouched == kept + ([es[0]] + untouched);
  }

  lemma ExtendedHead(kept: Dict, es: Dict, done: Dict, a: Augmented, codes: Codes)
    requires es != [] && PiecesAt(es[0].key, a, codes) != []
    ensures var new' := Entry(es[0].key, es[0].text + Suffix(PiecesAt(es[0].key, a, codes)));
            kept + Untouched(es[1..], a, codes) + (done + [new']) + Extended(es[1..], a, codes) ==
            kept + Untouched(es, a, codes) + done + Extended(es, a, codes)
  {
    hide PiecesAt;
    var new' := Entry(es[0].key, es[0].text + Suffix(PiecesAt(es[0].key, a, codes)));
    var front, extended := kept + Untouched(es[1..], a, codes), Extended(es[1..], a, codes);
    assert Untouched(es, a, codes) == Untouched(es[1..], a, codes);
    assert Extended(es, a, codes) == [new'] + extended;
    hide Untouched, Extended, Suffix;
    assert front + (done + [new']) + extended == front + done + ([new'] + extended);
  }

  // Both forms the next step can leave have distinct keys.
  lemma SameKeys(kept: Dict, e: Entry, rest: Dict, done: Dict, suffix: string)
    requires Distinct(kept + ([e] + rest) + done)
    ensures Distinct(kept + [e] + rest + done)
    ensures Distinct(kept + rest + (done + [Entry(e.key, e.text + suffix)]))
  {
    var es := kept + ([e] + rest) + done;
    assert kept + [e] + rest + done == es;
    var moved := kept + rest + (done + [Entry(e.key, e.text + suffix)]);
    var n := |moved| - 1;
    assert forall i :: 0 <= i < |kept| ==> moved[i] == es[i];
    assert forall i :: |kept| <= i < n ==> moved[i] == es[i + 1];
    assert es[|kept|] == e && moved[n].key == e.key;
  }

  lemma IdsHead(es: Dict, a: Augmented, codes: Codes)
    requires es != [] && Faithful(es[0].key, codes)
    ensures ExtendAll(IdsOf(es, codes), a) ==
            Extends(es[0].key, PiecesAt(es[0].key, a, codes)) + ExtendAll(IdsOf(es[1..], codes), a)
  {
    hide Pieces;
    var id := ParseTextBlock(es[0].key, codes);
    var rest := IdsOf(es[1..], codes);
    if id.Some? {
      assert ([id.value] + rest)[1..] == rest;
    } else {
      assert [] + rest == rest;
    }
  }

  lemma PlainHead(kept: Dict, es: Dict, done: Dict, a: Augmented, codes: Codes)
    requires es != [] && Faithful(es[0].key, codes) && PiecesAt(es[0].key, a, codes) == []
    ensures Apply(kept + es + done, ExtendAll(IdsOf(es, codes), a)) ==
            Apply(kept + [es[0]] + es[1..] + done, ExtendAll(IdsOf(es[1..], codes), a))
  {
    hide PiecesAt, IdsOf, Faithful, ExtendAll, Apply;
    IdsHead(es, a, codes);
    var more := ExtendAll(IdsOf(es[1..], codes), a);
    assert [] + more == more;
    assert kept + [es[0]] + es[1..] + done == kept + es + done;
  }

  lemma MovedHead(kept: Dict, es: Dict, done: Dict, a: Augmented, codes: Codes)
    requires es != [] && Distinct(kept + es + done) && Faithful(es[0].key, codes) && PiecesAt(es[0].key, a, codes) != []
    ensures var e' := Entry(es[0].key, es[0].text + Suffix(PiecesAt(es[0].key, a, codes)));
            Apply(kept + es + done, ExtendAll(IdsOf(es, codes), a)) ==
            Apply(kept + es[1..] + (done + [e']), ExtendAll(IdsOf(es[1..], codes), a))
  {
    hide *;
    var e, rest := es[0], es[1..];
    var pieces := PiecesAt(e.key, a, codes);
    var e' := Entry(e.key, e.text + Suffix(pieces));
    IdsHead(es, a, codes);
    ApplyConcat(kept + es + done, Extends(e.key, pieces), ExtendAll(IdsOf(rest, codes), a));
    assert kept + [e] + (rest + done) == kept + es + done;
    ExtendsMoves(kept, e, rest + done, pieces);
    assert kept + (rest + done) + [e'] == kept + rest + (done + [e']);
  }

  // Appending pieces to one block moves it to the end, with all of them behind its text.
  lemma {:induction false} ExtendsMoves(before: Dict, e: Entry, after: Dict, pieces: seq<Piece>)
    requires Distinct(before + [e] + after) && pieces != []
    ensures Apply(before + [e] + after, Extends(e.key, pieces)) ==
      Ok(before + after + [Entry(e.key, e.text + Suffix(pieces))])
    decreases |pieces|
  {
    var es := before + [e] + after;
    var p := pieces[0];
    var e' := Entry(e.key, e.text + p.suffix);
    AtUnique(es, |before|);
    assert es[|before|] == e;
    assert es[..|before|] == before && es[|before| + 1..] == after;
    assert Step(es, Extend(e.key, p.suffix, p.strict)) == Ok(before + after + [e']);
    assert Extends(e.key, pieces)[1..] == Extends(e.key, pieces[1..]);
    hide Step;
    if |pieces| == 1 {
      assert pieces[1..] == [];
      assert Suffix(pieces) == p.suffix;
      ApplyNone(before + after + [e']);
    } else {
      MovedDistinct(before, e, after, e');
      assert before + after + [e'] + [] == before + after + [e'];
      ExtendsMoves(before + after, e', [], pieces[1..]);
      assert before + after + [] == before + after;
      assert e.text + p.suffix + Suffix(pieces[1..]) == e.text + (p.suffix + Suffix(pieces[1..]));
    }
  }

  lemma MovedDistinct(before: Dict, e: Entry, after: Dict, e': Entry)
    requires Distinct(before + [e] + after) && e'.key == e.key
    ensures Distinct(before + after + [e'] + [])
  {
    var es, moved := before + [e] + after, before + after + [e'] + [];
    assert forall i :: 0 <= i < |before| ==> moved[i] == es[i];
    assert forall i :: |before| <= i < |moved| - 1 ==> moved[i] == es[i + 1];
    assert es[|before|] == e && moved[|moved| - 1] == e';
  }

  function Count(es: Dict, key: string): nat {
    if es == [] then 0 else (if es[0].key == key then 1 else 0) + Count(es[1..], key)
  }

  // No key is lost, doubled or invented.
  lemma {:induction false} MetadataKeys(es: Dict, key: string, a: Augmented, codes: Codes)
    ensures Count(Untouched(es, a, codes) + Extended(es, a, codes), key) == Count(es, key)
  {
    hide PiecesAt, Suffix;
    CountConcat(Untouched(es, a, codes), Extended(es, a, codes), key);
    if es != [] {
      MetadataKeys(es[1..], key, a, codes);
      CountConcat(Untouched(es[1..], a, codes), Extended(es[1..], a, codes), key);
      if PiecesAt(es[0].key, a, codes) == [] {
        assert Untouched(es, a, codes)[1..] == Untouched(es[1..], a, codes);
        assert Extended(es, a, codes) == Extended(es[1..], a, codes);
      } else {
        assert Untouched(es, a, codes) == Untouched(es[1..], a, codes);
        assert Extended(es, a, codes)[1..] == Extended(es[1..], a, codes);
      }
    }
  }

  lemma {:induction false} CountConcat(es: Dict, more: Dict, key: string)
    ensures Count(es + more, key) == Count(es, key) + Count(more, key)
  {
    if es == [] {
      assert es + more == more;
    } else {
      assert (es + more)[1..] == es[1..] + more;
      CountConcat(es[1..], more, key);
    }
  }

  // Every old text is the front of the new text under its key.
  lemma {:induction false} MetadataHas(es: Dict, i: nat, a: Augmented, codes: Codes)
    requires i < |es|
    ensures Entry(es[i].key, es[i].text + Suffix(PiecesAt(es[i].key, a, codes))) in Untouched(es, a, codes) +
      Extended(es, a, codes)
  {
    hide PiecesAt;
    if i == 0 {
      var e' := Entry(es[0].key, es[0].text + Suffix(PiecesAt(es[0].key, a, codes)));
      if PiecesAt(es[0].key, a, codes) == [] {
        assert e' == es[0] && Untouched(es, a, codes)[0] == e';
      } else {
        assert Extended(es, a, codes)[0] == e';
      }
    } else {
      MetadataHas(es[1..], i - 1, a, codes);
      assert forall e :: e in Untouched(es[1..], a, codes) ==> e in Untouched(es, a, codes);
      assert forall e :: e in Extended(es[1..], a, codes) ==> e in Extended(es, a, codes);
    }
  }

  // ----- the method -----

  method CollectIds(context: CappedPromptContext, codes: Codes) returns (ids: seq<TextBlockId>)
    requires context.Valid()
    ensures ids == IdsOf(context.output, codes)
  {
    hide ParseTextBlock;
    var es := context.output;
    ids := [];
    assert es[0..] == es;
    for i := 0 to |es|
      invariant ids + IdsOf(es[i..], codes) == IdsOf(es, codes)
    {
      assert es[i..][1..] == es[i + 1..];
      var id := ParseTextBlock(es[i].key, codes);
      if id.Some? {
        assert ids + ([id.value] + IdsOf(es[i + 1..], codes)) == (ids + [id.value]) + IdsOf(es[i + 1..], codes);
        ids := ids + [id.value];
      }
    }
  }

  // Pop the block's text and set it again, extended; only a strict piece fails on a missing block.
  method ExtendItem(context: CappedPromptContext, key: string, piece: Piece) returns (r: Outcome<Error>)
    requires context.Valid()
    modifies context`output
    ensures context.Valid()
    ensures Step(old(context.output), Extend(key, piece.suffix, piece.strict)) ==
            if r.Pass? then Ok(context.output) else Err(KeyError)
  {
    if !piece.strict && !context.Contains(key) {
      return Pass;
    }
    DropDistinct(context.output, key);
    var text := context.Pop(key);
    if text.Err? {
      return Fail(text.error);
    }
    context.SetItem(key, text.value + piece.suffix);
    return Pass;
  }

  method ExtendBlock(context: CappedPromptContext, key: string, pieces: seq<Piece>) returns (r: Outcome<Error>)
    requires context.Valid()
    modifies context`output
    ensures context.Valid()
    ensures Apply(old(context.output), Extends(key, pieces)) == if r.Pass? then Ok(context.output) else Err(KeyError)
  {
    hide Step;
    assert pieces[0..] == pieces;
    for i := 0 to |pieces|
      invariant context.Valid()
      invariant Apply(context.output, Extends(key, pieces[i..])) == Apply(old(context.output), Extends(key, pieces))
    {
      assert pieces[i..][1..] == pieces[i + 1..];
      assert Extends(key, pieces[i..])[1..] == Extends(key, pieces[i + 1..]);
      r := ExtendItem(context, key, pieces[i]);
      if r.Fail? {
        return Fail(KeyError);
      }
    }
    return Pass;
  }

  // extend_prompt_context_with_metadata
  method ExtendContext(context: CappedPromptContext, types: Types, a: Augmented, codes: Codes)
    returns (r: Outcome<Error>)
    requires context.Valid()
    modifies context`output
    ensures context.Valid()
    ensures Apply(old(context.output), MetadataEdits(old(context.output), types, a, codes)) ==
            if r.Pass? then Ok(context.output) else Err(KeyError)
    ensures r.Fail? ==> r.error == KeyError
  {
    hide Apply, IdsOf, Extends, Pieces;
    var ids := CollectIds(context, codes);
    ApplyNone(context.output);
    if |ids| == 0 || !(types.origin || types.extra || types.labels || types.ners) {
      return Pass;
    }
    assert ids[0..] == ids;
    for i := 0 to |ids|
      invariant context.Valid()
      invariant Apply(context.output, ExtendAll(ids[i..], a)) == Apply(old(context.output), ExtendAll(ids, a))
    {
      assert ids[i..][1..] == ids[i + 1..];
      ApplyConcat(context.output, Extends(ids[i].Full(), Pieces(ids[i], a)), ExtendAll(ids[i + 1..], a));
      r := ExtendBlock(context, ids[i].Full(), Pieces(ids[i], a));
      if r.Fail? {
        return Fail(KeyError);
      }
    }
    ApplyNone(context.output);
    return Pass;
  }
}
