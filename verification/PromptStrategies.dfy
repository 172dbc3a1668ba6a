// The default and neighbouring-paragraphs strategies of ask/search/prompt.py, with what all the
// strategies share: the retrieved paragraphs and the answers of the augment call.  Each method
// makes the edits its specification function lists.
module PromptStrategies {
  import opened Basics
  import opened Text
  import opened OrderedDict
  import opened Ids
  import opened PromptContext
  import opened PromptEdits

  datatype ScoreType = VECTOR | BOTH | OTHER(code: int)

  datatype Paragraph = Paragraph(id: string, text: string, labels: seq<string>, scoreType: ScoreType)

  // ----- what the augment call answers -----

  datatype Message = Message(ident: string, text: Option<string>)

  type Labels = seq<(string, seq<string>)>

  // `messages` is given for conversation fields only; `entities` are sorted per family.
  datatype AugmentedField = AugmentedField(text: Option<string>, messages: Option<seq<Message>>,
      attachments: seq<string>,
                                           labels: Labels, entities: seq<(string, seq<string>)>)

  // `origin` and `extra` as the YAML text of the two objects.
  datatype AugmentedResource = AugmentedResource(title: Option<string>, summary: Option<string>,
                                                 origin: Option<string>, extra: Option<string>, labels: Labels)

  datatype AugmentedParagraph = AugmentedParagraph(text: Option<string>, before: seq<string>, after: seq<string>)

  datatype Augmented = Augmented(resources: seq<(string, AugmentedResource)>, fields: seq<(string, AugmentedField)>,
                                 paragraphs: seq<(string, AugmentedParagraph)>)

  // d.get(key)
  function Find<V>(pairs: seq<(string, V)>, key: string): Option<V> {
    if pairs == [] then None
    else if pairs[0].0 == key then Some(pairs[0].1)
    else Find(pairs[1..], key)
  }

  // The answer under a key.
  ghost predicate IsAnswer<V>(pairs: seq<(string, V)>, key: string, v: V) {
    exists i :: 0 <= i < |pairs| && pairs[i] == (key, v) && forall j :: 0 <= j < i ==> pairs[j].0 != key
  }

  lemma {:induction false} FindExact<V>(pairs: seq<(string, V)>, key: string, v: V)
    ensures Find(pairs, key) == Some(v) <==> IsAnswer(pairs, key, v)
    ensures Find(pairs, key).None? <==> forall i :: 0 <= i < |pairs| ==> pairs[i].0 != key
  {
    if pairs != [] && pairs[0].0 != key {
      FindExact(pairs[1..], key, v);
      assert forall i :: 0 < i < |pairs| ==> pairs[1..][i - 1] == pairs[i];
      if IsAnswer(pairs[1..], key, v) {
        var i :| 0 <= i < |pairs[1..]| && pairs[1..][i] == (key, v) && forall j :: 0 <= j < i ==>
          pairs[1..][j].0 != key;
        assert pairs[i + 1] == (key, v) && forall j :: 0 <= j < i + 1 ==> pairs[j].0 != key;
      }
      if IsAnswer(pairs, key, v) {
        var i :| 0 <= i < |pairs| && pairs[i] == (key, v) && forall j :: 0 <= j < i ==> pairs[j].0 != key;
        assert pairs[1..][i - 1] == (key, v) && forall j :: 0 <= j < i - 1 ==> pairs[1..][j].0 != key;
      }
    }
  }

  // ----- what retrieval and the augment call promise -----

  predicate ParagraphIdOk(id: string, codes: Codes) {
    ParseParagraph(id, codes).Some? && ParseParagraph(id, codes).value.Full() == id
  }

  predicate AllRetrieved(ps: seq<Paragraph>, codes: Codes) {
    forall i :: 0 <= i < |ps| ==> ParagraphIdOk(ps[i].id, codes)
  }

  predicate NeighboursOk(a: Augmented, ids: seq<string>, codes: Codes) {
    forall i :: 0 <= i < |ids| ==> ParagraphIdOk(ids[i], codes) && Find(a.paragraphs, ids[i]).Some?
  }

  // Ids are printed forms of ids, and a paragraph never names a neighbour that is not there.
  predicate AnswerOk(a: Augmented, codes: Codes) {
    && (forall i :: 0 <= i < |a.resources| ==> '/' !in a.resources[i].0)
    && (forall i :: 0 <= i < |a.fields| ==> Canonical(a.fields[i].0, codes))
    && (forall i :: 0 <= i < |a.paragraphs| ==>
          NeighboursOk(a, a.paragraphs[i].1.before, codes) && NeighboursOk(a, a.paragraphs[i].1.after, codes))
  }

  lemma {:induction false} FindMember<V>(pairs: seq<(string, V)>, key: string)
    requires Find(pairs, key).Some?
    ensures exists i :: 0 <= i < |pairs| && pairs[i] == (key, Find(pairs, key).value)
  {
    if pairs[0].0 != key {
      FindMember(pairs[1..], key);
      var i :| 0 <= i < |pairs[1..]| && pairs[1..][i] == (key, Find(pairs[1..], key).value);
      assert pairs[i + 1] == pairs[1..][i];
    }
  }

  function Pid(p: Paragraph, codes: Codes): ParagraphId
    requires ParagraphIdOk(p.id, codes)
  {
    ParseParagraph(p.id, codes).value
  }

  lemma RetrievedCanonical(id: string, codes: Codes)
    requires ParagraphIdOk(id, codes)
    ensures Canonical(id, codes)
  {
    ParagraphCanonical(ParseParagraph(id, codes).value, codes);
  }

  // ----- texts -----

  // The ASCII characters str.strip() takes off.
  predicate IsWhitespace(c: char) { c == ' ' || '\t' <= c <= '\r' || '\U{1c}' <= c <= '\U{1f}' }

  // s.replace(mark, "")
  function Without(s: string, mark: string): string
    requires mark != []
    decreases |s|
  {
    if |s| < |mark| then s
    else if mark <= s then Without(s[|mark|..], mark)
    else [s[0]] + Without(s[1..], mark)
  }

  // _clean_paragraph_text
  function Clean(text: string): string {
    Without(Without(Strip(text, IsWhitespace), "<mark>"), "</mark>")
  }

  predicate Occurs(s: string, mark: string, i: nat) { i + |mark| <= |s| && s[i..i + |mark|] == mark }

  ghost predicate FirstAt(s: string, mark: string, i: nat) {
    Occurs(s, mark, i) && forall j :: 0 <= j < i ==> !Occurs(s, mark, j)
  }

  ghost predicate NoMark(s: string, mark: string) { forall i: nat :: !Occurs(s, mark, i) }

  lemma WithoutHere(mark: string, b: string)
    requires mark != []
    ensures Without(mark + b, mark) == Without(b, mark)
  {
    assert (mark + b)[|mark|..] == b;
  }

  lemma WithoutSkip(s: string, mark: string)
    requires mark != [] && s != [] && !Occurs(s, mark, 0)
    ensures Without(s, mark) == [s[0]] + Without(s[1..], mark)
  {
    if |s| < |mark| {
      assert s == [s[0]] + s[1..];
    }
  }

  lemma FirstLater(s: string, mark: string, i: nat)
    requires s != [] && FirstAt(s, mark, i + 1)
    ensures !Occurs(s, mark, 0) && FirstAt(s[1..], mark, i)
  {
    OccursLater(s, mark, i);
    forall j | 0 <= j < i ensures !Occurs(s[1..], mark, j) { OccursLater(s, mark, j); }
  }

  // Occurrences go one after the other, from the front.
  lemma {:induction false} WithoutFirst(a: string, mark: string, b: string)
    requires mark != [] && FirstAt(a + mark + b, mark, |a|)
    ensures Without(a + mark + b, mark) == a + Without(b, mark)
    decreases |a|
  {
    hide Without, FirstAt, Occurs;
    var s := a + mark + b;
    if a == [] {
      assert s == mark + b;
      WithoutHere(mark, b);
    } else {
      assert s[1..] == a[1..] + mark + b;
      FirstLater(s, mark, |a| - 1);
      WithoutSkip(s, mark);
      WithoutFirst(a[1..], mark, b);
      assert a == [a[0]] + a[1..];
    }
  }

  lemma OccursLater(s: string, mark: string, j: nat)
    requires s != []
    ensures Occurs(s[1..], mark, j) <==> Occurs(s, mark, j + 1)
  {
    if j + 1 + |mark| <= |s| {
      assert s[1..][j..j + |mark|] == s[j + 1..j + 1 + |mark|];
    }
  }

  // What has none is left alone; anything else gets shorter.
  lemma {:induction false} WithoutNone(s: string, mark: string)
    requires mark != []
    ensures |Without(s, mark)| <= |s| && (|Without(s, mark)| == |s| ==> Without(s, mark) == s)
    ensures Without(s, mark) == s <==> NoMark(s, mark)
    decreases |s|
  {
    if |s| < |mark| {
      assert NoMark(s, mark);
    } else {
      hide Without, NoMark, Occurs;
      if mark <= s {
        var rest := s[|mark|..];
        assert s == mark + rest;
        WithoutHere(mark, rest);
        WithoutNone(rest, mark);
        MarkedFront(mark, rest);
      } else {
        NotInFront(s, mark);
        WithoutSkip(s, mark);
        WithoutNone(s[1..], mark);
        NoMarkLater(s, mark);
        assert s == [s[0]] + s[1..];
      }
    }
  }

  lemma MarkedFront(mark: string, rest: string)
    ensures !NoMark(mark + rest, mark)
  {
    assert Occurs(mark + rest, mark, 0);
  }

  lemma NotInFront(s: string, mark: string)
    requires !(mark <= s)
    ensures !Occurs(s, mark, 0)
  {
  }

  lemma NoMarkLater(s: string, mark: string)
    requires s != [] && !Occurs(s, mark, 0)
    ensures NoMark(s, mark) <==> NoMark(s[1..], mark)
  {
    forall i: nat ensures Occurs(s[1..], mark, i) <==> Occurs(s, mark, i + 1) { OccursLater(s, mark, i); }
    if NoMark(s[1..], mark) {
      forall i: nat ensures !Occurs(s, mark, i) { assert i > 0 ==> !Occurs(s[1..], mark, i - 1); }
    }
  }

  lemma WithoutBoth(s: string, m: string, n: string)
    requires m != [] && n != []
    ensures |Without(Without(s, m), n)| <= |s|
    ensures Without(Without(s, m), n) == s <==> NoMark(s, m) && NoMark(s, n)
  {
    hide Without, NoMark;
    WithoutNone(s, m);
    WithoutNone(Without(s, m), n);
  }

  // Cleaning leaves a text alone exactly when it has no blank at either end and neither mark.
  lemma CleanExact(text: string)
    ensures |Clean(text)| <= |text|
    ensures Clean(text) == text <==>
      Tight(text, IsWhitespace) && NoMark(text, "<mark>") && NoMark(text, "</mark>")
  {
    var left, right := StripExact(text, IsWhitespace);
    StripTight(text, IsWhitespace);
    WithoutBoth(Strip(text, IsWhitespace), "<mark>", "</mark>");
    hide Strip, Without, NoMark, Tight;
  }

  // A tag: its angle bracket is its first character and no other.
  predicate Tag(mark: string) { |mark| >= 2 && mark[0] == '<' && '<' !in mark[1..] }

  lemma OnlyMark(a: string, mark: string, b: string)
    requires Tag(mark) && '<' !in a
    ensures Without(a + mark + b, mark) == a + Without(b, mark)
  {
    var s := a + mark + b;
    assert s[|a|..|a| + |mark|] == mark;
    forall j | 0 <= j < |a| ensures !Occurs(s, mark, j) {
      assert s[j] == a[j];
      if j + |mark| <= |s| {
        assert s[j..j + |mark|][0] == s[j];
      }
    }
    WithoutFirst(a, mark, b);
  }

  lemma OtherMark(b: string, other: string, c: string, mark: string)
    requires Tag(other) && Tag(mark) && other[1] != mark[1] && '<' !in b && '<' !in c
    ensures NoMark(b + other + c, mark)
  {
    var s := b + other + c;
    forall i: nat ensures !Occurs(s, mark, i) {
      if i + |mark| <= |s| {
        assert s[i..i + |mark|][0] == s[i] && s[i..i + |mark|][1] == s[i + 1];
        if i < |b| {
          assert s[i] == b[i];
        } else if i == |b| {
          assert s[i + 1] == other[1];
        } else if i < |b| + |other| {
          assert s[i] == other[1..][i - |b| - 1];
        } else {
          assert s[i] == c[i - |b| - |other|];
        }
      }
    }
  }

  lemma TwoMarks(a: string, m: string, b: string, n: string, c: string)
    requires Tag(m) && Tag(n) && m[1] != n[1] && '<' !in a && '<' !in b && '<' !in c
    ensures Without(Without(a + m + (b + n + c), m), n) == a + b + c
  {
    OnlyMark(a, m, b + n + c);
    OtherMark(b, n, c, m);
    WithoutNone(b + n + c, m);
    assert a + (b + n + c) == (a + b) + n + c;
    OnlyMark(a + b, n, c);
    forall i: nat ensures !Occurs(c, n, i) {
      if i + |n| <= |c| {
        assert c[i..i + |n|][0] == c[i];
      }
    }
    WithoutNone(c, n);
  }

  // A highlighted word loses its marks and nothing else.
  lemma CleanMarked(a: string, b: string, c: string)
    requires '<' !in a && '<' !in b && '<' !in c && Tight(a + "<mark>" + (b + "</mark>" + c), IsWhitespace)
    ensures Clean(a + "<mark>" + (b + "</mark>" + c)) == a + b + c
  {
    StripTight(a + "<mark>" + (b + "</mark>" + c), IsWhitespace);
    TwoMarks(a, "<mark>", b, "</mark>", c);
    hide Strip, Without, Tight;
  }

  function TextOf(t: Option<string>): string { if t.Some? then t.value else "" }

  predicate Given(t: Option<string>) { t.Some? && t.value != "" }

  lemma GivenExact(t: Option<string>)
    ensures Given(t) <==> exists first: char, rest :: t == Some([first] + rest)
    ensures TextOf(t) == "" <==> !Given(t)
    ensures Given(t) ==> t == Some(TextOf(t))
  {
    if Given(t) {
      assert t.value == [t.value[0]] + t.value[1..];
    }
  }

  // ----- the paragraphs themselves -----

  function ParagraphEdits(ps: seq<Paragraph>): (edits: seq<Edit>)
    ensures NeverFails(edits)
  {
    if ps == [] then [] else [Set(ps[0].id, Clean(ps[0].text))] + ParagraphEdits(ps[1..])
  }

  function MissingParagraphEdits(ps: seq<Paragraph>): (edits: seq<Edit>)
    ensures NeverFails(edits)
  {
    if ps == [] then [] else [Add(ps[0].id, Clean(ps[0].text))] + MissingParagraphEdits(ps[1..])
  }

  lemma {:induction false} ParagraphEditsOk(ps: seq<Paragraph>, codes: Codes)
    requires AllRetrieved(ps, codes)
    ensures EditsOk(ParagraphEdits(ps), codes) && EditsOk(MissingParagraphEdits(ps), codes)
  {
    hide Clean, Canonical, ParagraphIdOk;
    if ps != [] {
      RetrievedCanonical(ps[0].id, codes);
      ParagraphEditsOk(ps[1..], codes);
    }
  }

  // Some paragraph has this id; and one with this id has this text.
  ghost predicate IsParagraph(key: string, ps: seq<Paragraph>) {
    exists i :: 0 <= i < |ps| && ps[i].id == key
  }

  ghost predicate ParagraphText(key: string, text: string, ps: seq<Paragraph>) {
    exists i :: 0 <= i < |ps| && ps[i].id == key && Clean(ps[i].text) == text
  }

  lemma ParagraphCons(ps: seq<Paragraph>, key: string, text: string)
    requires ps != []
    ensures IsParagraph(key, ps) <==> ps[0].id == key || IsParagraph(key, ps[1..])
    ensures ParagraphText(key, text, ps) <==>
      (ps[0].id == key && Clean(ps[0].text) == text) ||
      ParagraphText(key, text, ps[1..])
  {
    hide Clean;
    assert forall i :: 0 < i < |ps| ==> ps[1..][i - 1] == ps[i];
    if IsParagraph(key, ps[1..]) {
      var i :| 0 <= i < |ps[1..]| && ps[1..][i].id == key;
      assert ps[i + 1] == ps[1..][i];
    }
    if ParagraphText(key, text, ps[1..]) {
      var i :| 0 <= i < |ps[1..]| && ps[1..][i].id == key && Clean(ps[1..][i].text) == text;
      assert ps[i + 1] == ps[1..][i];
    }
  }

  lemma {:induction false} MissingNames(ps: seq<Paragraph>)
    ensures AddsOnly(MissingParagraphEdits(ps))
    ensures forall key :: Names(MissingParagraphEdits(ps), key) <==> IsParagraph(key, ps)
    ensures forall key, text :: Gives(MissingParagraphEdits(ps), key, text) <==> ParagraphText(key, text, ps)
  {
    hide Names, Gives, AddsOnly, Clean;
    NoneNamed();
    if ps != [] {
      MissingNames(ps[1..]);
      var own := Add(ps[0].id, Clean(ps[0].text));
      OneNamed(own);
      ConcatNamed([own], MissingParagraphEdits(ps[1..]));
      hide IsParagraph, ParagraphText;
      forall key ensures IsParagraph(key, ps) <==> ps[0].id == key || IsParagraph(key, ps[1..]) {
        ParagraphCons(ps, key, "");
      }
      forall key, text ensures ParagraphText(key, text, ps) <==>
        (ps[0].id == key && Clean(ps[0].text) == text) || ParagraphText(key, text, ps[1..])
      {
        ParagraphCons(ps, key, text);
      }
    }
  }

  method AddParagraphs(context: CappedPromptContext, ps: seq<Paragraph>)
    requires context.Valid()
    modifies context`output
    ensures context.Valid() && Apply(old(context.output), ParagraphEdits(ps)) == Ok(context.output)
  {
    hide Clean, Put;
    assert ps[0..] == ps;
    for i := 0 to |ps|
      invariant context.Valid()
      invariant Apply(context.output, ParagraphEdits(ps[i..])) == Apply(old(context.output), ParagraphEdits(ps))
    {
      assert ps[i..][1..] == ps[i + 1..];
      ghost var rest := ParagraphEdits(ps[i + 1..]);
      assert ([Set(ps[i].id, Clean(ps[i].text))] + rest)[1..] == rest;
      context.SetItem(ps[i].id, Clean(ps[i].text));
    }
  }

  // if key not in context: context[key] = text
  method AddItem(context: CappedPromptContext, key: string, text: string)
    requires context.Valid()
    modifies context`output
    ensures context.Valid() && Step(old(context.output), Add(key, text)) == Ok(context.output)
    ensures Apply(old(context.output), [Add(key, text)]) == Ok(context.output)
  {
    ApplyOne(context.output, Add(key, text));
    if !context.Contains(key) {
      context.SetItem(key, text);
    }
  }

  method AddMissingParagraphs(context: CappedPromptContext, ps: seq<Paragraph>)
    requires context.Valid()
    modifies context`output
    ensures context.Valid() && Apply(old(context.output), MissingParagraphEdits(ps)) == Ok(context.output)
  {
    hide Clean, Step;
    assert ps[0..] == ps;
    for i := 0 to |ps|
      invariant context.Valid()
      invariant Apply(context.output, MissingParagraphEdits(ps[i..])) ==
        Apply(old(context.output), MissingParagraphEdits(ps))
    {
      assert ps[i..][1..] == ps[i + 1..];
      ghost var rest := MissingParagraphEdits(ps[i + 1..]);
      assert ([Add(ps[i].id, Clean(ps[i].text))] + rest)[1..] == rest;
      AddItem(context, ps[i].id, Clean(ps[i].text));
    }
  }

  // ----- default -----

  // The conversations whose answer is asked for: those matched by meaning.
  function Conversations(ps: seq<Paragraph>): seq<string> {
    if ps == [] then [] else ConversationOf(ps[0]) + Conversations(ps[1..])
  }

  function ConversationOf(p: Paragraph): seq<string> {
    var parts := Split(p.id, '/');
    if |parts| >= 4 && parts[1] == "c" && (p.scoreType.VECTOR? || p.scoreType.BOTH?)
    then [parts[0] + "/" + parts[1] + "/" + parts[2] + "/" + parts[3]]
    else []
  }

  // The paragraph was matched by meaning, in a conversation, and id is the first four parts of its id.
  ghost predicate Asks(p: Paragraph, id: string) {
    && p.scoreType in {VECTOR, BOTH}
    && var parts := Split(p.id, '/');
       |parts| >= 4 && parts[1] == "c" && Split(id, '/') == parts[..4]
  }

  lemma ConversationAsks(p: Paragraph, id: string)
    ensures id in ConversationOf(p) <==> Asks(p, id)
  {
    var parts := Split(p.id, '/');
    SplitSound(p.id, '/');
    SplitSound(id, '/');
    if |parts| >= 4 {
      SplitJoin(parts[..4], '/');
      JoinFour(parts[0], parts[1], parts[2], parts[3]);
      assert parts[..4] == [parts[0], parts[1], parts[2], parts[3]];
    }
    hide Split, Join;
  }

  lemma JoinFour(a: string, b: string, c: string, d: string)
    ensures Join([a, b, c, d], '/') == a + "/" + b + "/" + c + "/" + d
  {
    assert [a, b, c, d][1..] == [b, c, d] && [b, c, d][1..] == [c, d] && [c, d][1..] == [d];
    var last := Join([c, d], '/');
    assert Join([d], '/') == d;
    assert last == c + ['/'] + d;
    var rest := Join([b, c, d], '/');
    assert rest == b + ['/'] + last;
    assert Join([a, b, c, d], '/') == a + ['/'] + rest;
    hide Join;
    Regrouped(a, b, c, d);
  }

  lemma Regrouped(a: string, b: string, c: string, d: string)
    ensures a + ['/'] + (b + ['/'] + (c + ['/'] + d)) == a + "/" + b + "/" + c + "/" + d
  {
    assert b + ['/'] + (c + ['/'] + d) == b + "/" + c + "/" + d;
  }

  // The conversations asked about are those of the paragraphs matched by meaning.
  lemma {:induction false} ConversationsExact(ps: seq<Paragraph>, id: string)
    ensures id in Conversations(ps) <==> exists p :: p in ps && Asks(p, id)
  {
    hide ConversationOf, Asks;
    if ps != [] {
      ConversationAsks(ps[0], id);
      ConversationsExact(ps[1..], id);
      assert forall p :: p in ps <==> p == ps[0] || p in ps[1..];
    }
  }

  function MessageEdits(f: FieldId, messages: seq<Message>): (edits: seq<Edit>)
    ensures NeverFails(edits)
  {
    if messages == [] then []
    else
      var m := messages[0];
      (if m.text.Some? then [Set(MessageId(f, m.ident, |m.text.value|), m.text.value)] else []) +
        MessageEdits(f, messages[1..])
  }

  function AnswerEdits(ids: seq<string>, a: Augmented, codes: Codes): (edits: seq<Edit>)
    ensures NeverFails(edits)
  {
    if ids == [] then []
    else OneAnswer(ids[0], a, codes) + AnswerEdits(ids[1..], a, codes)
  }

  function OneAnswer(id: string, a: Augmented, codes: Codes): (edits: seq<Edit>)
    ensures NeverFails(edits)
  {
    var f := ParseField(id, codes);
    if f.None? then []
    else
      var field := Find(a.fields, f.value.FullWithoutSubfield());
      if field.Some? && field.value.messages.Some? then MessageEdits(f.value, field.value.messages.value) else []
  }

  function DefaultEdits(ps: seq<Paragraph>, a: Augmented, codes: Codes): (edits: seq<Edit>)
    ensures NeverFails(edits)
  {
    ParagraphEdits(ps) + AnswerEdits(Conversations(ps), a, codes)
  }

  lemma {:induction false} MessageEditsOk(f: FieldId, messages: seq<Message>, codes: Codes)
    requires f.Printable()
    ensures EditsOk(MessageEdits(f, messages), codes)
  {
    hide MessageId, Canonical;
    if messages != [] {
      var m := messages[0];
      MessageEditsOk(f, messages[1..], codes);
      if m.text.Some? {
        MessageCanonical(f, m.ident, |m.text.value|, codes);
      }
    }
  }

  lemma {:induction false} AnswerEditsOk(ids: seq<string>, a: Augmented, codes: Codes)
    ensures EditsOk(AnswerEdits(ids, a, codes), codes)
  {
    hide EditOk, ParseField, MessageEdits;
    if ids != [] {
      AnswerEditsOk(ids[1..], a, codes);
      var f := ParseField(ids[0], codes);
      if f.Some? {
        var field := Find(a.fields, f.value.FullWithoutSubfield());
        if field.Some? && field.value.messages.Some? {
          MessageEditsOk(f.value, field.value.messages.value, codes);
        }
      }
    }
  }

  // ----- what the default strategy does to the context -----

  lemma {:induction false} ParagraphNames(ps: seq<Paragraph>)
    ensures SetsOnly(ParagraphEdits(ps))
    ensures forall key :: Names(ParagraphEdits(ps), key) <==> IsParagraph(key, ps)
    ensures forall key, text :: Gives(ParagraphEdits(ps), key, text) <==> ParagraphText(key, text, ps)
  {
    hide Names, Gives, SetsOnly, Clean;
    NoneNamed();
    NoSets();
    if ps != [] {
      ParagraphNames(ps[1..]);
      var own := Set(ps[0].id, Clean(ps[0].text));
      OneSet(own);
      ConcatNamed([own], ParagraphEdits(ps[1..]));
      SetsConcat([own], ParagraphEdits(ps[1..]));
      hide IsParagraph, ParagraphText;
      forall key ensures IsParagraph(key, ps) <==> ps[0].id == key || IsParagraph(key, ps[1..]) {
        ParagraphCons(ps, key, "");
      }
      forall key, text ensures ParagraphText(key, text, ps) <==>
        (ps[0].id == key && Clean(ps[0].text) == text) || ParagraphText(key, text, ps[1..])
      {
        ParagraphCons(ps, key, text);
      }
    }
  }

  lemma NoSets()
    ensures SetsOnly([])
  {
  }

  predicate MessageAt(key: string, text: string, f: FieldId, m: Message) {
    m.text == Some(text) && key == MessageId(f, m.ident, |text|)
  }

  // A message answered for one of the conversations.
  ghost predicate Answer(key: string, text: string, id: string, a: Augmented, codes: Codes) {
    var f := ParseField(id, codes);
    && f.Some?
    && var field := Find(a.fields, f.value.FullWithoutSubfield());
       field.Some? && field.value.messages.Some? && exists m ::
         m in field.value.messages.value &&
         MessageAt(key, text, f.value, m)
  }

  lemma {:induction false} MessageNames(f: FieldId, messages: seq<Message>)
    ensures SetsOnly(MessageEdits(f, messages))
    ensures forall key :: Names(MessageEdits(f, messages), key) <==>
      exists text :: Gives(MessageEdits(f, messages), key, text)
    ensures forall key, text :: Gives(MessageEdits(f, messages), key, text) <==>
      exists m :: m in messages && MessageAt(key, text, f, m)
  {
    hide Names, Gives, SetsOnly, MessageId;
    NoneNamed();
    NoSets();
    if messages != [] {
      var m, rest := messages[0], MessageEdits(f, messages[1..]);
      MessageNames(f, messages[1..]);
      var own := if m.text.Some? then [Set(MessageId(f, m.ident, |m.text.value|), m.text.value)] else [];
      if own != [] {
        OneSet(own[0]);
        assert own == [own[0]];
      }
      ConcatNamed(own, rest);
      SetsConcat(own, rest);
      assert MessageEdits(f, messages) == own + rest;
      assert forall n :: n in messages <==> n == m || n in messages[1..];
      assert m in messages;
      forall key, text
        ensures Gives(own + rest, key, text) <==> exists n :: n in messages && MessageAt(key, text, f, n)
      {
        assert MessageAt(key, text, f, m) <==> Gives(own, key, text);
        if n :| n in messages && MessageAt(key, text, f, n) {
          assert n == m || n in messages[1..];
        }
      }
      NamedGiven(own, rest);
    }
  }

  // Whatever is named is given some text, if that holds of both parts.
  lemma NamedGiven(own: seq<Edit>, rest: seq<Edit>)
    requires |own| <= 1 && SetsOnly(own)
    requires forall key :: Names(rest, key) <==> exists text :: Gives(rest, key, text)
    ensures forall key :: Names(own + rest, key) <==> exists text :: Gives(own + rest, key, text)
  {
    NoneNamed();
    if own != [] {
      OneSet(own[0]);
      assert own == [own[0]];
    }
    ConcatNamed(own, rest);
    hide Names, Gives, SetsOnly;
    forall key ensures Names(own + rest, key) <==> exists text :: Gives(own + rest, key, text) {
      if own != [] && own[0].key == key {
        assert Gives(own + rest, key, own[0].text);
      }
      if Names(rest, key) {
        var text :| Gives(rest, key, text);
        assert Gives(own + rest, key, text);
      }
    }
  }

  lemma {:induction false} AnswerNames(ids: seq<string>, a: Augmented, codes: Codes)
    ensures SetsOnly(AnswerEdits(ids, a, codes))
    ensures forall key :: Names(AnswerEdits(ids, a, codes), key) <==>
      exists text :: Gives(AnswerEdits(ids, a, codes), key, text)
    ensures forall key, text :: Gives(AnswerEdits(ids, a, codes), key, text) <==>
      exists id :: id in ids && Answer(key, text, id, a, codes)
  {
    hide Names, Gives, SetsOnly, ParseField, MessageAt, MessageEdits, Answer;
    NoneNamed();
    NoSets();
    if ids != [] {
      var own, rest := OneAnswer(ids[0], a, codes), AnswerEdits(ids[1..], a, codes);
      OneAnswerNames(ids[0], a, codes);
      AnswerNames(ids[1..], a, codes);
      ConcatNamed(own, rest);
      SetsConcat(own, rest);
      BothGiven(own, rest);
      hide OneAnswer;
      assert AnswerEdits(ids, a, codes) == own + rest;
      assert forall id :: id in ids <==> id == ids[0] || id in ids[1..];
    }
  }

  lemma BothGiven(a: seq<Edit>, b: seq<Edit>)
    requires forall key :: Names(a, key) <==> exists text :: Gives(a, key, text)
    requires forall key :: Names(b, key) <==> exists text :: Gives(b, key, text)
    ensures forall key :: Names(a + b, key) <==> exists text :: Gives(a + b, key, text)
  {
    ConcatNamed(a, b);
    hide Names, Gives;
    forall key ensures Names(a + b, key) <==> exists text :: Gives(a + b, key, text) {
      if Names(a, key) {
        var text :| Gives(a, key, text);
        assert Gives(a + b, key, text);
      }
      if Names(b, key) {
        var text :| Gives(b, key, text);
        assert Gives(a + b, key, text);
      }
    }
  }

  lemma OneAnswerNames(id: string, a: Augmented, codes: Codes)
    ensures var edits := OneAnswer(id, a, codes);
      && SetsOnly(edits) && (forall key :: Names(edits, key) <==> exists text :: Gives(edits, key, text))
      && (forall key, text :: Gives(edits, key, text) <==> Answer(key, text, id, a, codes))
  {
    hide Names, Gives, SetsOnly, ParseField, MessageAt, MessageEdits;
    NoneNamed();
    NoSets();
    var f := ParseField(id, codes);
    if f.Some? {
      var field := Find(a.fields, f.value.FullWithoutSubfield());
      if field.Some? && field.value.messages.Some? {
        MessageNames(f.value, field.value.messages.value);
      }
    }
  }

  ghost predicate DefaultText(key: string, text: string, ps: seq<Paragraph>, a: Augmented, codes: Codes) {
    ParagraphText(key, text, ps) || exists id :: id in Conversations(ps) && Answer(key, text, id, a, codes)
  }

  // Exactly the retrieved paragraphs and the messages that answer the matched conversations have
  // been set, each to a text of its own; every other block is as it was, and none has moved.
  ghost predicate DefaultsSet(es: Dict, es': Dict, ps: seq<Paragraph>, a: Augmented, codes: Codes) {
    && Distinct(es') && KeysOf(es) <= KeysOf(es')
    && (forall key :: Has(es', key) <==> Has(es, key) || exists text :: DefaultText(key, text, ps, a, codes))
    && (forall key :: Has(es', key) && (exists text :: DefaultText(key, text, ps, a, codes)) ==>
          DefaultText(key, Lookup(es', key), ps, a, codes))
    && (forall key :: Has(es, key) && !(exists text :: DefaultText(key, text, ps, a, codes)) ==>
          Has(es', key) && Lookup(es', key) == Lookup(es, key))
  }

  lemma ParagraphGiven(ps: seq<Paragraph>)
    ensures forall key :: IsParagraph(key, ps) <==> exists text :: ParagraphText(key, text, ps)
  {
    hide Clean;
    forall key ensures IsParagraph(key, ps) <==> exists text :: ParagraphText(key, text, ps) {
      if IsParagraph(key, ps) {
        var i :| 0 <= i < |ps| && ps[i].id == key;
        assert ParagraphText(key, Clean(ps[i].text), ps);
      }
    }
  }

  lemma DefaultExact(es: Dict, ps: seq<Paragraph>, a: Augmented, codes: Codes)
    requires Distinct(es)
    ensures var r := Apply(es, DefaultEdits(ps, a, codes)); r.Ok? && DefaultsSet(es, r.value, ps, a, codes)
  {
    var first, rest := ParagraphEdits(ps), AnswerEdits(Conversations(ps), a, codes);
    ParagraphNames(ps);
    ParagraphGiven(ps);
    AnswerNames(Conversations(ps), a, codes);
    hide Names, Gives, SetsOnly, ParagraphText, IsParagraph, Answer, Has, Distinct, Apply, Conversations,
      ParagraphEdits, AnswerEdits;
    ConcatNamed(first, rest);
    SetsConcat(first, rest);
    BothGiven(first, rest);
    SetsReach(es, first + rest);
    forall key, text ensures Gives(first + rest, key, text) <==> DefaultText(key, text, ps, a, codes) {
    }
    NamedAre(first + rest, ps, a, codes);
  }

  lemma NamedAre(edits: seq<Edit>, ps: seq<Paragraph>, a: Augmented, codes: Codes)
    requires forall key :: Names(edits, key) <==> exists text :: Gives(edits, key, text)
    requires forall key, text :: Gives(edits, key, text) <==> DefaultText(key, text, ps, a, codes)
    ensures forall key :: Names(edits, key) <==> exists text :: DefaultText(key, text, ps, a, codes)
  {
    hide Names, Gives, DefaultText;
  }

  method CollectConversations(ps: seq<Paragraph>) returns (ids: seq<string>)
    ensures ids == Conversations(ps)
  {
    hide ConversationOf;
    ids := [];
    assert ps[0..] == ps;
    for i := 0 to |ps|
      invariant ids + Conversations(ps[i..]) == Conversations(ps)
    {
      assert ps[i..][1..] == ps[i + 1..];
      ids := ids + ConversationOf(ps[i]);
    }
  }

  method AddMessages(context: CappedPromptContext, f: FieldId, messages: seq<Message>)
    requires context.Valid()
    modifies context`output
    ensures context.Valid() && Apply(old(context.output), MessageEdits(f, messages)) == Ok(context.output)
  {
    hide MessageId, Put;
    assert messages[0..] == messages;
    for i := 0 to |messages|
      invariant context.Valid()
      invariant Apply(context.output, MessageEdits(f, messages[i..])) ==
        Apply(old(context.output), MessageEdits(f, messages))
    {
      var m := messages[i];
      assert messages[i..][1..] == messages[i + 1..];
      ghost var rest := MessageEdits(f, messages[i + 1..]);
      if m.text.Some? {
        assert ([Set(MessageId(f, m.ident, |m.text.value|), m.text.value)] + rest)[1..] == rest;
        context.SetItem(MessageId(f, m.ident, |m.text.value|), m.text.value);
      } else {
        assert [] + rest == rest;
      }
    }
  }

  // default_prompt_context
  method DefaultContext(context: CappedPromptContext, ps: seq<Paragraph>, a: Augmented, codes: Codes)
    requires context.Valid() && AllRetrieved(ps, codes)
    modifies context`output
    ensures context.Valid() && Apply(old(context.output), DefaultEdits(ps, a, codes)) == Ok(context.output)
    ensures DefaultsSet(old(context.output), context.output, ps, a, codes)
  {
    hide ParagraphEdits, MessageEdits, Apply, ParseField, DefaultsSet;
    ghost var before := context.output;
    DefaultExact(before, ps, a, codes);
    AddParagraphs(context, ps);
    var ids := CollectConversations(ps);
    ApplyConcat(before, ParagraphEdits(ps), AnswerEdits(ids, a, codes));
    ghost var after := context.output;
    assert ids[0..] == ids;
    for i := 0 to |ids|
      invariant context.Valid()
      invariant Apply(context.output, AnswerEdits(ids[i..], a, codes)) == Apply(after, AnswerEdits(ids, a, codes))
    {
      assert ids[i..][1..] == ids[i + 1..];
      ghost var here := context.output;
      ghost var rest := AnswerEdits(ids[i + 1..], a, codes);
      ApplyConcat(here, OneAnswer(ids[i], a, codes), rest);
      ApplyNone(here);
      var f := ParseField(ids[i], codes);
      if f.Some? {
        var field := Find(a.fields, f.value.FullWithoutSubfield());
        if field.Some? && field.value.messages.Some? {
          AddMessages(context, f.value, field.value.messages.value);
        }
      }
    }
    ApplyNone(context.output);
  }

  // ----- neighbouring paragraphs -----

  function PidsOf(ps: seq<Paragraph>, codes: Codes): (r: seq<ParagraphId>)
    requires AllRetrieved(ps, codes)
    ensures |r| == |ps| && forall i :: 0 <= i < |ps| ==> Some(r[i]) == ParseParagraph(ps[i].id, codes)
  {
    seq(|ps|, i requires 0 <= i < |ps| => Pid(ps[i], codes))
  }

  // A neighbour is added once, with text, unless it was retrieved itself.
  function OneNeighbour(id: string, retrieved: seq<ParagraphId>, a: Augmented, codes: Codes): (edits: seq<Edit>)
    ensures NeverFails(edits)
  {
    var p, found := ParseParagraph(id, codes), Find(a.paragraphs, id);
    if p.Some? && p.value in retrieved then []
    else if found.Some? && Given(found.value.text) then [Add(id, found.value.text.value)]
    else []
  }

  function Around(ids: seq<string>, retrieved: seq<ParagraphId>, a: Augmented, codes: Codes): (edits: seq<Edit>)
    ensures NeverFails(edits)
  {
    if ids == [] then [] else OneNeighbour(ids[0], retrieved, a, codes) + Around(ids[1..], retrieved, a, codes)
  }

  function OneCentre(pid: ParagraphId, retrieved: seq<ParagraphId>, a: Augmented, codes: Codes): (edits: seq<Edit>)
    ensures NeverFails(edits)
  {
    var found := Find(a.paragraphs, pid.Full());
    if found.None? then []
    else
      (if Given(found.value.text) then [Add(pid.Full(), found.value.text.value)] else [])
      + Around(found.value.before + found.value.after, retrieved, a, codes)
  }

  function NeighbourEdits(pids: seq<ParagraphId>, retrieved: seq<ParagraphId>, a: Augmented,
      codes: Codes): (edits: seq<Edit>)
    ensures NeverFails(edits)
  {
    if pids == [] then [] else OneCentre(pids[0], retrieved, a, codes) + NeighbourEdits(pids[1..], retrieved, a, codes)
  }

  lemma {:induction false} AroundOk(ids: seq<string>, retrieved: seq<ParagraphId>, a: Augmented, codes: Codes)
    requires NeighboursOk(a, ids, codes)
    ensures EditsOk(Around(ids, retrieved, a, codes), codes)
  {
    hide Canonical, ParagraphIdOk, ParseParagraph, OneNeighbour, EditOk;
    if ids != [] {
      NeighbourOk(ids[0], retrieved, a, codes);
      AroundOk(ids[1..], retrieved, a, codes);
    }
  }

  lemma NeighbourOk(id: string, retrieved: seq<ParagraphId>, a: Augmented, codes: Codes)
    requires ParagraphIdOk(id, codes)
    ensures EditsOk(OneNeighbour(id, retrieved, a, codes), codes)
  {
    hide Canonical, ParagraphIdOk, ParseParagraph;
    RetrievedCanonical(id, codes);
  }

  lemma {:induction false} NeighbourEditsOk(pids: seq<ParagraphId>, retrieved: seq<ParagraphId>, a: Augmented,
      codes: Codes)
    requires AnswerOk(a, codes) && forall p :: p in pids ==> p.Printable()
    ensures EditsOk(NeighbourEdits(pids, retrieved, a, codes), codes)
  {
    hide AnswerOk, OneCentre, EditOk;
    if pids != [] {
      CentreOk(pids[0], retrieved, a, codes);
      NeighbourEditsOk(pids[1..], retrieved, a, codes);
    }
  }

  lemma CentreOk(pid: ParagraphId, retrieved: seq<ParagraphId>, a: Augmented, codes: Codes)
    requires AnswerOk(a, codes) && pid.Printable()
    ensures EditsOk(OneCentre(pid, retrieved, a, codes), codes)
  {
    hide Canonical, ParagraphIdOk, Around;
    ParagraphCanonical(pid, codes);
    var found := Find(a.paragraphs, pid.Full());
    if found.Some? {
      FindMember(a.paragraphs, pid.Full());
      AroundOk(found.value.before + found.value.after, retrieved, a, codes);
    }
  }

  // ----- what the neighbours do to the context -----

  // A paragraph with text that was not itself retrieved.
  predicate Wanted(key: string, retrieved: seq<ParagraphId>, a: Augmented, codes: Codes) {
    var p, found := ParseParagraph(key, codes), Find(a.paragraphs, key);
    !(p.Some? && p.value in retrieved) && found.Some? && found.value.text.Some? && found.value.text.value != ""
  }

  // The block is that of the retrieved paragraph pid, or of a wanted neighbour of it.
  predicate Near(key: string, pid: ParagraphId, retrieved: seq<ParagraphId>, a: Augmented, codes: Codes) {
    var found := Find(a.paragraphs, pid.Full());
    found.Some? &&
      ((key == pid.Full() && found.value.text.Some? && found.value.text.value != "")
       || (key in found.value.before + found.value.after && Wanted(key, retrieved, a, codes)))
  }

  ghost predicate NearSome(key: string, pids: seq<ParagraphId>, retrieved: seq<ParagraphId>, a: Augmented,
      codes: Codes) {
    exists i :: 0 <= i < |pids| && Near(key, pids[i], retrieved, a, codes)
  }

  // The text answered for a paragraph.
  predicate AnsweredText(key: string, text: string, a: Augmented) {
    var found := Find(a.paragraphs, key);
    found.Some? && found.value.text == Some(text)
  }

  lemma {:induction false} AroundNames(ids: seq<string>, retrieved: seq<ParagraphId>, a: Augmented, codes: Codes)
    ensures AddsOnly(Around(ids, retrieved, a, codes))
    ensures forall key :: Names(Around(ids, retrieved, a, codes), key) <==>
      key in ids && Wanted(key, retrieved, a, codes)
    ensures forall key, text :: Gives(Around(ids, retrieved, a, codes), key, text) ==> AnsweredText(key, text, a)
  {
    hide ParseParagraph, Names, Gives, AddsOnly;
    NoneNamed();
    if ids != [] {
      AroundNames(ids[1..], retrieved, a, codes);
      var own := OneNeighbour(ids[0], retrieved, a, codes);
      ConcatNamed(own, Around(ids[1..], retrieved, a, codes));
      if own != [] {
        OneNamed(own[0]);
        assert own == [own[0]];
      }
    }
  }

  lemma CentreNames(pid: ParagraphId, retrieved: seq<ParagraphId>, a: Augmented, codes: Codes)
    ensures AddsOnly(OneCentre(pid, retrieved, a, codes))
    ensures forall key :: Names(OneCentre(pid, retrieved, a, codes), key) <==> Near(key, pid, retrieved, a, codes)
    ensures forall key, text :: Gives(OneCentre(pid, retrieved, a, codes), key, text) ==> AnsweredText(key, text, a)
  {
    hide Names, Gives, Around, Wanted, AddsOnly;
    NoneNamed();
    var found := Find(a.paragraphs, pid.Full());
    if found.Some? {
      var own := if Given(found.value.text) then [Add(pid.Full(), found.value.text.value)] else [];
      var ids := found.value.before + found.value.after;
      AroundNames(ids, retrieved, a, codes);
      ConcatNamed(own, Around(ids, retrieved, a, codes));
      if own != [] {
        OneNamed(own[0]);
      }
    }
  }

  lemma {:induction false} NeighbourNames(pids: seq<ParagraphId>, retrieved: seq<ParagraphId>, a: Augmented,
      codes: Codes)
    ensures AddsOnly(NeighbourEdits(pids, retrieved, a, codes))
    ensures forall key :: Names(NeighbourEdits(pids, retrieved, a, codes), key) <==>
      NearSome(key, pids, retrieved, a, codes)
    ensures forall key, text :: Gives(NeighbourEdits(pids, retrieved, a, codes), key, text) ==>
      AnsweredText(key, text, a)
  {
    hide Names, Gives, OneCentre, Near, AnsweredText, AddsOnly;
    NoneNamed();
    if pids != [] {
      NeighbourNames(pids[1..], retrieved, a, codes);
      CentreNames(pids[0], retrieved, a, codes);
      ConcatNamed(OneCentre(pids[0], retrieved, a, codes), NeighbourEdits(pids[1..], retrieved, a, codes));
      forall key ensures NearSome(key, pids, retrieved, a, codes) <==>
        Near(key, pids[0], retrieved, a, codes) || NearSome(key, pids[1..], retrieved, a, codes)
      {
        NearCons(key, pids, retrieved, a, codes);
      }
    }
  }

  lemma NearCons(key: string, pids: seq<ParagraphId>, retrieved: seq<ParagraphId>, a: Augmented, codes: Codes)
    requires pids != []
    ensures NearSome(key, pids, retrieved, a, codes) <==>
      Near(key, pids[0], retrieved, a, codes) || NearSome(key, pids[1..], retrieved, a, codes)
  {
    hide Near;
    if NearSome(key, pids[1..], retrieved, a, codes) {
      var i :| 0 <= i < |pids[1..]| && Near(key, pids[1..][i], retrieved, a, codes);
      assert pids[i + 1] == pids[1..][i];
    }
    if NearSome(key, pids, retrieved, a, codes) && !Near(key, pids[0], retrieved, a, codes) {
      var i :| 0 <= i < |pids| && Near(key, pids[i], retrieved, a, codes);
      assert pids[1..][i - 1] == pids[i];
    }
  }

  // The old blocks stay as they are; behind them come, once each, the retrieved paragraphs that
  // were missing and the wanted neighbours, all with the texts answered for them.
  ghost predicate NeighboursAdded(es: Dict, es': Dict, ps: seq<Paragraph>, a: Augmented, codes: Codes)
    requires AllRetrieved(ps, codes)
  {
    var pids := PidsOf(ps, codes);
    && es <= es' && Distinct(es')
    && (forall key :: Has(es', key) <==> Has(es, key) || NearSome(key, pids, pids, a, codes))
    && (forall i :: |es| <= i < |es'| ==> AnsweredText(es'[i].key, es'[i].text, a))
  }

  lemma NeighboursExact(es: Dict, ps: seq<Paragraph>, a: Augmented, codes: Codes)
    requires AllRetrieved(ps, codes)
    ensures var pids := PidsOf(ps, codes);
      var r := Apply(es, NeighbourEdits(pids, pids, a, codes));
      r.Ok? && (Distinct(r.value) ==> NeighboursAdded(es, r.value, ps, a, codes))
  {
    hide NeighbourEdits, Names, Gives, NearSome, AnsweredText, Has, Distinct;
    var pids := PidsOf(ps, codes);
    var edits := NeighbourEdits(pids, pids, a, codes);
    ApplyPasses(es, edits);
    NeighbourNames(pids, pids, a, codes);
    AddsAppend(es, edits);
  }

  method AddAround(context: CappedPromptContext, ids: seq<string>, retrieved: seq<ParagraphId>, a: Augmented,
      codes: Codes)
    requires context.Valid() && NeighboursOk(a, ids, codes)
    modifies context`output
    ensures context.Valid() && Apply(old(context.output), Around(ids, retrieved, a, codes)) == Ok(context.output)
  {
    hide Apply, Step, ParagraphIdOk, ParseParagraph;
    assert ids[0..] == ids;
    for i := 0 to |ids|
      invariant context.Valid()
      invariant Apply(context.output, Around(ids[i..], retrieved, a, codes)) ==
        Apply(old(context.output), Around(ids, retrieved, a, codes))
    {
      assert ids[i..][1..] == ids[i + 1..];
      ApplyConcat(context.output, OneNeighbour(ids[i], retrieved, a, codes), Around(ids[i + 1..], retrieved, a, codes));
      ApplyNone(context.output);
      var neighbour := Find(a.paragraphs, ids[i]);
      var pid := ParseParagraph(ids[i], codes);
      if pid.Some? && pid.value in retrieved {
        continue;
      }
      if Given(neighbour.value.text) {
        AddItem(context, ids[i], neighbour.value.text.value);
      }
    }
    ApplyNone(context.output);
  }

  // neighbouring_paragraphs_prompt_context
  method NeighbouringContext(context: CappedPromptContext, ps: seq<Paragraph>, a: Augmented, codes: Codes)
    requires context.Valid() && AllRetrieved(ps, codes) && AnswerOk(a, codes)
    modifies context`output
    ensures context.Valid() && NeighboursAdded(old(context.output), context.output, ps, a, codes)
    ensures Apply(old(context.output), NeighbourEdits(PidsOf(ps, codes), PidsOf(ps, codes), a, codes)) ==
      Ok(context.output)
  {
    hide Apply, Step, ParagraphIdOk, Around, NeighboursAdded;
    NeighboursExact(context.output, ps, a, codes);
    var pids := PidsOf(ps, codes);
    assert pids[0..] == pids;
    for i := 0 to |pids|
      invariant context.Valid()
      invariant Apply(context.output, NeighbourEdits(pids[i..], pids, a, codes)) ==
        Apply(old(context.output), NeighbourEdits(pids, pids, a, codes))
    {
      assert pids[i..][1..] == pids[i + 1..];
      ApplyConcat(context.output, OneCentre(pids[i], pids, a, codes), NeighbourEdits(pids[i + 1..], pids, a, codes));
      AddCentre(context, pids[i], pids, a, codes);
    }
    ApplyNone(context.output);
  }

  method AddCentre(context: CappedPromptContext, pid: ParagraphId, retrieved: seq<ParagraphId>, a: Augmented,
      codes: Codes)
    requires context.Valid() && AnswerOk(a, codes)
    modifies context`output
    ensures context.Valid() && Apply(old(context.output), OneCentre(pid, retrieved, a, codes)) == Ok(context.output)
  {
    hide Apply, Step, ParagraphIdOk, Around;
    ApplyNone(context.output);
    var paragraph := Find(a.paragraphs, pid.Full());
    if paragraph.None? {
      return;
    }
    FindMember(a.paragraphs, pid.Full());
    ghost var own := if Given(paragraph.value.text) then [Add(pid.Full(), paragraph.value.text.value)] else [];
    ApplyConcat(context.output, own, Around(paragraph.value.before + paragraph.value.after, retrieved, a, codes));
    if Given(paragraph.value.text) {
      AddItem(context, pid.Full(), paragraph.value.text.value);
    }
    AddAround(context, paragraph.value.before + paragraph.value.after, retrieved, a, codes);
  }
}
