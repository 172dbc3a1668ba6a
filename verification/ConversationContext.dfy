// conversation_prompt_context of ask/search/prompt.py: the messages of the matched conversations
// and the texts of their attachments.  Images are not part of this model.
module ConversationContext {
  import opened Basics
  import opened OrderedDict
  import opened Ids
  import opened PromptContext
  import opened PromptEdits
  import opened PromptStrategies

  // The matched conversation fields, each once.
  function Parents(ps: seq<Paragraph>, analyzed: set<string>, codes: Codes): (r: seq<FieldId>)
    requires AllRetrieved(ps, codes)
    ensures forall i :: 0 <= i < |r| ==> r[i].Printable() && r[i].kind == "c"
  {
    if ps == [] then []
    else
      var f := Pid(ps[0], codes).field;
      var id := f.FullWithoutSubfield();
      if f.kind != "c" || id in analyzed then Parents(ps[1..], analyzed, codes)
      else [f] + Parents(ps[1..], analyzed + {id}, codes)
  }

  // Messages with a text that are not there yet.  With every new one the attachments of the
  // conversation are parsed.
  function TalkEdits(f: FieldId, messages: seq<Message>, parsed: bool): seq<Edit> {
    if messages == [] then []
    else
      var m := messages[0];
      (if Given(m.text) then [AddWith(MessageId(f, m.ident, |m.text.value|), m.text.value, parsed)] else [])
      + TalkEdits(f, messages[1..], parsed)
  }

  function MessagesOf(f: FieldId, a: Augmented): seq<Message> {
    var field := Find(a.fields, f.FullWithoutSubfield());
    if field.Some? && field.value.messages.Some? then field.value.messages.value else []
  }

  function AllTalk(fs: seq<FieldId>, a: Augmented, codes: Codes): seq<Edit> {
    if fs == [] then []
    else TalkEdits(fs[0], MessagesOf(fs[0], a), Parses(fs[0], a, codes)) + AllTalk(fs[1..], a, codes)
  }

  // The attachments of a conversation, as they are answered.
  function AttachmentIds(f: FieldId, a: Augmented): seq<string> {
    var field := Find(a.fields, f.FullWithoutSubfield());
    if field.None? then [] else field.value.attachments
  }

  // All of them as ids, unless one is malformed.
  function ParsedFields(ids: seq<string>, codes: Codes): (r: Option<seq<FieldId>>)
    ensures r.Some? ==> forall i :: 0 <= i < |r.value| ==> r.value[i].Printable()
  {
    if ids == [] then Some([])
    else
      var f, rest := ParseField(ids[0], codes), ParsedFields(ids[1..], codes);
      if f.None? || rest.None? then None else Some([f.value] + rest.value)
  }

  predicate Parses(f: FieldId, a: Augmented, codes: Codes) { ParsedFields(AttachmentIds(f, a), codes).Some? }

  function AttachmentsOf(f: FieldId, a: Augmented, codes: Codes): (r: seq<FieldId>)
    ensures forall i :: 0 <= i < |r| ==> r[i].Printable()
  {
    if Parses(f, a, codes) then ParsedFields(AttachmentIds(f, a), codes).value else []
  }

  // One malformed id is enough.
  lemma {:induction false} ParsesExactly(ids: seq<string>, codes: Codes)
    ensures ParsedFields(ids, codes).Some? <==> forall i :: 0 <= i < |ids| ==> ParseField(ids[i], codes).Some?
  {
    hide ParseField;
    if ids != [] {
      ParsesExactly(ids[1..], codes);
      assert forall i :: 0 < i < |ids| ==> ids[1..][i - 1] == ids[i];
    }
  }

  function Repeat(fs: seq<FieldId>, n: int): (r: seq<FieldId>)
    ensures forall f :: f in r <==> n > 0 && f in fs
    decreases n
  {
    if n <= 0 then [] else Repeat(fs, n - 1) + fs
  }

  // What the edits leave, when they do not fail.
  function After(es: Dict, edits: seq<Edit>): Dict {
    var r := Apply(es, edits);
    if r.Ok? then r.value else es
  }

  // A conversation's attachments are collected once for every message that was new.
  function Attachments(es: Dict, fs: seq<FieldId>, a: Augmented, codes: Codes): (r: seq<FieldId>)
    decreases |fs|
  {
    if fs == [] then []
    else
      var es' := After(es, TalkEdits(fs[0], MessagesOf(fs[0], a), Parses(fs[0], a, codes)));
      Repeat(AttachmentsOf(fs[0], a, codes), |es'| - |es|) + Attachments(es', fs[1..], a, codes)
  }

  function AttachmentId(f: FieldId, length: nat): string {
    ParagraphId(f.(subfield := None), 0, length).Full()
  }

  function AttachmentEdits(fs: seq<FieldId>, a: Augmented): (edits: seq<Edit>)
    ensures NeverFails(edits)
  {
    if fs == [] then [] else OneAttachment(fs[0], a) + AttachmentEdits(fs[1..], a)
  }

  function OneAttachment(f: FieldId, a: Augmented): (edits: seq<Edit>)
    ensures NeverFails(edits)
  {
    var field := Find(a.fields, f.Full());
    if field.Some? && Given(field.value.text)
    then [Add(AttachmentId(f, |field.value.text.value|), "Attachment " + f.key + ": " + field.value.text.value +
      "\n\n")]
    else []
  }

  function ConversationEdits(es: Dict, ps: seq<Paragraph>, attachmentsText: bool, a: Augmented, attached: Augmented,
                             codes: Codes): seq<Edit>
    requires AllRetrieved(ps, codes)
  {
    var fs := Parents(ps, {}, codes);
    MissingParagraphEdits(ps) + AllTalk(fs, a, codes)
    + if attachmentsText
      then AttachmentEdits(Attachments(After(es, MissingParagraphEdits(ps)), fs, a, codes), attached)
      else []
  }

  function ParentOf(p: Paragraph, codes: Codes): FieldId
    requires ParagraphIdOk(p.id, codes)
  {
    ParseParagraph(p.id, codes).value.field
  }

  // The i-th paragraph is the first one of its conversation.
  ghost predicate FirstOf(ps: seq<Paragraph>, i: int, f: FieldId, analyzed: set<string>, codes: Codes)
    requires AllRetrieved(ps, codes)
  {
    && 0 <= i < |ps| && f == ParentOf(ps[i], codes) && f.kind == "c" && f.FullWithoutSubfield() !in analyzed
    && forall j :: 0 <= j < i && ParentOf(ps[j], codes).kind == "c" ==>
      ParentOf(ps[j], codes).FullWithoutSubfield() != f.FullWithoutSubfield()
  }

  // The conversations that take part: those of the retrieved paragraphs, each once, by its first.
  lemma {:induction false} ParentsExact(ps: seq<Paragraph>, analyzed: set<string>, codes: Codes)
    requires AllRetrieved(ps, codes)
    ensures forall f :: f in Parents(ps, analyzed, codes) <==> exists i :: FirstOf(ps, i, f, analyzed, codes)
  {
    hide ParentOf, ParagraphIdOk;
    if ps != [] {
      var own, rest := ParentOf(ps[0], codes), ps[1..];
      var id := own.FullWithoutSubfield();
      var skipped := own.kind != "c" || id in analyzed;
      var more := if skipped then analyzed else analyzed + {id};
      ParentsExact(rest, more, codes);
      ParentsFirst(ps, analyzed, codes);
      forall f ensures f in Parents(ps, analyzed, codes) <==> exists i :: FirstOf(ps, i, f, analyzed, codes) {
        FirstShift(ps, f, analyzed, codes);
      }
    }
  }

  lemma ParentsFirst(ps: seq<Paragraph>, analyzed: set<string>, codes: Codes)
    requires ps != [] && AllRetrieved(ps, codes)
    ensures var own := ParentOf(ps[0], codes);
      Parents(ps, analyzed, codes) ==
        if own.kind != "c" || own.FullWithoutSubfield() in analyzed then Parents(ps[1..], analyzed, codes)
        else [own] + Parents(ps[1..], analyzed + {own.FullWithoutSubfield()}, codes)
  {
    hide ParseParagraph;
  }

  lemma FirstShift(ps: seq<Paragraph>, f: FieldId, analyzed: set<string>, codes: Codes)
    requires ps != [] && AllRetrieved(ps, codes)
    ensures var own := ParentOf(ps[0], codes);
      var skipped := own.kind != "c" || own.FullWithoutSubfield() in analyzed;
      var more := if skipped then analyzed else analyzed + {own.FullWithoutSubfield()};
      (exists i :: FirstOf(ps, i, f, analyzed, codes)) <==>
        (!skipped && f == own) || exists i :: FirstOf(ps[1..], i, f, more, codes)
  {
    hide ParentOf, ParagraphIdOk;
    var own, rest := ParentOf(ps[0], codes), ps[1..];
    var skipped := own.kind != "c" || own.FullWithoutSubfield() in analyzed;
    var more := if skipped then analyzed else analyzed + {own.FullWithoutSubfield()};
    assert forall j :: 0 < j < |ps| ==> rest[j - 1] == ps[j];
    assert forall j :: 0 <= j < |rest| ==> rest[j] == ps[j + 1];
    if i :| FirstOf(ps, i, f, analyzed, codes) {
      if i > 0 {
        assert FirstOf(rest, i - 1, f, more, codes);
      }
    }
    if !skipped && f == own {
      assert FirstOf(ps, 0, f, analyzed, codes);
    }
    if i :| FirstOf(rest, i, f, more, codes) {
      assert FirstOf(ps, i + 1, f, analyzed, codes);
    }
  }

  // ----- the edits are on canonical keys -----

  lemma {:induction false} TalkEditsOk(f: FieldId, messages: seq<Message>, parsed: bool, codes: Codes)
    requires f.Printable()
    ensures EditsOk(TalkEdits(f, messages, parsed), codes)
  {
    hide MessageId, Canonical;
    if messages != [] {
      var m := messages[0];
      TalkEditsOk(f, messages[1..], parsed, codes);
      if Given(m.text) {
        MessageCanonical(f, m.ident, |m.text.value|, codes);
      }
    }
  }

  lemma {:induction false} AllTalkOk(fs: seq<FieldId>, a: Augmented, codes: Codes)
    requires forall i :: 0 <= i < |fs| ==> fs[i].Printable()
    ensures EditsOk(AllTalk(fs, a, codes), codes)
  {
    hide EditOk, TalkEdits, MessagesOf, Parses;
    if fs != [] {
      TalkEditsOk(fs[0], MessagesOf(fs[0], a), Parses(fs[0], a, codes), codes);
      AllTalkOk(fs[1..], a, codes);
    }
  }

  lemma {:induction false} AttachmentsPrintable(es: Dict, fs: seq<FieldId>, a: Augmented, codes: Codes)
    ensures forall i :: 0 <= i < |Attachments(es, fs, a, codes)| ==> Attachments(es, fs, a, codes)[i].Printable()
    decreases |fs|
  {
    hide After, AttachmentsOf, Repeat, Parses;
    if fs != [] {
      var es' := After(es, TalkEdits(fs[0], MessagesOf(fs[0], a), Parses(fs[0], a, codes)));
      AttachmentsPrintable(es', fs[1..], a, codes);
      var own := Repeat(AttachmentsOf(fs[0], a, codes), |es'| - |es|);
      forall i | 0 <= i < |own| ensures own[i].Printable() {
        assert own[i] in own;
      }
    }
  }

  lemma {:induction false} AttachmentEditsOk(fs: seq<FieldId>, a: Augmented, codes: Codes)
    requires forall i :: 0 <= i < |fs| ==> fs[i].Printable()
    ensures EditsOk(AttachmentEdits(fs, a), codes)
  {
    hide Canonical;
    if fs != [] {
      AttachmentEditsOk(fs[1..], a, codes);
      var field := Find(a.fields, fs[0].Full());
      if field.Some? && Given(field.value.text) {
        ParagraphCanonical(ParagraphId(fs[0].(subfield := None), 0, |field.value.text.value|), codes);
      }
    }
  }

  lemma ConversationEditsOk(es: Dict, ps: seq<Paragraph>, attachmentsText: bool, a: Augmented, attached: Augmented,
      codes: Codes)
    requires AllRetrieved(ps, codes)
    ensures EditsOk(ConversationEdits(es, ps, attachmentsText, a, attached, codes), codes)
  {
    hide EditOk, ParagraphIdOk, Parents, Attachments, AllTalk, AttachmentEdits, MissingParagraphEdits, After;
    var fs := Parents(ps, {}, codes);
    ParagraphEditsOk(ps, codes);
    AllTalkOk(fs, a, codes);
    var start := After(es, MissingParagraphEdits(ps));
    AttachmentsPrintable(start, fs, a, codes);
    AttachmentEditsOk(Attachments(start, fs, a, codes), attached, codes);
  }

  // ----- what the conversations do to the context -----

  // A message of f whose block is not there when the conversations' turn comes.
  ghost predicate NewMessage(es: Dict, ps: seq<Paragraph>, f: FieldId, messages: seq<Message>, i: int) {
    && 0 <= i < |messages| && Given(messages[i].text)
    && var key := MessageId(f, messages[i].ident, |messages[i].text.value|); !Has(es, key) && !IsParagraph(key, ps)
  }

  // A conversation that gets a message.
  ghost predicate Talked(es: Dict, ps: seq<Paragraph>, f: FieldId, a: Augmented) {
    exists i :: NewMessage(es, ps, f, MessagesOf(f, a), i)
  }

  ghost predicate IsMessage(key: string, f: FieldId, messages: seq<Message>) {
    exists i :: 0 <= i < |messages| && MessageSays(key, f, messages[i])
  }

  predicate MessageSays(key: string, f: FieldId, m: Message) {
    Given(m.text) && key == MessageId(f, m.ident, |m.text.value|)
  }

  ghost predicate MessageText(key: string, text: string, f: FieldId, messages: seq<Message>) {
    exists i :: 0 <= i < |messages| && MessageSays(key, f, messages[i]) && messages[i].text.value == text
  }

  lemma MessageCons(f: FieldId, messages: seq<Message>, key: string, text: string)
    requires messages != []
    ensures IsMessage(key, f, messages) <==> MessageSays(key, f, messages[0]) || IsMessage(key, f, messages[1..])
    ensures MessageText(key, text, f, messages) <==>
      (MessageSays(key, f, messages[0]) && messages[0].text.value == text) || MessageText(key, text, f, messages[1..])
  {
    hide MessageSays;
    assert forall i :: 0 < i < |messages| ==> messages[1..][i - 1] == messages[i];
    if IsMessage(key, f, messages[1..]) {
      var i :| 0 <= i < |messages[1..]| && MessageSays(key, f, messages[1..][i]);
      assert messages[i + 1] == messages[1..][i];
    }
    MessageTail(f, messages, key, text);
  }

  lemma MessageTail(f: FieldId, messages: seq<Message>, key: string, text: string)
    requires messages != []
    ensures MessageText(key, text, f, messages) <==>
      (MessageSays(key, f, messages[0]) && messages[0].text.value == text) || MessageText(key, text, f, messages[1..])
  {
    hide MessageId;
    assert forall i :: 0 < i < |messages| ==> messages[1..][i - 1] == messages[i];
    if MessageText(key, text, f, messages[1..]) {
      var i :| 0 <= i < |messages[1..]| && MessageSays(key, f, messages[1..][i]) && messages[1..][i].text.value == text;
      assert messages[i + 1] == messages[1..][i];
    }
  }

  lemma {:induction false} TalkNames(f: FieldId, messages: seq<Message>, parsed: bool)
    ensures AddsOnly(TalkEdits(f, messages, parsed))
    ensures forall key :: Names(TalkEdits(f, messages, parsed), key) <==> IsMessage(key, f, messages)
    ensures forall key, text :: Gives(TalkEdits(f, messages, parsed), key, text) <==>
      MessageText(key, text, f, messages)
  {
    hide Names, Gives, AddsOnly, MessageId;
    NoneNamed();
    if messages != [] {
      TalkNames(f, messages[1..], parsed);
      var m := messages[0];
      var own := if Given(m.text) then [AddWith(MessageId(f, m.ident, |m.text.value|), m.text.value, parsed)] else [];
      if own != [] {
        OneNamed(own[0]);
        assert own == [own[0]];
      }
      ConcatNamed(own, TalkEdits(f, messages[1..], parsed));
      hide IsMessage, MessageText;
      forall key ensures IsMessage(key, f, messages) <==> MessageSays(key, f, m) || IsMessage(key, f, messages[1..]) {
        MessageCons(f, messages, key, "");
      }
      forall key, text ensures MessageText(key, text, f, messages) <==>
        (MessageSays(key, f, m) && m.text.value == text) || MessageText(key, text, f, messages[1..])
      {
        MessageCons(f, messages, key, text);
      }
    }
  }

  // One conversation: it fails exactly when it gets a message and an attachment is malformed.
  lemma {:induction false} TalkFails(es: Dict, f: FieldId, messages: seq<Message>, parsed: bool)
    ensures Apply(es, TalkEdits(f, messages, parsed)).Ok? <==>
      (parsed || forall i :: 0 <= i < |messages| && Given(messages[i].text) ==>
        Has(es, MessageId(f, messages[i].ident, |messages[i].text.value|)))
    decreases |messages|
  {
    hide MessageId, Has;
    if messages == [] {
    } else {
      var m, rest := messages[0], messages[1..];
      ApplyTalk(es, f, messages, parsed, 0);
      assert messages[0..] == messages;
      assert forall i :: 0 < i < |messages| ==> rest[i - 1] == messages[i];
      assert forall i :: 0 <= i < |rest| ==> rest[i] == messages[i + 1];
      hide Apply;
      if !Given(m.text) || Has(es, MessageId(f, m.ident, |m.text.value|)) {
        TalkFails(es, f, rest, parsed);
      } else if parsed {
        TalkFails(es + [Entry(MessageId(f, m.ident, |m.text.value|), m.text.value)], f, rest, parsed);
      }
    }
  }

  // f gets a message when its turn comes at es.
  ghost predicate Gets(es: Dict, f: FieldId, messages: seq<Message>) {
    exists i :: 0 <= i < |messages| && Lacks(es, f, messages[i])
  }

  ghost predicate Lacks(es: Dict, f: FieldId, m: Message) {
    Given(m.text) && !Has(es, MessageId(f, m.ident, |m.text.value|))
  }

  // es and es' have the same messages of f.
  ghost predicate SameTalk(es: Dict, es': Dict, f: FieldId) {
    forall ident, length :: Has(es', MessageId(f, ident, length)) <==> Has(es, MessageId(f, ident, length))
  }

  lemma TalkOk(es: Dict, f: FieldId, messages: seq<Message>, parsed: bool)
    ensures Apply(es, TalkEdits(f, messages, parsed)).Ok? <==> parsed || !Gets(es, f, messages)
  {
    hide MessageId, Has, Apply;
    TalkFails(es, f, messages, parsed);
  }

  lemma SameGets(es: Dict, es': Dict, f: FieldId, messages: seq<Message>)
    requires SameTalk(es, es', f)
    ensures Gets(es', f, messages) <==> Gets(es, f, messages)
  {
    hide MessageId, Has;
    forall i | 0 <= i < |messages| ensures Lacks(es', f, messages[i]) <==> Lacks(es, f, messages[i]) {
      var m := messages[i];
      if Given(m.text) {
        assert Has(es', MessageId(f, m.ident, |m.text.value|)) <==> Has(es, MessageId(f, m.ident, |m.text.value|));
      }
    }
  }

  // The messages of one conversation are none of another's.
  lemma TalkElsewhere(es: Dict, f: FieldId, g: FieldId, messages: seq<Message>, parsed: bool)
    requires f.Printable() && g.Printable() && f.FullWithoutSubfield() != g.FullWithoutSubfield()
    requires Apply(es, TalkEdits(f, messages, parsed)).Ok?
    ensures SameTalk(es, Apply(es, TalkEdits(f, messages, parsed)).value, g)
  {
    hide MessageId, Has, Names, Apply, Gives;
    var edits := TalkEdits(f, messages, parsed);
    TalkNames(f, messages, parsed);
    AddsAppend(es, edits);
    forall ident, length ensures !Names(edits, MessageId(g, ident, length)) {
      var key := MessageId(g, ident, length);
      if IsMessage(key, f, messages) {
        var i :| 0 <= i < |messages| && MessageSays(key, f, messages[i]);
        MessageOwner(f, g, messages[i].ident, ident, |messages[i].text.value|, length);
      }
    }
  }

  // A conversation that gets a message grows the context, another one leaves it alone.
  lemma TalkGrows(es: Dict, f: FieldId, messages: seq<Message>, parsed: bool)
    requires Apply(es, TalkEdits(f, messages, parsed)).Ok?
    ensures |Apply(es, TalkEdits(f, messages, parsed)).value| > |es| <==> Gets(es, f, messages)
  {
    hide MessageId, Names, Apply, Gives;
    var edits := TalkEdits(f, messages, parsed);
    var es' := Apply(es, edits).value;
    TalkNames(f, messages, parsed);
    AddsAppend(es, edits);
    if |es'| > |es| {
      TalkBrings(es, f, messages, parsed);
    }
    if Gets(es, f, messages) {
      var i :| 0 <= i < |messages| && Lacks(es, f, messages[i]);
      var key := MessageId(f, messages[i].ident, |messages[i].text.value|);
      assert MessageSays(key, f, messages[i]);
      assert Has(es', key) && !Has(es, key);
      assert |es'| == |es| ==> es' == es;
    }
  }

  lemma {:induction false} TalkBrings(es: Dict, f: FieldId, messages: seq<Message>, parsed: bool)
    requires Apply(es, TalkEdits(f, messages, parsed)).Ok? && Apply(es, TalkEdits(f, messages, parsed)).value != es
    ensures Gets(es, f, messages)
    decreases |messages|
  {
    hide MessageId, Has;
    if messages != [] {
      var m, rest := messages[0], messages[1..];
      ApplyTalk(es, f, messages, parsed, 0);
      assert messages[0..] == messages;
      hide Apply;
      if !Lacks(es, f, m) {
        TalkBrings(es, f, rest, parsed);
        var i :| 0 <= i < |rest| && Lacks(es, f, rest[i]);
        assert Lacks(es, f, messages[i + 1]);
      } else {
        assert Lacks(es, f, messages[0]);
      }
    }
  }

  ghost predicate ApartFields(fs: seq<FieldId>) {
    && (forall i :: 0 <= i < |fs| ==> fs[i].Printable())
    && (forall i, j :: 0 <= i < j < |fs| ==> fs[i].FullWithoutSubfield() != fs[j].FullWithoutSubfield())
  }

  lemma {:induction false} ParentsApart(ps: seq<Paragraph>, analyzed: set<string>, codes: Codes)
    requires AllRetrieved(ps, codes)
    ensures ApartFields(Parents(ps, analyzed, codes))
    ensures forall i :: 0 <= i < |Parents(ps, analyzed, codes)| ==>
      Parents(ps, analyzed, codes)[i].FullWithoutSubfield() !in analyzed
  {
    hide ParagraphIdOk, Pid;
    if ps != [] {
      var f := Pid(ps[0], codes).field;
      var id := f.FullWithoutSubfield();
      if f.kind != "c" || id in analyzed {
        ParentsApart(ps[1..], analyzed, codes);
      } else {
        ParentsApart(ps[1..], analyzed + {id}, codes);
      }
    }
  }

  ghost predicate SomeBad(es: Dict, fs: seq<FieldId>, a: Augmented, codes: Codes) {
    exists i :: 0 <= i < |fs| && BadTalk(es, fs[i], a, codes)
  }

  ghost predicate BadTalk(es: Dict, f: FieldId, a: Augmented, codes: Codes) {
    Gets(es, f, MessagesOf(f, a)) && !Parses(f, a, codes)
  }

  // Some conversation that gets a message has the attachment.
  ghost predicate Attached(es: Dict, fs: seq<FieldId>, a: Augmented, codes: Codes, g: FieldId) {
    exists i :: 0 <= i < |fs| && Brings(es, fs[i], a, codes, g)
  }

  ghost predicate Brings(es: Dict, f: FieldId, a: Augmented, codes: Codes, g: FieldId) {
    Gets(es, f, MessagesOf(f, a)) && g in AttachmentsOf(f, a, codes)
  }

  lemma {:induction false} AllTalkExact(es: Dict, es1: Dict, fs: seq<FieldId>, a: Augmented, codes: Codes)
    requires ApartFields(fs) && forall i :: 0 <= i < |fs| ==> SameTalk(es, es1, fs[i])
    ensures Apply(es1, AllTalk(fs, a, codes)).Ok? <==> !SomeBad(es, fs, a, codes)
    ensures Apply(es1, AllTalk(fs, a, codes)).Ok? ==>
      forall g :: g in Attachments(es1, fs, a, codes) <==> Attached(es, fs, a, codes, g)
    decreases |fs|
  {
    hide SameTalk, TalkEdits, MessagesOf, Parses, AttachmentsOf, Gets, Repeat;
    if fs == [] {
      ApplyNone(es1);
    } else {
      var f, rest := fs[0], fs[1..];
      var messages, parsed := MessagesOf(f, a), Parses(f, a, codes);
      var talk := TalkEdits(f, messages, parsed);
      ApplyConcat(es1, talk, AllTalk(rest, a, codes));
      TalkOk(es1, f, messages, parsed);
      SameGets(es, es1, f, messages);
      TailFacts(es, fs, a, codes);
      hide Apply;
      if Apply(es1, talk).Ok? {
        var es2 := Apply(es1, talk).value;
        TalkGrows(es1, f, messages, parsed);
        forall i | 0 <= i < |rest| ensures SameTalk(es, es2, rest[i]) {
          assert rest[i] == fs[i + 1];
          TalkElsewhere(es1, f, rest[i], messages, parsed);
          SameTalkTrans(es, es1, es2, rest[i]);
        }
        assert ApartFields(rest);
        AllTalkExact(es, es2, rest, a, codes);
        RepeatMembers(AttachmentsOf(f, a, codes), |es2| - |es1|);
      }
    }
  }

  lemma RepeatMembers(fs: seq<FieldId>, n: int)
    ensures forall f :: f in Repeat(fs, n) <==> n > 0 && f in fs
  {
  }

  lemma SameTalkTrans(es: Dict, es1: Dict, es2: Dict, f: FieldId)
    requires SameTalk(es, es1, f) && SameTalk(es1, es2, f)
    ensures SameTalk(es, es2, f)
  {
    hide MessageId, Has;
  }

  lemma TailFacts(es: Dict, fs: seq<FieldId>, a: Augmented, codes: Codes)
    requires fs != []
    ensures SomeBad(es, fs, a, codes) <==> BadTalk(es, fs[0], a, codes) || SomeBad(es, fs[1..], a, codes)
    ensures forall g :: Attached(es, fs, a, codes, g) <==>
      Brings(es, fs[0], a, codes, g) || Attached(es, fs[1..], a, codes, g)
  {
    hide BadTalk, Brings;
    var rest := fs[1..];
    assert forall i :: 0 < i < |fs| ==> rest[i - 1] == fs[i];
    if SomeBad(es, rest, a, codes) {
      var i :| 0 <= i < |rest| && BadTalk(es, rest[i], a, codes);
      assert fs[i + 1] == rest[i];
    }
    forall g ensures Attached(es, fs, a, codes, g) <==>
      Brings(es, fs[0], a, codes, g) || Attached(es, rest, a, codes, g) {
      if Attached(es, rest, a, codes, g) {
        var i :| 0 <= i < |rest| && Brings(es, rest[i], a, codes, g);
        assert fs[i + 1] == rest[i];
      }
    }
  }

  // ----- the whole strategy: when it fails, and what it leaves -----

  lemma ParagraphsAdded(es: Dict, ps: seq<Paragraph>)
    ensures var r := Apply(es, MissingParagraphEdits(ps));
      && r.Ok? && After(es, MissingParagraphEdits(ps)) == r.value
      && forall key :: Has(r.value, key) <==> Has(es, key) || IsParagraph(key, ps)
  {
    hide Names, Gives, Apply;
    ApplyPasses(es, MissingParagraphEdits(ps));
    MissingNames(ps);
    AddsAppend(es, MissingParagraphEdits(ps));
  }

  lemma TalkedGets(es: Dict, ps: seq<Paragraph>, f: FieldId, a: Augmented)
    ensures Talked(es, ps, f, a) <==> Gets(After(es, MissingParagraphEdits(ps)), f, MessagesOf(f, a))
  {
    hide MessageId, MessagesOf, After, IsParagraph, Has;
    ParagraphsAdded(es, ps);
    var es1, messages := After(es, MissingParagraphEdits(ps)), MessagesOf(f, a);
    forall i | 0 <= i < |messages| ensures NewMessage(es, ps, f, messages, i) <==> Lacks(es1, f, messages[i]) {
      var m := messages[i];
      if Given(m.text) {
        var key := MessageId(f, m.ident, |m.text.value|);
        assert Has(es1, key) <==> Has(es, key) || IsParagraph(key, ps);
      }
    }
    if Gets(es1, f, messages) {
      var i :| 0 <= i < |messages| && Lacks(es1, f, messages[i]);
      assert NewMessage(es, ps, f, messages, i);
    }
  }

  // Some matched conversation gets a message and has a malformed attachment id.
  ghost predicate Malformed(es: Dict, ps: seq<Paragraph>, a: Augmented, codes: Codes)
    requires AllRetrieved(ps, codes)
  {
    exists i :: 0 <= i < |Parents(ps, {}, codes)| && MalformedAt(es, ps, Parents(ps, {}, codes)[i], a, codes)
  }

  ghost predicate MalformedAt(es: Dict, ps: seq<Paragraph>, f: FieldId, a: Augmented, codes: Codes) {
    Talked(es, ps, f, a) && exists j ::
      0 <= j < |AttachmentIds(f, a)| &&
      ParseField(AttachmentIds(f, a)[j], codes).None?
  }

  lemma MalformedBad(es: Dict, ps: seq<Paragraph>, a: Augmented, codes: Codes)
    requires AllRetrieved(ps, codes)
    ensures Malformed(es, ps, a, codes) <==> SomeBad(After(es, MissingParagraphEdits(ps)), Parents(ps, {}, codes), a,
      codes)
  {
    hide Talked, Gets, After, AttachmentIds, ParseField, ParsedFields, Parents, ParagraphIdOk, MessagesOf;
    var fs, es1 := Parents(ps, {}, codes), After(es, MissingParagraphEdits(ps));
    forall i | 0 <= i < |fs| ensures MalformedAt(es, ps, fs[i], a, codes) <==> BadTalk(es1, fs[i], a, codes) {
      TalkedGets(es, ps, fs[i], a);
      ParsesExactly(AttachmentIds(fs[i], a), codes);
    }
  }

  // The context the conversations' turn leaves, when it raises nothing.
  lemma ConversationSplit(es: Dict, ps: seq<Paragraph>, attachmentsText: bool, a: Augmented, attached: Augmented,
      codes: Codes)
    requires AllRetrieved(ps, codes)
    ensures var es1, fs := After(es, MissingParagraphEdits(ps)), Parents(ps, {}, codes);
      var r := Apply(es, ConversationEdits(es, ps, attachmentsText, a, attached, codes));
      && (r.Ok? <==> Apply(es1, AllTalk(fs, a, codes)).Ok?)
      && (r.Err? ==> r == Apply(es1, AllTalk(fs, a, codes)))
  {
    hide Apply, Parents, Attachments, AllTalk, AttachmentEdits, MissingParagraphEdits, ParagraphIdOk, After;
    var es1, fs := After(es, MissingParagraphEdits(ps)), Parents(ps, {}, codes);
    ParagraphsAdded(es, ps);
    var first, talk := MissingParagraphEdits(ps), AllTalk(fs, a, codes);
    var rest := if attachmentsText then AttachmentEdits(Attachments(es1, fs, a, codes), attached) else [];
    ApplyConcat(es, first + talk, rest);
    ApplyConcat(es, first, talk);
    if Apply(es1, talk).Ok? {
      ApplyPasses(Apply(es1, talk).value, rest);
    }
  }

  lemma AllTalkError(es: Dict, fs: seq<FieldId>, a: Augmented, codes: Codes)
    ensures Apply(es, AllTalk(fs, a, codes)).Err? ==> Apply(es, AllTalk(fs, a, codes)) == Err(ValueError)
  {
    hide AllTalk, Apply;
    AllTalkNames(fs, a, codes);
    AddsFail(es, AllTalk(fs, a, codes));
  }

  // The strategy raises exactly when a matched conversation gets a message and one of its
  // attachment ids is malformed.
  lemma ConversationFails(es: Dict, ps: seq<Paragraph>, attachmentsText: bool, a: Augmented, attached: Augmented,
      codes: Codes)
    requires AllRetrieved(ps, codes)
    ensures var r := Apply(es, ConversationEdits(es, ps, attachmentsText, a, attached, codes));
      (r.Err? <==> Malformed(es, ps, a, codes)) && (r.Err? ==> r == Err(ValueError))
  {
    hide Apply, Parents, Attachments, AllTalk, AttachmentEdits, MissingParagraphEdits, ParagraphIdOk, After,
      Malformed, SomeBad,
      ConversationEdits, ApartFields, SameTalk;
    var es1, fs := After(es, MissingParagraphEdits(ps)), Parents(ps, {}, codes);
    ConversationSplit(es, ps, attachmentsText, a, attached, codes);
    ParentsApart(ps, {}, codes);
    SameTalkAll(es1, fs);
    AllTalkExact(es1, es1, fs, a, codes);
    AllTalkError(es1, fs, a, codes);
    MalformedBad(es, ps, a, codes);
  }

  lemma SameTalkAll(es: Dict, fs: seq<FieldId>)
    ensures forall i :: 0 <= i < |fs| ==> SameTalk(es, es, fs[i])
  {
  }

  // ----- the blocks it adds -----

  ghost predicate IsTalk(key: string, fs: seq<FieldId>, a: Augmented) {
    exists i :: 0 <= i < |fs| && IsMessage(key, fs[i], MessagesOf(fs[i], a))
  }

  ghost predicate TalkText(key: string, text: string, fs: seq<FieldId>, a: Augmented) {
    exists i :: 0 <= i < |fs| && MessageText(key, text, fs[i], MessagesOf(fs[i], a))
  }

  lemma TalkCons(fs: seq<FieldId>, a: Augmented, key: string, text: string)
    requires fs != []
    ensures IsTalk(key, fs, a) <==> IsMessage(key, fs[0], MessagesOf(fs[0], a)) || IsTalk(key, fs[1..], a)
    ensures TalkText(key, text, fs, a) <==>
      MessageText(key, text, fs[0], MessagesOf(fs[0], a)) ||
      TalkText(key, text, fs[1..], a)
  {
    hide IsMessage, MessageText, MessagesOf;
    var rest := fs[1..];
    assert forall i :: 0 < i < |fs| ==> rest[i - 1] == fs[i];
    if IsTalk(key, rest, a) {
      var i :| 0 <= i < |rest| && IsMessage(key, rest[i], MessagesOf(rest[i], a));
      assert fs[i + 1] == rest[i];
    }
    if TalkText(key, text, rest, a) {
      var i :| 0 <= i < |rest| && MessageText(key, text, rest[i], MessagesOf(rest[i], a));
      assert fs[i + 1] == rest[i];
    }
  }

  lemma {:induction false} AllTalkNames(fs: seq<FieldId>, a: Augmented, codes: Codes)
    ensures AddsOnly(AllTalk(fs, a, codes))
    ensures forall key :: Names(AllTalk(fs, a, codes), key) <==> IsTalk(key, fs, a)
    ensures forall key, text :: Gives(AllTalk(fs, a, codes), key, text) <==> TalkText(key, text, fs, a)
  {
    hide Names, Gives, AddsOnly, IsMessage, MessageText, MessagesOf, Parses, TalkEdits;
    NoneNamed();
    if fs != [] {
      AllTalkNames(fs[1..], a, codes);
      var messages, parsed := MessagesOf(fs[0], a), Parses(fs[0], a, codes);
      TalkNames(fs[0], messages, parsed);
      ConcatNamed(TalkEdits(fs[0], messages, parsed), AllTalk(fs[1..], a, codes));
      hide IsTalk, TalkText;
      forall key ensures IsTalk(key, fs, a) <==> IsMessage(key, fs[0], messages) || IsTalk(key, fs[1..], a) {
        TalkCons(fs, a, key, "");
      }
      forall key, text
        ensures TalkText(key, text, fs, a) <==>
          MessageText(key, text, fs[0], messages) ||
          TalkText(key, text, fs[1..], a)
      {
        TalkCons(fs, a, key, text);
      }
    }
  }

  // The block of an attachment that has a text.
  predicate AttachmentSays(key: string, g: FieldId, a: Augmented) {
    var field := Find(a.fields, g.Full());
    field.Some? && Given(field.value.text) && key == AttachmentId(g, |field.value.text.value|)
  }

  predicate AttachmentText(key: string, text: string, g: FieldId, a: Augmented) {
    AttachmentSays(key, g, a) && text == "Attachment " + g.key + ": " + Find(a.fields, g.Full()).value.text.value +
      "\n\n"
  }

  lemma OneAttachmentNames(g: FieldId, a: Augmented)
    ensures AddsOnly(OneAttachment(g, a))
    ensures forall key :: Names(OneAttachment(g, a), key) <==> AttachmentSays(key, g, a)
    ensures forall key, text :: Gives(OneAttachment(g, a), key, text) <==> AttachmentText(key, text, g, a)
  {
    hide Names, Gives, AddsOnly, AttachmentId;
    NoneNamed();
    var edits := OneAttachment(g, a);
    if edits != [] {
      OneNamed(edits[0]);
      assert edits == [edits[0]];
    }
  }

  lemma {:induction false} AttachmentNames(gs: seq<FieldId>, a: Augmented)
    ensures AddsOnly(AttachmentEdits(gs, a))
    ensures forall key :: Names(AttachmentEdits(gs, a), key) <==> exists g :: g in gs && AttachmentSays(key, g, a)
    ensures forall key, text :: Gives(AttachmentEdits(gs, a), key, text) <==>
      exists g :: g in gs && AttachmentText(key, text, g, a)
  {
    hide Names, Gives, AddsOnly, OneAttachment, AttachmentSays, AttachmentText;
    NoneNamed();
    if gs != [] {
      AttachmentNames(gs[1..], a);
      OneAttachmentNames(gs[0], a);
      ConcatNamed(OneAttachment(gs[0], a), AttachmentEdits(gs[1..], a));
      assert forall g :: g in gs <==> g == gs[0] || g in gs[1..];
    }
  }

  // An attachment of a conversation that got a message.
  ghost predicate Collected(es: Dict, ps: seq<Paragraph>, fs: seq<FieldId>, a: Augmented, codes: Codes, g: FieldId) {
    exists i :: 0 <= i < |fs| && CollectedFrom(es, ps, fs[i], a, codes, g)
  }

  ghost predicate CollectedFrom(es: Dict, ps: seq<Paragraph>, f: FieldId, a: Augmented, codes: Codes, g: FieldId) {
    Talked(es, ps, f, a) && g in AttachmentsOf(f, a, codes)
  }

  // The blocks the strategy is for: the retrieved paragraphs, the messages with a text of the
  // matched conversations and, when asked for, the attachments of those that got a message.
  ghost predicate ConversationBlock(key: string, es: Dict, ps: seq<Paragraph>, attachmentsText: bool, a: Augmented,
                                    attached: Augmented, codes: Codes)
    requires AllRetrieved(ps, codes)
  {
    var fs := Parents(ps, {}, codes);
    || IsParagraph(key, ps) || IsTalk(key, fs, a)
    || (attachmentsText && exists g :: Collected(es, ps, fs, a, codes, g) && AttachmentSays(key, g, attached))
  }

  ghost predicate ConversationText(key: string, text: string, es: Dict, ps: seq<Paragraph>, a: Augmented,
                                   attached: Augmented, codes: Codes)
    requires AllRetrieved(ps, codes)
  {
    var fs := Parents(ps, {}, codes);
    || ParagraphText(key, text, ps) || TalkText(key, text, fs, a)
    || exists g :: Collected(es, ps, fs, a, codes, g) && AttachmentText(key, text, g, attached)
  }

  // The old blocks stay as they are; behind them come, once each, exactly those blocks that were
  // missing, with their texts.
  ghost predicate ConversationAdded(es: Dict, es': Dict, ps: seq<Paragraph>, attachmentsText: bool, a: Augmented,
                                    attached: Augmented, codes: Codes)
    requires AllRetrieved(ps, codes)
  {
    && es <= es' && Distinct(es')
    && (forall key :: Has(es', key) <==>
      Has(es, key) ||
      ConversationBlock(key, es, ps, attachmentsText, a, attached, codes))
    && (forall i :: |es| <= i < |es'| ==> ConversationText(es'[i].key, es'[i].text, es, ps, a, attached, codes))
  }

  lemma CollectedAttached(es: Dict, ps: seq<Paragraph>, fs: seq<FieldId>, a: Augmented, codes: Codes, g: FieldId)
    ensures Collected(es, ps, fs, a, codes, g) <==> Attached(After(es, MissingParagraphEdits(ps)), fs, a, codes, g)
  {
    hide Talked, Gets, After, AttachmentsOf, MessagesOf;
    forall i | 0 <= i < |fs|
      ensures CollectedFrom(es, ps, fs[i], a, codes, g) <==>
        Brings(After(es, MissingParagraphEdits(ps)), fs[i], a, codes, g)
    {
      TalkedGets(es, ps, fs[i], a);
    }
  }

  // The attachments whose texts are added, whatever order they come in.
  lemma AttachmentsExact(es: Dict, ps: seq<Paragraph>, a: Augmented, codes: Codes)
    requires AllRetrieved(ps, codes) && !Malformed(es, ps, a, codes)
    ensures var es1, fs := After(es, MissingParagraphEdits(ps)), Parents(ps, {}, codes);
      forall g :: g in Attachments(es1, fs, a, codes) <==> Collected(es, ps, fs, a, codes, g)
  {
    hide Parents, Attachments, AllTalk, MissingParagraphEdits, ParagraphIdOk, After, Malformed, SomeBad, ApartFields,
      SameTalk,
      Collected, Attached, Apply;
    var es1, fs := After(es, MissingParagraphEdits(ps)), Parents(ps, {}, codes);
    ParentsApart(ps, {}, codes);
    SameTalkAll(es1, fs);
    AllTalkExact(es1, es1, fs, a, codes);
    MalformedBad(es, ps, a, codes);
    forall g ensures Collected(es, ps, fs, a, codes, g) <==> Attached(es1, fs, a, codes, g) {
      CollectedAttached(es, ps, fs, a, codes, g);
    }
  }

  lemma CollectedNames(es: Dict, ps: seq<Paragraph>, gs: seq<FieldId>, fs: seq<FieldId>, a: Augmented,
      attached: Augmented, codes: Codes)
    requires forall g :: g in gs <==> Collected(es, ps, fs, a, codes, g)
    ensures AddsOnly(AttachmentEdits(gs, attached))
    ensures forall key :: Names(AttachmentEdits(gs, attached), key) <==>
      exists g :: Collected(es, ps, fs, a, codes, g) && AttachmentSays(key, g, attached)
    ensures forall key, text :: Gives(AttachmentEdits(gs, attached), key, text) ==>
      exists g :: Collected(es, ps, fs, a, codes, g) && AttachmentText(key, text, g, attached)
  {
    hide Collected, AttachmentSays, AttachmentText, Names, Gives;
    AttachmentNames(gs, attached);
    forall key ensures Names(AttachmentEdits(gs, attached), key) <==>
      exists g :: Collected(es, ps, fs, a, codes, g) && AttachmentSays(key, g, attached)
    {
      if g :| Collected(es, ps, fs, a, codes, g) && AttachmentSays(key, g, attached) {
        assert g in gs;
      }
    }
  }

  lemma ConversationNames(es: Dict, ps: seq<Paragraph>, attachmentsText: bool, a: Augmented, attached: Augmented,
      codes: Codes)
    requires AllRetrieved(ps, codes) && !Malformed(es, ps, a, codes)
    ensures var edits := ConversationEdits(es, ps, attachmentsText, a, attached, codes);
      && AddsOnly(edits)
      && (forall key :: Names(edits, key) <==> ConversationBlock(key, es, ps, attachmentsText, a, attached, codes))
      && (forall key, text :: Gives(edits, key, text) ==> ConversationText(key, text, es, ps, a, attached, codes))
  {
    hide Parents, Attachments, AllTalk, AttachmentEdits, MissingParagraphEdits, ParagraphIdOk, After, Malformed,
      Collected,
      IsParagraph, ParagraphText, IsTalk, TalkText, AttachmentSays, AttachmentText, Names, Gives, AddsOnly;
    var es1, fs := After(es, MissingParagraphEdits(ps)), Parents(ps, {}, codes);
    var first, talk, gs := MissingParagraphEdits(ps), AllTalk(fs, a, codes), Attachments(es1, fs, a, codes);
    MissingNames(ps);
    AllTalkNames(fs, a, codes);
    ConcatNamed(first, talk);
    NoneNamed();
    AttachmentsExact(es, ps, a, codes);
    var last := if attachmentsText then AttachmentEdits(gs, attached) else [];
    ConcatNamed(first + talk, last);
    assert ConversationEdits(es, ps, attachmentsText, a, attached, codes) == first + talk + last;
    forall g ensures g in gs <==> Collected(es, ps, fs, a, codes, g) {
      assert g in Attachments(After(es, MissingParagraphEdits(ps)), Parents(ps, {}, codes), a, codes) <==>
        Collected(es, ps, Parents(ps, {}, codes), a, codes, g);
    }
    CollectedNames(es, ps, gs, fs, a, attached, codes);
  }

  lemma ConversationExact(es: Dict, ps: seq<Paragraph>, attachmentsText: bool, a: Augmented, attached: Augmented,
      codes: Codes)
    requires AllRetrieved(ps, codes)
    ensures var r := Apply(es, ConversationEdits(es, ps, attachmentsText, a, attached, codes));
      r.Ok? && Distinct(r.value) ==> ConversationAdded(es, r.value, ps, attachmentsText, a, attached, codes)
  {
    hide ConversationEdits, ConversationBlock, ConversationText, Names, Gives, Apply, Malformed, ParagraphIdOk, Has,
      Distinct;
    var edits := ConversationEdits(es, ps, attachmentsText, a, attached, codes);
    ConversationFails(es, ps, attachmentsText, a, attached, codes);
    if Apply(es, edits).Ok? {
      ConversationNames(es, ps, attachmentsText, a, attached, codes);
      AddsAppend(es, edits);
    }
  }

  // ----- the method -----

  method CollectParents(ps: seq<Paragraph>, codes: Codes) returns (fs: seq<FieldId>)
    requires AllRetrieved(ps, codes)
    ensures fs == Parents(ps, {}, codes)
  {
    hide ParagraphIdOk, Pid;
    fs := [];
    var analyzed: set<string> := {};
    assert ps[0..] == ps;
    for i := 0 to |ps|
      invariant fs + Parents(ps[i..], analyzed, codes) == Parents(ps, {}, codes)
    {
      assert ps[i..][1..] == ps[i + 1..];
      var f := Pid(ps[i], codes).field;
      var id := f.FullWithoutSubfield();
      if f.kind != "c" || id in analyzed {
        continue;
      }
      ghost var rest := Parents(ps[i + 1..], analyzed + {id}, codes);
      assert fs + ([f] + rest) == (fs + [f]) + rest;
      fs, analyzed := fs + [f], analyzed + {id};
    }
  }

  // The rest of the list, parsed behind what has been parsed.
  function Onto(fs: seq<FieldId>, rest: Option<seq<FieldId>>): Option<seq<FieldId>> {
    if rest.None? then None else Some(fs + rest.value)
  }

  lemma ParsedNext(fs: seq<FieldId>, ids: seq<string>, i: nat, codes: Codes)
    requires i < |ids|
    ensures var f := ParseField(ids[i], codes);
      Onto(fs, ParsedFields(ids[i..], codes)) ==
        if f.None? then None else Onto(fs + [f.value], ParsedFields(ids[i + 1..], codes))
  {
    hide ParseField;
    assert ids[i..][1..] == ids[i + 1..];
    var f, rest := ParseField(ids[i], codes), ParsedFields(ids[i + 1..], codes);
    if f.Some? && rest.Some? {
      assert fs + ([f.value] + rest.value) == (fs + [f.value]) + rest.value;
    }
  }

  lemma ParsedEnds(fs: seq<FieldId>, ids: seq<string>, codes: Codes)
    ensures Onto([], ParsedFields(ids[0..], codes)) == ParsedFields(ids, codes)
    ensures Onto(fs, ParsedFields(ids[|ids|..], codes)) == Some(fs)
  {
    assert ids[0..] == ids && ids[|ids|..] == [] && fs + [] == fs;
    assert forall r: seq<FieldId> :: [] + r == r;
  }

  // [FieldId.from_string(id) for id in ids], which raises at a malformed one
  method ParseAttachments(ids: seq<string>, codes: Codes) returns (fs: Option<seq<FieldId>>)
    ensures fs == ParsedFields(ids, codes)
  {
    hide *;
    var r := [];
    ParsedEnds([], ids, codes);
    for i := 0 to |ids|
      invariant ParsedFields(ids, codes) == Onto(r, ParsedFields(ids[i..], codes))
    {
      ParsedNext(r, ids, i, codes);
      var f := ParseField(ids[i], codes);
      if f.None? {
        return None;
      }
      r := r + [f.value];
    }
    ParsedEnds(r, ids, codes);
    return Some(r);
  }

  // The messages of one conversation; its attachments are noted with every new one.
  method AddTalk(context: CappedPromptContext, f: FieldId, messages: seq<Message>, given: seq<string>,
      before: seq<FieldId>, codes: Codes)
    returns (r: Outcome<Error>, attachments: seq<FieldId>)
    requires context.Valid()
    modifies context`output
    ensures context.Valid() && old(context.output) <= context.output
    ensures var parsed := ParsedFields(given, codes);
      Apply(old(context.output), TalkEdits(f, messages, parsed.Some?)) ==
        if r.Pass? then Ok(context.output) else Err(ValueError)
    ensures r.Fail? ==> r.error == ValueError
    ensures r.Pass? ==>
      var parsed := ParsedFields(given, codes);
      attachments == before + if parsed.None? then []
        else Repeat(parsed.value, |context.output| - |old(context.output)|)
  {
    hide MessageId, Apply, ParsedFields;
    attachments := before;
    ghost var parsed := ParsedFields(given, codes);
    ghost var own := if parsed.None? then [] else parsed.value;
    assert messages[0..] == messages && before + [] == before;
    for i := 0 to |messages|
      invariant context.Valid() && old(context.output) <= context.output
      invariant Apply(context.output, TalkEdits(f, messages[i..], parsed.Some?)) ==
        Apply(old(context.output), TalkEdits(f, messages, parsed.Some?))
      invariant attachments == before + Repeat(own, |context.output| - |old(context.output)|)
      invariant parsed.None? ==> attachments == before
    {
      var m := messages[i];
      ApplyTalk(context.output, f, messages, parsed.Some?, i);
      if !Given(m.text) {
        continue;
      }
      var text := m.text.value;
      var pid := MessageId(f, m.ident, |text|);
      if context.Contains(pid) {
        continue;
      }
      PutAbsent(context.output, pid, text);
      context.SetItem(pid, text);
      var fields := ParseAttachments(given, codes);
      if fields.None? {
        return Fail(ValueError), attachments;
      }
      ghost var sofar := Repeat(own, |context.output| - 1 - |old(context.output)|);
      assert (before + sofar) + own == before + (sofar + own);
      attachments := attachments + fields.value;
    }
    ApplyNone(context.output);
    return Pass, attachments;
  }

  lemma ApplyTalk(es: Dict, f: FieldId, messages: seq<Message>, parsed: bool, i: nat)
    requires i < |messages|
    ensures var m, rest := messages[i], TalkEdits(f, messages[i + 1..], parsed);
            Apply(es, TalkEdits(f, messages[i..], parsed)) ==
            if !Given(m.text) || Has(es, MessageId(f, m.ident, |m.text.value|)) then Apply(es, rest)
            else if !parsed then Err(ValueError)
            else Apply(es + [Entry(MessageId(f, m.ident, |m.text.value|), m.text.value)], rest)
  {
    hide MessageId;
    var m, rest := messages[i], TalkEdits(f, messages[i + 1..], parsed);
    assert messages[i..][1..] == messages[i + 1..];
    if Given(m.text) {
      var e := AddWith(MessageId(f, m.ident, |m.text.value|), m.text.value, parsed);
      ApplyConcat(es, [e], rest);
      ApplyOne(es, e);
    } else {
      assert [] + rest == rest;
    }
  }

  method AddAllTalk(context: CappedPromptContext, fs: seq<FieldId>, a: Augmented, codes: Codes)
    returns (r: Outcome<Error>, attachments: seq<FieldId>)
    requires context.Valid()
    modifies context`output
    ensures context.Valid() && old(context.output) <= context.output
    ensures Apply(old(context.output), AllTalk(fs, a, codes)) == if r.Pass? then Ok(context.output) else Err(ValueError)
    ensures r.Fail? ==> r.error == ValueError
    ensures r.Pass? ==> attachments == Attachments(old(context.output), fs, a, codes)
  {
    hide Apply, TalkEdits, MessagesOf, AttachmentIds, ParsedFields, Repeat, Attachments;
    attachments := [];
    NoAttachments(context.output, fs, a, codes);
    ghost var before := context.output;
    assert fs[0..] == fs;
    for i := 0 to |fs|
      invariant context.Valid() && before <= context.output
      invariant Apply(context.output, AllTalk(fs[i..], a, codes)) == Apply(before, AllTalk(fs, a, codes))
      invariant attachments + Attachments(context.output, fs[i..], a, codes) == Attachments(before, fs, a, codes)
    {
      assert fs[i..][1..] == fs[i + 1..];
      ghost var here := context.output;
      ghost var talk := TalkEdits(fs[i], MessagesOf(fs[i], a), Parses(fs[i], a, codes));
      ApplyConcat(here, talk, AllTalk(fs[i + 1..], a, codes));
      ghost var sofar := attachments;
      r, attachments := AddTalk(context, fs[i], MessagesOf(fs[i], a), AttachmentIds(fs[i], a), attachments, codes);
      if r.Fail? {
        return;
      }
      assert context.output == After(here, talk);
      NoRepeat(|context.output| - |here|);
      AttachmentsNext(here, context.output, fs, a, codes, i, sofar);
      assert attachments == sofar + Repeat(AttachmentsOf(fs[i], a, codes), |context.output| - |here|);
    }
    ApplyNone(context.output);
    return Pass, attachments;
  }

  lemma NoAttachments(es: Dict, fs: seq<FieldId>, a: Augmented, codes: Codes)
    ensures [] + Attachments(es, fs, a, codes) == Attachments(es, fs, a, codes)
    ensures forall es' :: Attachments(es', fs[|fs|..], a, codes) == []
  {
  }

  lemma AttachmentsNext(es: Dict, es': Dict, fs: seq<FieldId>, a: Augmented, codes: Codes, i: nat, sofar: seq<FieldId>)
    requires i < |fs| && es' == After(es, TalkEdits(fs[i], MessagesOf(fs[i], a), Parses(fs[i], a, codes)))
    ensures sofar + Attachments(es, fs[i..], a, codes)
         == (sofar + Repeat(AttachmentsOf(fs[i], a, codes), |es'| - |es|)) + Attachments(es', fs[i + 1..], a, codes)
  {
    hide *;
    AttachmentsCons(es, es', fs[i..], a, codes);
    assert fs[i..][1..] == fs[i + 1..] && fs[i..][0] == fs[i];
    SeqAssoc(sofar, Repeat(AttachmentsOf(fs[i], a, codes), |es'| - |es|), Attachments(es', fs[i + 1..], a, codes));
  }

  lemma SeqAssoc(x: seq<FieldId>, y: seq<FieldId>, z: seq<FieldId>)
    ensures x + (y + z) == (x + y) + z
  {
  }

  lemma AttachmentsCons(es: Dict, es': Dict, fs: seq<FieldId>, a: Augmented, codes: Codes)
    requires fs != [] && es' == After(es, TalkEdits(fs[0], MessagesOf(fs[0], a), Parses(fs[0], a, codes)))
    ensures Attachments(es, fs, a, codes)
         == Repeat(AttachmentsOf(fs[0], a, codes), |es'| - |es|) + Attachments(es', fs[1..], a, codes)
  {
    hide After, TalkEdits, MessagesOf, Parses, AttachmentsOf, Repeat;
  }

  lemma NoRepeat(n: int)
    ensures Repeat([], n) == []
  {
    assert forall i :: 0 <= i < |Repeat([], n)| ==> Repeat([], n)[i] in Repeat([], n);
  }

  method AddAttachments(context: CappedPromptContext, fs: seq<FieldId>, a: Augmented)
    requires context.Valid()
    modifies context`output
    ensures context.Valid() && Apply(old(context.output), AttachmentEdits(fs, a)) == Ok(context.output)
  {
    hide Apply, Step, AttachmentId;
    assert fs[0..] == fs;
    for i := 0 to |fs|
      invariant context.Valid()
      invariant Apply(context.output, AttachmentEdits(fs[i..], a)) == Apply(old(context.output), AttachmentEdits(fs, a))
    {
      assert fs[i..][1..] == fs[i + 1..];
      ApplyConcat(context.output, OneAttachment(fs[i], a), AttachmentEdits(fs[i + 1..], a));
      ApplyNone(context.output);
      var field := Find(a.fields, fs[i].Full());
      if field.Some? && Given(field.value.text) {
        var text := field.value.text.value;
        AddItem(context, AttachmentId(fs[i], |text|), "Attachment " + fs[i].key + ": " + text + "\n\n");
      }
    }
    ApplyNone(context.output);
  }

  // conversation_prompt_context
  method Conversation(context: CappedPromptContext, ps: seq<Paragraph>, attachmentsText: bool, a: Augmented,
      attached: Augmented, codes: Codes)
    returns (r: Outcome<Error>)
    requires context.Valid() && AllRetrieved(ps, codes)
    modifies context`output
    ensures context.Valid()
    ensures Apply(old(context.output), ConversationEdits(old(context.output), ps, attachmentsText, a, attached,
      codes)) ==
            if r.Pass? then Ok(context.output) else Err(ValueError)
    ensures r.Fail? ==> r.error == ValueError
    ensures r.Fail? <==> Malformed(old(context.output), ps, a, codes)
    ensures r.Pass? ==> ConversationAdded(old(context.output), context.output, ps, attachmentsText, a, attached, codes)
  {
    hide Apply, Parents, Attachments, AllTalk, AttachmentEdits, MissingParagraphEdits, ParagraphIdOk, Malformed,
      ConversationAdded;
    ghost var before := context.output;
    ConversationFails(before, ps, attachmentsText, a, attached, codes);
    ConversationExact(before, ps, attachmentsText, a, attached, codes);
    AddMissingParagraphs(context, ps);
    assert context.output == After(before, MissingParagraphEdits(ps));
    var fs := CollectParents(ps, codes);
    ghost var first, talk := MissingParagraphEdits(ps), AllTalk(fs, a, codes);
    ApplyConcat(before, first, talk);
    ghost var rest := if attachmentsText then AttachmentEdits(Attachments(context.output, fs, a, codes), attached)
      else [];
    ApplyConcat(before, first + talk, rest);
    var attachments;
    r, attachments := AddAllTalk(context, fs, a, codes);
    if r.Fail? {
      return;
    }
    if attachmentsText {
      AddAttachments(context, attachments, attached);
    } else {
      ApplyNone(context.output);
    }
    return Pass;
  }
}
