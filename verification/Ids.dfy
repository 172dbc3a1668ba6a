// Field and paragraph ids (ask/utils/ids.py) and parse_text_block_id of ask/search/prompt.py.
module Ids {
  import opened Basics
  import opened Text

  // text, file, link, generic, conversation
  predicate IsFieldType(s: string) { s in {"t", "f", "u", "a", "c"} }

  // FIELD_TYPE_PB_TO_STR: the numbers of the protobuf enum FieldType, which is not part of this
  // model, with the letter of each.
  type Codes = c: map<int, string> | forall k :: k in c ==> IsFieldType(c[k])

  datatype FieldId = FieldId(rid: string, kind: string, key: string, subfield: Option<string>) {
    function FullWithoutSubfield(): string { rid + "/" + kind + "/" + key }

    function Full(): string {
      if subfield.None? then FullWithoutSubfield() else FullWithoutSubfield() + "/" + subfield.value
    }

    // What printing needs in order to be undone: a known type and no slash inside a part.
    predicate Printable() {
      IsFieldType(kind) && '/' !in rid && '/' !in key && (subfield.Some? ==> '/' !in subfield.value)
    }

    function Parts(): seq<string> {
      [rid, kind, key] + if subfield.None? then [] else [subfield.value]
    }
  }

  datatype ParagraphId = ParagraphId(field: FieldId, start: int, end: int) {
    // A negative bound prints with a minus sign.
    function Full(): string { field.Full() + "/" + Int(start) + "-" + Int(end) }

    predicate Printable() { field.Printable() && start >= 0 && end >= 0 }
  }

  datatype TextBlockId = Paragraph(paragraph: ParagraphId) | Field(id: FieldId) {
    function FieldOf(): FieldId { if Paragraph? then paragraph.field else id }
    function Rid(): string { FieldOf().rid }
    function Full(): string { if Paragraph? then paragraph.Full() else id.Full() }
  }

  // str(n)
  function Int(n: int): string { if n < 0 then "-" + Dec(-n) else Dec(n) }

  // int() undoes str() on all integers.
  lemma IntReads(n: int)
    ensures ParseInt(Int(n)) == Some(n)
  {
    hide ParseInt, Dec;
    if n < 0 {
      ParseIntSigned(-n);
    } else {
      ParseIntDec(n);
    }
  }

  // _parse_field_type: a letter, or the number of a known type
  function ParseFieldType(s: string, codes: Codes): (r: Option<string>)
    ensures r.Some? ==> IsFieldType(r.value)
  {
    if IsFieldType(s) then Some(s)
    else
      var n := ParseInt(s);
      if n.Some? && n.value in codes then Some(codes[n.value]) else None
  }

  // FieldId.from_string; None where it raises ValueError
  function ParseField(s: string, codes: Codes): (r: Option<FieldId>)
    ensures r.Some? ==> r.value.Printable()
  {
    var parts := Split(s, '/');
    SplitSound(s, '/');
    if |parts| != 3 && |parts| != 4 then None
    else
      var kind := ParseFieldType(parts[1], codes);
      if kind.None? then None
      else
        assert '/' !in parts[0] && '/' !in parts[2] && (|parts| == 4 ==> '/' !in parts[3]);
        Some(FieldId(parts[0], kind.value, parts[2], if |parts| == 4 then Some(parts[3]) else None))
  }

  // The bounds of a paragraph: two numbers with a dash between them.
  function ParseBounds(s: string): (r: Option<(int, int)>)
    ensures r.Some? ==> r.value.0 >= 0 && r.value.1 >= 0
  {
    var bounds := Split(s, '-');
    SplitSound(s, '-');
    if |bounds| != 2 then None
    else
      assert '-' !in bounds[0] && '-' !in bounds[1];
      var start, end := ParseInt(bounds[0]), ParseInt(bounds[1]);
      if start.Some? && end.Some? then Some((start.value, end.value)) else None
  }

  // ParagraphId.from_string
  function ParseParagraph(s: string, codes: Codes): (r: Option<ParagraphId>)
    ensures r.Some? ==> r.value.Printable()
  {
    var parts := Split(s, '/');
    var bounds := ParseBounds(parts[|parts| - 1]);
    var field := ParseField(Join(parts[..|parts| - 1], '/'), codes);
    if bounds.Some? && field.Some? then Some(ParagraphId(field.value, bounds.value.0, bounds.value.1)) else None
  }

  // parse_text_block_id: a paragraph if it reads as one, otherwise a field
  function ParseTextBlock(s: string, codes: Codes): Option<TextBlockId> {
    var p := ParseParagraph(s, codes);
    if p.Some? then Some(Paragraph(p.value))
    else
      var f := ParseField(s, codes);
      if f.Some? then Some(Field(f.value)) else None
  }

  // ----- fields -----

  // A type is read from its letter or from a number that has one; anything else is refused.
  lemma FieldTypeReads(s: string, codes: Codes)
    ensures s in {"t", "f", "u", "a", "c"} ==> ParseFieldType(s, codes) == Some(s)
    ensures forall n: nat :: n in codes ==> ParseFieldType(Dec(n), codes) == Some(codes[n])
    ensures ParseFieldType(s, codes).None? <==>
      s !in {"t", "f", "u", "a", "c"} && (ParseInt(s).Some? ==> ParseInt(s).value !in codes)
  {
    forall n: nat | n in codes ensures ParseFieldType(Dec(n), codes) == Some(codes[n]) {
      ParseIntDec(n);
      assert IsDigit(Dec(n)[0]);
    }
  }

  lemma FullParts(f: FieldId)
    ensures f.Full() == Join(f.Parts(), '/')
  {
    var parts := f.Parts();
    assert parts[1..][1..] == parts[2..];
    if f.subfield.Some? {
      assert parts[2..][1..] == [f.subfield.value];
      assert Join(parts[2..], '/') == f.key + "/" + f.subfield.value;
    } else {
      assert parts[2..] == [f.key];
    }
    assert Join(parts[1..], '/') == f.kind + "/" + Join(parts[2..], '/');
    assert Join(parts, '/') == f.rid + "/" + Join(parts[1..], '/');
  }

  // The written forms: rid/type/field, rid/type/field/subfield, and those with bounds behind them.
  lemma Written(f: FieldId, start: nat, end: nat)
    ensures f.subfield.None? ==> f.Full() == f.rid + "/" + f.kind + "/" + f.key
    ensures f.subfield.Some? ==> f.Full() == f.rid + "/" + f.kind + "/" + f.key + "/" + f.subfield.value
    ensures ParagraphId(f, start, end).Full() == f.Full() + "/" + Dec(start) + "-" + Dec(end)
  {
  }

  lemma SplitFull(f: FieldId)
    requires f.Printable()
    ensures Split(f.Full(), '/') == f.Parts()
  {
    FullParts(f);
    SplitJoin(f.Parts(), '/');
  }

  // Parsing undoes printing exactly for the ids whose parts hold no slash.
  lemma FieldRoundTrip(f: FieldId, codes: Codes)
    ensures ParseField(f.Full(), codes) == Some(f) <==> f.Printable()
  {
    if f.Printable() {
      SplitFull(f);
    }
  }

  // Printing undoes parsing exactly when the type was written as a letter.
  lemma FieldPrintsBack(s: string, codes: Codes)
    requires ParseField(s, codes).Some?
    ensures ParseField(s, codes).value.Full() == s <==> IsFieldType(Split(s, '/')[1])
  {
    var f := ParseField(s, codes).value;
    var parts := Split(s, '/');
    SplitSound(s, '/');
    SplitFull(f);
    FullParts(f);
    if IsFieldType(parts[1]) {
      assert f.Parts() == parts;
    } else {
      assert f.Parts()[1] != parts[1];
    }
  }

  // ----- paragraphs -----

  lemma BoundsPrint(m: nat, n: nat)
    ensures ParseBounds(Dec(m) + "-" + Dec(n)) == Some((m, n))
    ensures '/' !in Dec(m) + "-" + Dec(n)
  {
    SplitHead(Dec(m), Dec(n), '-');
    SplitFree(Dec(n), '-');
    ParseIntDec(m);
    ParseIntDec(n);
  }

  // Reading "head/last" as a paragraph: the bounds come from `last`, the field from `head`.
  lemma ParagraphParts(head: string, last: string, codes: Codes)
    requires '/' !in last
    ensures ParseParagraph(head + "/" + last, codes) ==
            (var bounds, field := ParseBounds(last), ParseField(head, codes);
             if bounds.Some? && field.Some? then Some(ParagraphId(field.value, bounds.value.0, bounds.value.1))
               else None)
  {
    SplitConcat(head, last, '/');
    SplitFree(last, '/');
    var parts := Split(head + "/" + last, '/');
    assert parts[..|parts| - 1] == Split(head, '/');
    SplitSound(head, '/');
  }

  lemma ParagraphRoundTrip(p: ParagraphId, codes: Codes)
    ensures ParseParagraph(p.Full(), codes) == Some(p) <==> p.Printable()
  {
    if p.Printable() {
      var last := Dec(p.start) + "-" + Dec(p.end);
      assert p.Full() == p.field.Full() + "/" + last;
      BoundsPrint(p.start, p.end);
      ParagraphParts(p.field.Full(), last, codes);
      FieldRoundTrip(p.field, codes);
    }
  }

  // ----- text blocks -----

  // A printed field id reads as a paragraph exactly when it has a subfield that looks like bounds.
  lemma FieldAsParagraph(f: FieldId, codes: Codes)
    requires f.Printable()
    ensures ParseParagraph(f.Full(), codes).Some? <==> f.subfield.Some? && ParseBounds(f.subfield.value).Some?
  {
    if f.subfield.Some? {
      var whole := f.(subfield := None);
      FieldRoundTrip(whole, codes);
      ParagraphParts(whole.Full(), f.subfield.value, codes);
    } else {
      ParagraphParts(f.rid + "/" + f.kind, f.key, codes);
      SplitConcat(f.rid, f.kind, '/');
      SplitFree(f.rid, '/');
      SplitFree(f.kind, '/');
    }
  }

  // Every printable paragraph id is recovered as a paragraph.
  lemma TextBlockOfParagraph(p: ParagraphId, codes: Codes)
    ensures ParseTextBlock(p.Full(), codes) == Some(Paragraph(p)) <==> p.Printable()
  {
    ParagraphRoundTrip(p, codes);
  }

  // A printable field id is recovered exactly unless its subfield looks like paragraph bounds; in
  // particular whenever it has no subfield, or one without a dash.
  lemma TextBlockOfField(f: FieldId, codes: Codes)
    requires f.Printable()
    ensures ParseTextBlock(f.Full(), codes) == Some(Field(f)) <==>
      !(f.subfield.Some? && ParseBounds(f.subfield.value).Some?)
    ensures f.subfield.None? || '-' !in f.subfield.value ==> ParseTextBlock(f.Full(), codes) == Some(Field(f))
  {
    FieldAsParagraph(f, codes);
    FieldRoundTrip(f, codes);
    if f.subfield.Some? && '-' !in f.subfield.value {
      SplitFree(f.subfield.value, '-');
    }
  }

  // ----- canonical keys -----

  // A key of the prompt context that reads, if at all, as an id that prints back to it.
  predicate Canonical(key: string, codes: Codes) { '/' in key && Faithful(key, codes) }

  predicate Faithful(key: string, codes: Codes) {
    ParseTextBlock(key, codes).Some? ==> ParseTextBlock(key, codes).value.Full() == key
  }

  lemma ParagraphCanonical(p: ParagraphId, codes: Codes)
    requires p.Printable()
    ensures Canonical(p.Full(), codes)
  {
    TextBlockOfParagraph(p, codes);
  }

  // Keys without a slash are no ids at all.
  lemma NoSlashNoId(key: string, codes: Codes)
    requires '/' !in key
    ensures ParseTextBlock(key, codes).None?
  {
    SplitFree(key, '/');
    assert Split(key, '/')[..0] == [];
    assert |Split([], '/')| == 1;
  }

  // The id made up for a message of a conversation field, whatever its ident is.
  function MessageId(f: FieldId, ident: string, length: nat): string {
    ParagraphId(FieldId(f.rid, f.kind, f.key, Some(ident)), 0, length).Full()
  }

  lemma MessageCanonical(f: FieldId, ident: string, length: nat, codes: Codes)
    requires f.Printable()
    ensures Canonical(MessageId(f, ident, length), codes)
  {
    var p := ParagraphId(FieldId(f.rid, f.kind, f.key, Some(ident)), 0, length);
    if '/' !in ident {
      ParagraphCanonical(p, codes);
    } else {
      var last := Dec(0) + "-" + Dec(length);
      BoundsPrint(0, length);
      var whole := f.(subfield := None);
      TooDeep(whole, ident, last, codes);
      hide Dec, ParseTextBlock;
      MessagePrints(f, ident, length);
    }
  }

  lemma MessagePrints(f: FieldId, ident: string, length: nat)
    ensures MessageId(f, ident, length) == f.FullWithoutSubfield() + "/" + ident + "/" + (Dec(0) + "-" + Dec(length))
  {
    hide Dec;
    var head := f.FullWithoutSubfield() + "/" + ident;
    assert head + "/" + Dec(0) + "-" + Dec(length) == head + "/" + (Dec(0) + "-" + Dec(length));
  }

  // The messages of different fields have different ids, whatever their idents are.
  lemma MessageOwner(f: FieldId, g: FieldId, ident: string, other: string, length: nat, size: nat)
    requires f.Printable() && g.Printable() && MessageId(f, ident, length) == MessageId(g, other, size)
    ensures f.FullWithoutSubfield() == g.FullWithoutSubfield()
  {
    MessageParts(f, ident, length);
    MessageParts(g, other, size);
  }

  lemma MessageParts(f: FieldId, ident: string, length: nat)
    requires f.Printable()
    ensures var parts := Split(MessageId(f, ident, length), '/');
            |parts| > 3 && parts[0] == f.rid && parts[1] == f.kind && parts[2] == f.key
  {
    hide Dec;
    var whole := f.(subfield := None);
    var rest := ident + "/" + (Dec(0) + "-" + Dec(length));
    SplitFull(whole);
    MessagePrints(f, ident, length);
    SplitConcat(whole.Full(), rest, '/');
    assert MessageId(f, ident, length) == whole.Full() + "/" + rest;
  }

  // With a slash in the ident there are too many parts to read.
  lemma TooDeep(f: FieldId, ident: string, last: string, codes: Codes)
    requires f.Printable() && f.subfield.None? && '/' in ident && '/' !in last
    ensures ParseTextBlock(f.Full() + "/" + ident + "/" + last, codes).None?
  {
    var head := f.Full() + "/" + ident;
    SplitFull(f);
    SplitConcat(f.Full(), ident, '/');
    SlashSplits(ident);
    assert |Split(head, '/')| >= 5;
    ParagraphParts(head, last, codes);
    SplitConcat(head, last, '/');
  }

  lemma {:induction false} SlashSplits(s: string)
    requires '/' in s
    ensures |Split(s, '/')| >= 2
  {
    var i :| 0 <= i < |s| && s[i] == '/';
    assert s == s[..i] + "/" + s[i + 1..];
    SplitConcat(s[..i], s[i + 1..], '/');
  }

  lemma FieldCanonical(f: FieldId, codes: Codes)
    requires f.Printable() && (f.subfield.None? || ParseBounds(f.subfield.value).None?)
    ensures Canonical(f.Full(), codes)
  {
    TextBlockOfField(f, codes);
  }
}
