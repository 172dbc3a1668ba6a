// Translating the old /find filters into a filter expression:
// ask/search/parsers/find.py (FindParser._parse_filters, convert_labels_to_filter_expressions,
// filter_from_facet, is_paragraph_label), add_resource_filter of retrieval.py and
// _combine_filters of v1/mcp_nucliadb.py.
module LegacyFilters {
  import opened Basics
  import Text

  datatype Error = InvalidQuery(param: string) | KeyError

  // ----- facets -----

  datatype Facet =
    | OriginTag(tag: string)
    | Label(labelset: string, name: Option<string>)
    | ResourceMimetype(rtype: string, rsubtype: Option<string>)
    | FieldMimetype(ftype: string, fsubtype: Option<string>)
    | Entity(subtype: string, value: Option<string>)
    | Language(language: string, onlyPrimary: bool)
    | OriginMetadata(field: string, mvalue: Option<string>)
    | OriginPath(prefix: string)
    | Generated(daTask: Option<string>)
    | Kind(kind: string)
    | OriginCollaborator(collaborator: string)
    | OriginSource(id: Option<string>)
    | Status(status: string)

  // What the parser gets from elsewhere: the alias table of label prefixes, the labelsets of the
  // knowledge box that are for paragraphs, and the values of two enumerations.
  datatype Env = Env(alias: string -> string, paragraphLabelsets: set<string>, kinds: set<string>,
      statuses: set<string>)

  predicate StartsWith(s: string, prefix: string) { prefix <= s }

  // str.removeprefix
  function RemovePrefix(s: string, prefix: string): string {
    if prefix <= s then s[|prefix|..] else s
  }

  function UpperChar(c: char): char { if 'a' <= c <= 'z' then 'A' + (c - 'a') else c }

  function Upper(s: string): string {
    if s == [] then [] else [UpperChar(s[0])] + Upper(s[1..])
  }

  // value.split("/", maxsplit=1): the first piece and, if there is a slash, the rest
  function SplitOnce(s: string): (string, Option<string>) {
    if s == [] then ([], None)
    else if s[0] == '/' then ([], Some(s[1..]))
    else var (head, tail) := SplitOnce(s[1..]); ([s[0]] + head, tail)
  }

  function NonEmpty(s: string): Option<string> { if s == [] then None else Some(s) }

  function FilterFromFacet(env: Env, facet: string): Result<Facet, Error> {
    if StartsWith(facet, "/t/") then Ok(OriginTag(RemovePrefix(facet, "/t/")))
    else if StartsWith(facet, "/l/") then
      var (a, b) := SplitOnce(RemovePrefix(facet, "/l/")); Ok(Label(a, b))
    else if StartsWith(facet, "/n/i/") then
      var (a, b) := SplitOnce(RemovePrefix(facet, "/n/i/")); Ok(ResourceMimetype(a, b))
    else if StartsWith(facet, "/mt/") then
      var (a, b) := SplitOnce(RemovePrefix(facet, "/mt/")); Ok(FieldMimetype(a, b))
    else if StartsWith(facet, "/e/") then
      var (a, b) := SplitOnce(RemovePrefix(facet, "/e/")); Ok(Entity(a, b))
    else if StartsWith(facet, "/s/p") then Ok(Language(RemovePrefix(facet, "/s/p/"), true))
    else if StartsWith(facet, "/s/s") then Ok(Language(RemovePrefix(facet, "/s/s/"), false))
    else if StartsWith(facet, "/m/") then
      var (a, b) := SplitOnce(RemovePrefix(facet, "/m/")); Ok(OriginMetadata(a, b))
    else if StartsWith(facet, "/p/") then Ok(OriginPath(RemovePrefix(facet, "/p/")))
    else if StartsWith(facet, "/g/da") then
      Ok(Generated(NonEmpty(RemovePrefix(RemovePrefix(facet, "/g/da"), "/"))))
    else if StartsWith(facet, "/k/") then
      var kind := Upper(RemovePrefix(facet, "/k/"));
      if kind in env.kinds then Ok(Kind(kind)) else Err(InvalidQuery("filters"))
    else if StartsWith(facet, "/u/o/") then Ok(OriginCollaborator(RemovePrefix(facet, "/u/o/")))
    else if StartsWith(facet, "/u/s") then
      Ok(OriginSource(NonEmpty(RemovePrefix(RemovePrefix(facet, "/u/s"), "/"))))
    else if StartsWith(facet, "/n/s/") then
      var status := Upper(RemovePrefix(facet, "/n/s/"));
      if status in env.statuses then Ok(Status(status)) else Err(InvalidQuery("filters"))
    else Err(InvalidQuery("filters"))
  }

  // Classification labels /l/labelset/label whose labelset is for paragraphs.
  predicate IsParagraphLabel(env: Env, facet: string) {
    && StartsWith(facet, "/l/")
    && var parts := Text.Split(facet, '/');
       |parts| >= 4 && parts[2] in env.paragraphLabelsets
  }

  lemma {:induction false} SplitOncePieces(s: string)
    ensures SplitOnce(s).1.None? ==> Text.Split(s, '/') == [SplitOnce(s).0]
    ensures SplitOnce(s).1.Some? ==> Text.Split(s, '/') == [SplitOnce(s).0] + Text.Split(SplitOnce(s).1.value, '/')
  {
    if s != [] && s[0] != '/' {
      SplitOncePieces(s[1..]);
      var rest := Text.Split(s[1..], '/');
      assert rest[0] == SplitOnce(s[1..]).0;
      if SplitOnce(s[1..]).1.Some? {
        assert rest[1..] == Text.Split(SplitOnce(s).1.value, '/');
      }
    }
  }

  // The paragraph side of an expression only takes labels: every paragraph label is read as
  // Label(labelset, label) with both parts, and its labelset is one for paragraphs.
  lemma ParagraphLabelsAreLabels(env: Env, facet: string)
    requires IsParagraphLabel(env, facet)
    ensures FilterFromFacet(env, facet).Ok?
    ensures var f := FilterFromFacet(env, facet).value;
      f.Label? && f.name.Some? && f.labelset in env.paragraphLabelsets
  {
    var value := facet[3..];
    assert facet == "" + ['/'] + ("l" + ['/'] + value);
    Text.SplitHead("", "l" + ['/'] + value, '/');
    Text.SplitHead("l", value, '/');
    assert Text.Split(facet, '/') == ["", "l"] + Text.Split(value, '/');
    SplitOncePieces(value);
    assert facet[1] == 'l';
  }

  // ----- what a facet is the written form of -----

  function Pair(a: string, b: Option<string>): string {
    match b case None => a case Some(rest) => a + "/" + rest
  }

  function Tail(x: Option<string>): string {
    match x case None => "" case Some(value) => "/" + value
  }

  // The written form of a facet.
  function Printed(f: Facet): string {
    match f
    case OriginTag(tag) => "/t/" + tag
    case Label(labelset, name) => "/l/" + Pair(labelset, name)
    case ResourceMimetype(rtype, rsubtype) => "/n/i/" + Pair(rtype, rsubtype)
    case FieldMimetype(ftype, fsubtype) => "/mt/" + Pair(ftype, fsubtype)
    case Entity(subtype, value) => "/e/" + Pair(subtype, value)
    case Language(language, onlyPrimary) => (if onlyPrimary then "/s/p/" else "/s/s/") + language
    case OriginMetadata(field, value) => "/m/" + Pair(field, value)
    case OriginPath(prefix) => "/p/" + prefix
    case Generated(daTask) => "/g/da" + Tail(daTask)
    case Kind(kind) => "/k/" + kind
    case OriginCollaborator(collaborator) => "/u/o/" + collaborator
    case OriginSource(id) => "/u/s" + Tail(id)
    case Status(status) => "/n/s/" + status
  }

  // What is left behind the first slash, and what has to be there if it counts at all.
  predicate Divides(f: Facet) {
    match f
    case Label(a, _) => '/' !in a
    case ResourceMimetype(a, _) => '/' !in a
    case FieldMimetype(a, _) => '/' !in a
    case Entity(a, _) => '/' !in a
    case OriginMetadata(a, _) => '/' !in a
    case _ => true
  }

  // s is read as f: it is the written form, up to the letter case of a kind or status, a slash
  // with nothing behind it, and the slash that "/s/p", "/s/s", "/g/da" and "/u/s" do not insist on.
  ghost predicate Spells(env: Env, s: string, f: Facet) {
    match f
    case Kind(kind) => kind in env.kinds && exists v :: s == "/k/" + v && Upper(v) == kind
    case Status(status) => status in env.statuses && exists v :: s == "/n/s/" + v && Upper(v) == status
    case Language(language, onlyPrimary) =>
      var prefix := if onlyPrimary then "/s/p" else "/s/s";
      s == prefix + "/" + language || (s == language && StartsWith(s, prefix) && !StartsWith(s, prefix + "/"))
    case Generated(task) => SpellsTail(s, "/g/da", task)
    case OriginSource(id) => SpellsTail(s, "/u/s", id)
    case _ => s == Printed(f) && Divides(f)
  }

  // Something counts as a value when it is not empty, with or without a slash in front.
  ghost predicate SpellsTail(s: string, prefix: string, value: Option<string>) {
    match value
    case None => s == prefix || s == prefix + "/"
    case Some(v) => v != "" && (s == prefix + "/" + v || (s == prefix + v && v[0] != '/'))
  }

  lemma {:induction false} SplitOnceExact(s: string, a: string, b: Option<string>)
    ensures SplitOnce(s) == (a, b) <==> s == Pair(a, b) && '/' !in a
  {
    if s == [] {
    } else if s[0] == '/' {
      if s == Pair(a, b) && '/' !in a {
        assert a == [];
        assert b.Some? && s[1..] == b.value;
      }
    } else {
      if a != [] {
        var (head, tail) := SplitOnce(s[1..]);
        SplitOnceExact(s[1..], a[1..], b);
        assert [s[0]] + head == a <==> s[0] == a[0] && head == a[1..];
        assert Pair(a, b) == [a[0]] + Pair(a[1..], b);
        assert s == [s[0]] + s[1..];
        assert a == [a[0]] + a[1..];
        assert '/' in a <==> '/' in a[1..] || a[0] == '/';
      } else {
        assert SplitOnce(s).0[0] == s[0];
        assert Pair(a, b) == [] || Pair(a, b)[0] == '/';
      }
    }
  }

  lemma PrefixRest(prefix: string, s: string, rest: string)
    ensures StartsWith(s, prefix) && RemovePrefix(s, prefix) == rest <==> s == prefix + rest
  {
  }

  lemma PairReads(prefix: string, s: string, a: string, b: Option<string>)
    ensures StartsWith(s, prefix) && SplitOnce(RemovePrefix(s, prefix)) == (a, b) <==>
      s == prefix + Pair(a, b) && '/' !in a
  {
    SplitOnceExact(RemovePrefix(s, prefix), a, b);
    PrefixRest(prefix, s, Pair(a, b));
  }

  lemma LanguageReads(prefix: string, s: string, language: string)
    ensures StartsWith(s, prefix) && RemovePrefix(s, prefix + "/") == language <==>
      s == prefix + "/" + language || (s == language && StartsWith(s, prefix) && !StartsWith(s, prefix + "/"))
  {
    PrefixRest(prefix + "/", s, language);
    if StartsWith(s, prefix + "/") {
      assert s[..|prefix|] == prefix;
    }
  }

  lemma TailReads(prefix: string, s: string, value: Option<string>)
    ensures StartsWith(s, prefix) && NonEmpty(RemovePrefix(RemovePrefix(s, prefix), "/")) == value <==>
      SpellsTail(s, prefix, value)
  {
    if StartsWith(s, prefix) {
      var rest := s[|prefix|..];
      assert s == prefix + rest;
      if StartsWith(rest, "/") {
        assert rest == "/" + rest[1..];
        if value.Some? {
          assert s == prefix + "/" + value.value <==> rest[1..] == value.value;
          assert s == prefix + value.value ==> rest == value.value;
        }
      } else if value.Some? {
        assert (prefix + "/" + value.value)[|prefix|] == '/';
        assert rest == [] || s[|prefix|] == rest[0];
        assert s == prefix + value.value <==> rest == value.value;
      }
    }
  }

  lemma UpperReads(prefix: string, s: string, kind: string)
    ensures StartsWith(s, prefix) && Upper(RemovePrefix(s, prefix)) == kind <==>
      exists v :: s == prefix + v && Upper(v) == kind
  {
    if StartsWith(s, prefix) {
      assert s == prefix + RemovePrefix(s, prefix);
    }
  }

  // Which of the prefixes s starts with: at most one.
  lemma Prefixes(s: string)
    ensures StartsWith(s, "/t/") <==> |s| >= 3 && s[0] == '/' && s[1] == 't' && s[2] == '/'
    ensures StartsWith(s, "/l/") <==> |s| >= 3 && s[0] == '/' && s[1] == 'l' && s[2] == '/'
    ensures StartsWith(s, "/mt/") <==> |s| >= 4 && s[0] == '/' && s[1] == 'm' && s[2] == 't' && s[3] == '/'
    ensures StartsWith(s, "/e/") <==> |s| >= 3 && s[0] == '/' && s[1] == 'e' && s[2] == '/'
    ensures StartsWith(s, "/m/") <==> |s| >= 3 && s[0] == '/' && s[1] == 'm' && s[2] == '/'
    ensures StartsWith(s, "/p/") <==> |s| >= 3 && s[0] == '/' && s[1] == 'p' && s[2] == '/'
    ensures StartsWith(s, "/k/") <==> |s| >= 3 && s[0] == '/' && s[1] == 'k' && s[2] == '/'
    ensures StartsWith(s, "/s/p") <==> |s| >= 4 && s[0] == '/' && s[1] == 's' && s[2] == '/' && s[3] == 'p'
    ensures StartsWith(s, "/s/s") <==> |s| >= 4 && s[0] == '/' && s[1] == 's' && s[2] == '/' && s[3] == 's'
  {
  }

  lemma LongPrefixes(s: string)
    ensures StartsWith(s, "/n/i/") ==> |s| >= 5 && s[1] == 'n' && s[3] == 'i'
    ensures StartsWith(s, "/n/s/") ==> |s| >= 5 && s[1] == 'n' && s[3] == 's'
    ensures StartsWith(s, "/g/da") ==> |s| >= 5 && s[1] == 'g'
    ensures StartsWith(s, "/u/o/") ==> |s| >= 5 && s[1] == 'u' && s[3] == 'o'
    ensures StartsWith(s, "/u/s") ==> |s| >= 4 && s[1] == 'u' && s[3] == 's'
  {
  }

  lemma PlainReads(env: Env, s: string, f: Facet)
    requires f.OriginTag? || f.OriginPath? || f.OriginCollaborator?
    ensures FilterFromFacet(env, s) == Ok(f) <==> Spells(env, s, f)
  {
    Prefixes(s);
    LongPrefixes(s);
    match f
    case OriginTag(tag) => PrefixRest("/t/", s, tag);
    case OriginPath(prefix) => PrefixRest("/p/", s, prefix);
    case OriginCollaborator(collaborator) => PrefixRest("/u/o/", s, collaborator);
    hide StartsWith, RemovePrefix, SplitOnce, Upper;
  }

  lemma DividedReads(env: Env, s: string, f: Facet)
    requires f.Label? || f.ResourceMimetype? || f.FieldMimetype? || f.Entity? || f.OriginMetadata?
    ensures FilterFromFacet(env, s) == Ok(f) <==> Spells(env, s, f)
  {
    Prefixes(s);
    LongPrefixes(s);
    match f
    case Label(a, b) => PairReads("/l/", s, a, b);
    case ResourceMimetype(a, b) => PairReads("/n/i/", s, a, b);
    case FieldMimetype(a, b) => PairReads("/mt/", s, a, b);
    case Entity(a, b) => PairReads("/e/", s, a, b);
    case OriginMetadata(a, b) => PairReads("/m/", s, a, b);
    hide StartsWith, RemovePrefix, SplitOnce, Upper, Pair;
  }

  lemma LanguageSpelled(env: Env, s: string, f: Facet)
    requires f.Language?
    ensures FilterFromFacet(env, s) == Ok(f) <==> Spells(env, s, f)
  {
    Prefixes(s);
    LongPrefixes(s);
    if f.onlyPrimary {
      LanguageReads("/s/p", s, f.language);
    } else {
      LanguageReads("/s/s", s, f.language);
    }
    hide StartsWith, RemovePrefix, SplitOnce, Upper;
  }

  lemma LooseReads(env: Env, s: string, f: Facet)
    requires f.Generated? || f.OriginSource?
    ensures FilterFromFacet(env, s) == Ok(f) <==> Spells(env, s, f)
  {
    Prefixes(s);
    LongPrefixes(s);
    match f
    case Generated(task) => TailReads("/g/da", s, task);
    case OriginSource(id) => TailReads("/u/s", s, id);
    hide StartsWith, RemovePrefix, SplitOnce, Upper, SpellsTail;
  }

  lemma NamedReads(env: Env, s: string, f: Facet)
    requires f.Kind? || f.Status?
    ensures FilterFromFacet(env, s) == Ok(f) <==> Spells(env, s, f)
  {
    Prefixes(s);
    LongPrefixes(s);
    match f
    case Kind(kind) => UpperReads("/k/", s, kind);
    case Status(status) => UpperReads("/n/s/", s, status);
    hide StartsWith, RemovePrefix, SplitOnce, Upper;
  }

  // A facet is read exactly as what it spells; it is refused exactly when it spells nothing.
  lemma FacetReads(env: Env, s: string, f: Facet)
    ensures FilterFromFacet(env, s) == Ok(f) <==> Spells(env, s, f)
    ensures FilterFromFacet(env, s).Err? <==> forall g :: !Spells(env, s, g)
    ensures FilterFromFacet(env, s).Err? ==> FilterFromFacet(env, s) == Err(InvalidQuery("filters"))
  {
    forall g ensures FilterFromFacet(env, s) == Ok(g) <==> Spells(env, s, g) {
      match g
      case OriginTag(_) => PlainReads(env, s, g);
      case OriginPath(_) => PlainReads(env, s, g);
      case OriginCollaborator(_) => PlainReads(env, s, g);
      case Language(_, _) => LanguageSpelled(env, s, g);
      case Generated(_) => LooseReads(env, s, g);
      case OriginSource(_) => LooseReads(env, s, g);
      case Kind(_) => NamedReads(env, s, g);
      case Status(_) => NamedReads(env, s, g);
      case _ => DividedReads(env, s, g);
    }
    hide Spells, StartsWith, RemovePrefix, SplitOnce, Upper;
    var r := FilterFromFacet(env, s);
    if r.Ok? {
      assert Spells(env, s, r.value);
    }
  }

  // Facets whose written form is theirs alone.
  predicate Readable(env: Env, f: Facet) {
    match f
    case Kind(kind) => kind in env.kinds && Upper(kind) == kind
    case Status(status) => status in env.statuses && Upper(status) == status
    case Generated(task) => task != Some("")
    case OriginSource(id) => id != Some("")
    case _ => Divides(f)
  }

  lemma UpperSelf(prefix: string, kind: string)
    ensures (exists v :: prefix + kind == prefix + v && Upper(v) == kind) <==> Upper(kind) == kind
  {
    forall v | prefix + kind == prefix + v ensures v == kind {
      assert v == (prefix + v)[|prefix|..] && kind == (prefix + kind)[|prefix|..];
    }
  }

  lemma TailSelf(prefix: string, value: Option<string>)
    ensures SpellsTail(prefix + Tail(value), prefix, value) <==> value != Some("")
  {
    assert prefix + Tail(None) == prefix;
    if value.Some? {
      assert prefix + Tail(value) == prefix + "/" + value.value;
    }
  }

  // Reading what was written gives the facet back exactly when it is readable.
  lemma PrintedReads(env: Env, f: Facet)
    ensures FilterFromFacet(env, Printed(f)) == Ok(f) <==> Readable(env, f)
  {
    FacetReads(env, Printed(f), f);
    match f {
      case Kind(kind) => UpperSelf("/k/", kind);
      case Status(status) => UpperSelf("/n/s/", status);
      case Generated(task) => TailSelf("/g/da", task);
      case OriginSource(id) => TailSelf("/u/s", id);
      case Language(language, onlyPrimary) =>
        assert Printed(f) == (if onlyPrimary then "/s/p" else "/s/s") + "/" + language;
      case _ =>
    }
    hide FilterFromFacet, SpellsTail, Upper;
  }

  const FACET_PREFIXES: set<string> := {"/t/", "/l/", "/n/i/", "/mt/", "/e/", "/s/p", "/s/s", "/m/", "/p/", "/g/da",
                                        "/k/", "/u/o/", "/u/s", "/n/s/"}

  // A facet is refused outside these prefixes, and for a kind or a status that there is not.
  lemma FacetRefused(env: Env, s: string)
    ensures FilterFromFacet(env, s).Err? <==>
      || (forall prefix :: prefix in FACET_PREFIXES ==> !StartsWith(s, prefix))
      || (exists v :: s == "/k/" + v && Upper(v) !in env.kinds)
      || (exists v :: s == "/n/s/" + v && Upper(v) !in env.statuses)
  {
    Prefixes(s);
    LongPrefixes(s);
    KindRefused("/k/", s, env.kinds);
    KindRefused("/n/s/", s, env.statuses);
    hide StartsWith, RemovePrefix, SplitOnce, Upper;
  }

  lemma KindRefused(prefix: string, s: string, known: set<string>)
    ensures StartsWith(s, prefix) && Upper(RemovePrefix(s, prefix)) !in known <==>
      exists v :: s == prefix + v && Upper(v) !in known
  {
    if StartsWith(s, prefix) {
      assert s == prefix + RemovePrefix(s, prefix);
    }
  }

  // Upper raises the letters a to z, each in its place, and nothing else.
  lemma {:induction false} UpperAt(s: string, i: nat)
    requires i < |s|
    ensures |Upper(s)| == |s|
    ensures if 'a' <= s[i] <= 'z' then 'A' <= Upper(s)[i] <= 'Z' && Upper(s)[i] - 'A' == s[i] - 'a'
            else Upper(s)[i] == s[i]
  {
    if |s| > 1 {
      UpperAt(s[1..], if i > 0 then i - 1 else 0);
    }
  }

  // A paragraph label is one that is read as a label of a paragraph labelset with both parts.
  lemma ParagraphLabelExact(env: Env, s: string)
    ensures IsParagraphLabel(env, s) <==>
      exists a, b :: Spells(env, s, Label(a, Some(b))) && a in env.paragraphLabelsets
  {
    hide IsParagraphLabel, FilterFromFacet, Spells;
    if IsParagraphLabel(env, s) {
      ParagraphLabelsAreLabels(env, s);
      var f := FilterFromFacet(env, s).value;
      FacetReads(env, s, f);
      assert Spells(env, s, Label(f.labelset, Some(f.name.value)));
    }
    forall a, b | Spells(env, s, Label(a, Some(b))) && a in env.paragraphLabelsets ensures IsParagraphLabel(env, s) {
      LabelIsParagraph(env, s, a, b);
    }
  }

  lemma LabelIsParagraph(env: Env, s: string, a: string, b: string)
    requires Spells(env, s, Label(a, Some(b))) && a in env.paragraphLabelsets
    ensures IsParagraphLabel(env, s)
  {
    assert s == "/l/" + (a + ['/'] + b);
    assert s == [] + ['/'] + ("l" + ['/'] + (a + ['/'] + b));
    Text.SplitHead([], "l" + ['/'] + (a + ['/'] + b), '/');
    Text.SplitHead("l", a + ['/'] + b, '/');
    Text.SplitHead(a, b, '/');
    hide Text.Split;
  }

  // ----- filter expressions and what they accept -----

  datatype Expr<A> = Atom(a: A) | And(operands: seq<Expr<A>>) | Or(operands: seq<Expr<A>>) | Not(operand: Expr<A>)

  ghost predicate Eval<A(!new)>(e: Expr<A>, holds: A -> bool) {
    match e
    case Atom(a) => holds(a)
    case And(ops) => forall o :: o in ops ==> Eval(o, holds)
    case Or(ops) => exists o :: o in ops && Eval(o, holds)
    case Not(o) => !Eval(o, holds)
  }

  datatype FieldType = TEXT | FILE | LINK | GENERIC | CONVERSATION

  // FieldTypeName.from_abbreviation, which raises KeyError on anything else
  function FromAbbreviation(s: string): Option<FieldType> {
    if s == "t" then Some(TEXT)
    else if s == "f" then Some(FILE)
    else if s == "u" then Some(LINK)
    else if s == "a" then Some(GENERIC)
    else if s == "c" then Some(CONVERSATION)
    else None
  }

  // The letter of a field type.
  function Letter(t: FieldType): string {
    match t case TEXT => "t" case FILE => "f" case LINK => "u" case GENERIC => "a" case CONVERSATION => "c"
  }

  lemma LettersRead(s: string, t: FieldType)
    ensures FromAbbreviation(s) == Some(t) <==> s == Letter(t)
  {
  }

  type Date = int

  datatype FieldAtom =
    | DateCreated(since: Option<Date>, until: Option<Date>)
    | DateModified(since: Option<Date>, until: Option<Date>)
    | FacetAtom(facet: Facet)
    | Keyword(word: string)
    | FieldIs(ftype: FieldType, name: Option<string>)
    | ResourceIs(id: string)

  datatype Operator = AND | OR

  datatype FilterExpression = FilterExpression(field: Option<Expr<FieldAtom>>, paragraph: Option<Expr<Facet>>,
      operator: Operator)

  // A (field, paragraph) pair of the knowledge box, seen as which atomic filters it satisfies.
  datatype World = World(field: FieldAtom -> bool, paragraph: Facet -> bool)

  ghost predicate Accepts(e: FilterExpression, w: World) {
    match (e.field, e.paragraph)
    case (None, None) => true
    case (Some(f), None) => Eval(f, w.field)
    case (None, Some(p)) => Eval(p, w.paragraph)
    case (Some(f), Some(p)) =>
      match e.operator
      case AND => Eval(f, w.field) && Eval(p, w.paragraph)
      case OR => Eval(f, w.field) || Eval(p, w.paragraph)
  }

  ghost predicate AcceptsOpt(e: Option<FilterExpression>, w: World) {
    e.Some? ==> Accepts(e.value, w)
  }

  // ----- the legacy request and what it means -----

  // The request model lets at most one of the four lists be non-empty.
  datatype Filter = Filter(all: seq<string>, any: seq<string>, none: seq<string>, notAll: seq<string>)

  datatype LabelFilter = One(l: string) | Many(f: Filter)

  ghost predicate AtMostOne(f: Filter) {
    && (f.all != [] ==> f.any == f.none == f.notAll == [])
    && (f.any != [] ==> f.none == f.notAll == [])
    && (f.none != [] ==> f.notAll == [])
  }

  // Each word list restricts by its quantifier; an empty list restricts nothing.
  ghost predicate FilterMeans(f: Filter, holds: string -> bool) {
    && (forall l :: l in f.all ==> holds(l))
    && (f.any != [] ==> exists l :: l in f.any && holds(l))
    && (forall l :: l in f.none ==> !holds(l))
    && (f.notAll != [] ==> exists l :: l in f.notAll && !holds(l))
  }

  predicate ValidLabel(env: Env, l: string) {
    l != [] && l[0] == '/' && FilterFromFacet(env, env.alias(l)).Ok?
  }

  predicate OnParagraph(env: Env, l: string) { IsParagraphLabel(env, env.alias(l)) }

  ghost predicate LabelHolds(env: Env, w: World, l: string) {
    ValidLabel(env, l) &&
    var facet := FilterFromFacet(env, env.alias(l)).value;
    if OnParagraph(env, l) then w.paragraph(facet) else w.field(FacetAtom(facet))
  }

  // Labels of a paragraph labelset ask something of the paragraph, all else of the field.
  ghost predicate HoldsAs(env: Env, w: World, f: Facet) {
    if f.Label? && f.name.Some? && f.labelset in env.paragraphLabelsets then w.paragraph(f) else w.field(FacetAtom(f))
  }

  // What a label spells decides which side it is on and what it asks for.
  lemma LabelMeans(env: Env, w: World, l: string)
    ensures LabelHolds(env, w, l) <==>
      && l != [] && l[0] == '/'
      && exists f :: Spells(env, env.alias(l), f) && HoldsAs(env, w, f)
  {
    var s := env.alias(l);
    forall f ensures FilterFromFacet(env, s) == Ok(f) <==> Spells(env, s, f) { FacetReads(env, s, f); }
    ParagraphLabelExact(env, s);
    hide FilterFromFacet, IsParagraphLabel;
    if FilterFromFacet(env, s).Ok? {
      var f := FilterFromFacet(env, s).value;
      assert Spells(env, s, f);
      assert OnParagraph(env, l) <==> f.Label? && f.name.Some? && f.labelset in env.paragraphLabelsets by {
        if f.Label? && f.name.Some? {
          assert Spells(env, s, Label(f.labelset, Some(f.name.value)));
        }
        forall a, b | Spells(env, s, Label(a, Some(b))) ensures f == Label(a, Some(b)) {}
      }
    }
    hide Spells;
  }

  function Labels(f: Filter): seq<string> {
    if f.all != [] then f.all else if f.any != [] then f.any else if f.none != [] then f.none else f.notAll
  }

  ghost predicate LabelFilterMeans(env: Env, w: World, lf: LabelFilter) {
    match lf
    case One(l) => LabelHolds(env, w, l)
    case Many(f) => FilterMeans(f, l => LabelHolds(env, w, l))
  }

  // What the translation accepts: valid labels, and paragraph labels only under `all`.
  ghost predicate Translatable(env: Env, lf: LabelFilter) {
    match lf
    case One(l) => ValidLabel(env, l)
    case Many(f) =>
      && (forall l :: l in Labels(f) ==> ValidLabel(env, l))
      && (f.all == [] ==> forall l :: l in Labels(f) ==> !OnParagraph(env, l))
  }

  // ----- translating labels -----

  ghost predicate EvalAll<A(!new)>(es: seq<Expr<A>>, holds: A -> bool) {
    forall e :: e in es ==> Eval(e, holds)
  }

  ghost predicate EvalOpt<A(!new)>(e: Option<Expr<A>>, holds: A -> bool) {
    e.Some? ==> Eval(e.value, holds)
  }

  // One operand stands for itself, several are put under a conjunction.
  function Conjunction<A>(es: seq<Expr<A>>): Option<Expr<A>> {
    if |es| == 0 then None else if |es| == 1 then Some(es[0]) else Some(And(es))
  }

  lemma ConjunctionMeans<A(!new)>(es: seq<Expr<A>>, holds: A -> bool)
    ensures EvalOpt(Conjunction(es), holds) <==> EvalAll(es, holds)
  {
    if |es| == 1 {
      assert es == [es[0]];
    }
  }

  function Leaf<A>(facet: A, negate: bool): Expr<A> {
    if negate then Not(Atom(facet)) else Atom(facet)
  }

  function FacetOf(env: Env, l: string): Facet
    requires ValidLabel(env, l)
  {
    FilterFromFacet(env, env.alias(l)).value
  }

  ghost predicate AllValid(env: Env, labels: seq<string>) {
    forall l :: l in labels ==> ValidLabel(env, l)
  }

  // The field-side expressions of a label list, in list order.
  ghost function FieldLeaves(env: Env, labels: seq<string>, negate: bool): seq<Expr<FieldAtom>>
    requires AllValid(env, labels)
  {
    if labels == [] then []
    else
      var l := labels[|labels| - 1];
      FieldLeaves(env, labels[..|labels| - 1], negate)
        + if OnParagraph(env, l) then [] else [Leaf(FacetAtom(FacetOf(env, l)), negate)]
  }

  ghost function ParagraphLeaves(env: Env, labels: seq<string>, negate: bool): seq<Expr<Facet>>
    requires AllValid(env, labels)
  {
    if labels == [] then []
    else
      var l := labels[|labels| - 1];
      ParagraphLeaves(env, labels[..|labels| - 1], negate)
        + if OnParagraph(env, l) then [Leaf(FacetOf(env, l), negate)] else []
  }

  // The leaf a label turns into holds when the label does, or when it does not if negated.
  lemma {:induction false} LeavesAll(env: Env, labels: seq<string>, negate: bool, w: World)
    requires AllValid(env, labels)
    ensures EvalAll(FieldLeaves(env, labels, negate), w.field) &&
      EvalAll(ParagraphLeaves(env, labels, negate), w.paragraph)
      <==> forall l :: l in labels ==> LabelHolds(env, w, l) != negate
  {
    hide FilterFromFacet, IsParagraphLabel;
    if labels != [] {
      var front, l := labels[..|labels| - 1], labels[|labels| - 1];
      LeavesAll(env, front, negate, w);
      assert labels == front + [l];
      assert forall k :: k in labels <==> k in front || k == l;
      if OnParagraph(env, l) {
        var leaf := Leaf(FacetOf(env, l), negate);
        EvalAllOne(leaf, w.paragraph);
        EvalAllAppend(ParagraphLeaves(env, front, negate), [leaf], w.paragraph);
        assert FieldLeaves(env, labels, negate) == FieldLeaves(env, front, negate);
        assert Eval(leaf, w.paragraph) <==> LabelHolds(env, w, l) != negate;
      } else {
        var leaf := Leaf(FacetAtom(FacetOf(env, l)), negate);
        EvalAllOne(leaf, w.field);
        EvalAllAppend(FieldLeaves(env, front, negate), [leaf], w.field);
        assert ParagraphLeaves(env, labels, negate) == ParagraphLeaves(env, front, negate);
        assert Eval(leaf, w.field) <==> LabelHolds(env, w, l) != negate;
      }
    }
  }

  lemma EvalAllOne<A(!new)>(e: Expr<A>, holds: A -> bool)
    ensures EvalAll([e], holds) <==> Eval(e, holds)
  {
    assert e in [e];
  }

  lemma EvalAllAppend<A(!new)>(xs: seq<Expr<A>>, ys: seq<Expr<A>>, holds: A -> bool)
    ensures EvalAll(xs + ys, holds) <==> EvalAll(xs, holds) && EvalAll(ys, holds)
  {
  }

  ghost predicate EvalSome<A(!new)>(es: seq<Expr<A>>, holds: A -> bool) {
    exists e :: e in es && Eval(e, holds)
  }

  lemma {:induction false} LeavesSome(env: Env, labels: seq<string>, negate: bool, w: World)
    requires AllValid(env, labels) && forall l :: l in labels ==> !OnParagraph(env, l)
    ensures ParagraphLeaves(env, labels, negate) == [] && |FieldLeaves(env, labels, negate)| == |labels|
    ensures EvalSome(FieldLeaves(env, labels, negate), w.field) <==>
      exists l :: l in labels && LabelHolds(env, w, l) != negate
  {
    hide FilterFromFacet, IsParagraphLabel;
    if labels != [] {
      var front, l := labels[..|labels| - 1], labels[|labels| - 1];
      LeavesSome(env, front, negate, w);
      assert forall k :: k in labels <==> k in front || k == l;
      var leaf := Leaf(FacetAtom(FacetOf(env, l)), negate);
      assert Eval(leaf, w.field) <==> LabelHolds(env, w, l) != negate;
      EvalSomeAppend(FieldLeaves(env, front, negate), leaf, w.field);
    }
  }

  lemma EvalSomeAppend<A(!new)>(xs: seq<Expr<A>>, y: Expr<A>, holds: A -> bool)
    ensures EvalSome(xs + [y], holds) <==> EvalSome(xs, holds) || Eval(y, holds)
  {
    if Eval(y, holds) {
      assert y in xs + [y];
    }
    if EvalSome(xs, holds) {
      var x :| x in xs && Eval(x, holds);
      assert x in xs + [y];
    }
  }

  lemma {:induction false} LeafCounts(env: Env, labels: seq<string>, negate: bool)
    requires AllValid(env, labels)
    ensures ParagraphLeaves(env, labels, negate) == [] <==> forall l :: l in labels ==> !OnParagraph(env, l)
  {
    if labels != [] {
      var front, l := labels[..|labels| - 1], labels[|labels| - 1];
      LeafCounts(env, front, negate);
      assert forall k :: k in labels <==> k in front || k == l;
    }
  }

  // combinator(operands=...) when there are several operands
  function Combined<A>(es: seq<Expr<A>>, conj: bool): seq<Expr<A>> {
    if |es| <= 1 then es else [if conj then And(es) else Or(es)]
  }

  lemma CombinedMeans<A(!new)>(es: seq<Expr<A>>, conj: bool, holds: A -> bool)
    ensures conj ==> (EvalAll(Combined(es, conj), holds) <==> EvalAll(es, holds))
    ensures !conj && es != [] ==> (EvalAll(Combined(es, conj), holds) <==> EvalSome(es, holds))
  {
    if |es| == 1 {
      EvalAllOne(es[0], holds);
      assert es == [es[0]];
    } else if |es| > 1 {
      var e := if conj then And(es) else Or(es);
      assert e in Combined(es, conj);
      assert conj ==> (Eval(e, holds) <==> EvalAll(es, holds));
      assert !conj ==> (Eval(e, holds) <==> EvalSome(es, holds));
    }
  }

  ghost predicate Conj(f: Filter) { f.all != [] || (f.any == [] && f.none != []) }
  ghost predicate Negate(f: Filter) { f.all == [] && f.any == [] }

  // The two sides produced for one label filter say what the filter says.
  lemma FilterTranslated(env: Env, f: Filter, w: World)
    requires AtMostOne(f) && Translatable(env, Many(f)) && Labels(f) != []
    ensures EvalAll(Combined(FieldLeaves(env, Labels(f), Negate(f)), Conj(f)), w.field)
      && EvalAll(Combined(ParagraphLeaves(env, Labels(f), Negate(f)), Conj(f)), w.paragraph)
      <==> LabelFilterMeans(env, w, Many(f))
  {
    var labels, conj, negate := Labels(f), Conj(f), Negate(f);
    CombinedMeans(FieldLeaves(env, labels, negate), conj, w.field);
    CombinedMeans(ParagraphLeaves(env, labels, negate), conj, w.paragraph);
    if conj {
      LeavesAll(env, labels, negate, w);
    } else {
      LeavesSome(env, labels, negate, w);
    }
  }

  // The inner loop: split one label list into its two sides.
  method SplitLabels(env: Env, labels: seq<string>, negate: bool)
    returns (r: Result<(seq<Expr<FieldAtom>>, seq<Expr<Facet>>), Error>)
    ensures r.Ok? <==> AllValid(env, labels)
    ensures r.Err? ==> r.error == InvalidQuery("filters")
    ensures r.Ok? ==> r.value == (FieldLeaves(env, labels, negate), ParagraphLeaves(env, labels, negate))
  {
    var fields: seq<Expr<FieldAtom>>, paragraphs: seq<Expr<Facet>> := [], [];
    for i := 0 to |labels|
      invariant AllValid(env, labels[..i])
      invariant fields == FieldLeaves(env, labels[..i], negate) &&
        paragraphs == ParagraphLeaves(env, labels[..i], negate)
    {
      assert labels[..i + 1][..i] == labels[..i];
      var l := labels[i];
      assert l in labels;
      if l == [] || l[0] != '/' { return Err(InvalidQuery("filters")); }
      var facet := FilterFromFacet(env, env.alias(l));
      if facet.Err? { return Err(InvalidQuery("filters")); }
      if IsParagraphLabel(env, env.alias(l)) {
        paragraphs := paragraphs + [if negate then Not(Atom(facet.value)) else Atom(facet.value)];
      } else {
        fields := fields + [if negate then Not(Atom(FacetAtom(facet.value))) else Atom(FacetAtom(facet.value))];
      }
    }
    assert labels[..|labels|] == labels;
    return Ok((fields, paragraphs));
  }

  ghost predicate LabelsMean(env: Env, w: World, filters: seq<LabelFilter>) {
    forall lf :: lf in filters ==> LabelFilterMeans(env, w, lf)
  }

  // convert_labels_to_filter_expressions
  method ConvertLabels(env: Env, filters: seq<LabelFilter>)
    returns (r: Result<(seq<Expr<FieldAtom>>, Option<Expr<Facet>>), Error>)
    requires forall lf :: lf in filters && lf.Many? ==> AtMostOne(lf.f)
    ensures r.Ok? <==> forall lf :: lf in filters ==> Translatable(env, lf)
    ensures r.Err? ==> r.error == InvalidQuery("filters")
    ensures r.Ok? ==> forall w: World ::
      EvalAll(r.value.0, w.field) && EvalOpt(r.value.1, w.paragraph) <==> LabelsMean(env, w, filters)
  {
    var fields: seq<Expr<FieldAtom>>, paragraphs: seq<Expr<Facet>> := [], [];
    for i := 0 to |filters|
      invariant forall lf :: lf in filters[..i] ==> Translatable(env, lf)
      invariant forall w: World :: EvalAll(fields, w.field) && EvalAll(paragraphs, w.paragraph) <==>
        LabelsMean(env, w, filters[..i])
    {
      ghost var f0, p0 := fields, paragraphs;
      assert filters[..i + 1] == filters[..i] + [filters[i]];
      assert filters[i] in filters;
      var one := ConvertOne(env, filters[i]);
      if one.Err? { return Err(one.error); }
      fields, paragraphs := fields + one.value.0, paragraphs + one.value.1;
      forall w: World
        ensures EvalAll(fields, w.field) && EvalAll(paragraphs, w.paragraph) <==> LabelsMean(env, w, filters[..i + 1])
      {
        EvalAllAppend(f0, one.value.0, w.field);
        EvalAllAppend(p0, one.value.1, w.paragraph);
        assert LabelsMean(env, w, filters[..i + 1]) <==>
          LabelsMean(env, w, filters[..i]) && LabelFilterMeans(env, w, filters[i]);
      }
    }
    assert filters[..|filters|] == filters;
    forall w: World
      ensures EvalAll(fields, w.field) && EvalOpt(Conjunction(paragraphs), w.paragraph) <==> LabelsMean(env, w, filters)
    {
      ConjunctionMeans(paragraphs, w.paragraph);
    }
    if |paragraphs| == 1 {
      return Ok((fields, Some(paragraphs[0])));
    } else if |paragraphs| > 1 {
      return Ok((fields, Some(And(paragraphs))));
    } else {
      return Ok((fields, None));
    }
  }

  // The body of the outer loop: what one filter adds to the two lists.
  method ConvertOne(env: Env, lf: LabelFilter)
    returns (r: Result<(seq<Expr<FieldAtom>>, seq<Expr<Facet>>), Error>)
    requires lf.Many? ==> AtMostOne(lf.f)
    ensures r.Ok? <==> Translatable(env, lf)
    ensures r.Err? ==> r.error == InvalidQuery("filters")
    ensures r.Ok? ==> forall w: World ::
      EvalAll(r.value.0, w.field) && EvalAll(r.value.1, w.paragraph) <==> LabelFilterMeans(env, w, lf)
  {
    match lf
    case One(l) =>
      if l == [] || l[0] != '/' { return Err(InvalidQuery("filters")); }
      var facet := FilterFromFacet(env, env.alias(l));
      if facet.Err? { return Err(InvalidQuery("filters")); }
      if IsParagraphLabel(env, env.alias(l)) {
        forall w: World ensures EvalAll([Atom(facet.value)], w.paragraph) <==> w.paragraph(facet.value) {
          EvalAllOne(Atom(facet.value), w.paragraph);
        }
        return Ok(([], [Atom(facet.value)]));
      } else {
        forall w: World ensures EvalAll([Atom(FacetAtom(facet.value))], w.field) <==> w.field(FacetAtom(facet.value)) {
          EvalAllOne(Atom(FacetAtom(facet.value)), w.field);
        }
        return Ok(([Atom(FacetAtom(facet.value))], []));
      }
    case Many(f) =>
      var labels, conj, negate;
      if f.all != [] {
        labels, conj, negate := f.all, true, false;
      } else if f.any != [] {
        labels, conj, negate := f.any, false, false;
      } else if f.none != [] {
        labels, conj, negate := f.none, true, true;
      } else if f.notAll != [] {
        labels, conj, negate := f.notAll, false, true;
      } else {
        return Ok(([], []));
      }
      r := ConvertMany(env, f, labels, conj, negate);
  }

  method ConvertMany(env: Env, f: Filter, labels: seq<string>, conj: bool, negate: bool)
    returns (r: Result<(seq<Expr<FieldAtom>>, seq<Expr<Facet>>), Error>)
    requires AtMostOne(f) && labels == Labels(f) && labels != [] && conj == Conj(f) && negate == Negate(f)
    ensures r.Ok? <==> Translatable(env, Many(f))
    ensures r.Err? ==> r.error == InvalidQuery("filters")
    ensures r.Ok? ==> forall w: World ::
      EvalAll(r.value.0, w.field) && EvalAll(r.value.1, w.paragraph) <==> LabelFilterMeans(env, w, Many(f))
  {
    var split := SplitLabels(env, labels, negate);
    if split.Err? { return Err(split.error); }
    var (field, paragraph) := split.value;
    LeafCounts(env, labels, negate);
    if |paragraph| > 0 && !(conj && !negate) {
      return Err(InvalidQuery("filters"));
    }
    forall w: World
      ensures EvalAll(Combined(field, conj), w.field) && EvalAll(Combined(paragraph, conj), w.paragraph) <==>
        LabelFilterMeans(env, w, Many(f))
    {
      FilterTranslated(env, f, w);
    }
    return Ok((Combined(field, conj), Combined(paragraph, conj)));
  }

  // ----- the other legacy filters -----

  datatype KeywordFilter = OneWord(word: string) | ManyWords(f: Filter)

  ghost predicate WordHolds(w: World, word: string) { w.field(Keyword(word)) }

  ghost predicate KeywordMeans(w: World, k: KeywordFilter) {
    match k
    case OneWord(word) => WordHolds(w, word)
    case ManyWords(f) => FilterMeans(f, word => WordHolds(w, word))
  }

  function Words(words: seq<string>): (r: seq<Expr<FieldAtom>>)
    ensures |r| == |words| && forall i :: 0 <= i < |words| ==> r[i] == Atom(Keyword(words[i]))
  {
    seq(|words|, i requires 0 <= i < |words| => Atom(Keyword(words[i])))
  }

  lemma WordsMean(words: seq<string>, w: World)
    ensures EvalAll(Words(words), w.field) <==> forall x :: x in words ==> WordHolds(w, x)
    ensures EvalSome(Words(words), w.field) <==> exists x :: x in words && WordHolds(w, x)
  {
    var r := Words(words);
    forall i | 0 <= i < |words| ensures Eval(r[i], w.field) <==> WordHolds(w, words[i]) { }
    if x :| x in words && WordHolds(w, x) {
      var i :| 0 <= i < |words| && words[i] == x;
      assert r[i] in r;
    }
  }

  // What one keyword filter adds to the field side.
  function KeywordExprs(k: KeywordFilter): seq<Expr<FieldAtom>> {
    match k
    case OneWord(word) => [Atom(Keyword(word))]
    case ManyWords(f) =>
      if f.all != [] then [And(Words(f.all))]
      else if f.any != [] then [Or(Words(f.any))]
      else if f.none != [] then [Not(Or(Words(f.none)))]
      else if f.notAll != [] then [Not(And(Words(f.notAll)))]
      else []
  }

  lemma KeywordTranslated(k: KeywordFilter, w: World)
    requires k.ManyWords? ==> AtMostOne(k.f)
    ensures EvalAll(KeywordExprs(k), w.field) <==> KeywordMeans(w, k)
  {
    match k
    case OneWord(word) => EvalAllOne(Atom(Keyword(word)), w.field);
    case ManyWords(f) =>
      var words := Labels(f);
      WordsMean(words, w);
      var es := KeywordExprs(k);
      if es != [] {
        EvalAllOne(es[0], w.field);
        assert es == [es[0]];
        assert Eval(And(Words(words)), w.field) <==> EvalAll(Words(words), w.field);
        assert Eval(Or(Words(words)), w.field) <==> EvalSome(Words(words), w.field);
      }
  }

  method ConvertKeywords(keywords: seq<KeywordFilter>) returns (fields: seq<Expr<FieldAtom>>)
    requires forall k :: k in keywords && k.ManyWords? ==> AtMostOne(k.f)
    ensures forall w: World :: EvalAll(fields, w.field) <==> forall k :: k in keywords ==> KeywordMeans(w, k)
  {
    fields := [];
    for i := 0 to |keywords|
      invariant forall w: World :: EvalAll(fields, w.field) <==> forall k :: k in keywords[..i] ==> KeywordMeans(w, k)
    {
      ghost var before := fields;
      var k := keywords[i];
      assert keywords[..i + 1] == keywords[..i] + [k];
      assert k in keywords;
      fields := fields + KeywordExprs(k);
      forall w: World
        ensures EvalAll(fields, w.field) <==> forall k :: k in keywords[..i + 1] ==> KeywordMeans(w, k)
      {
        EvalAllAppend(before, KeywordExprs(k), w.field);
        KeywordTranslated(k, w);
      }
    }
    assert keywords[..|keywords|] == keywords;
  }

  // "type" or "type/name"
  function FieldKey(key: string): Option<(FieldType, Option<string>)> {
    var parts := Text.Split(key, '/');
    match FromAbbreviation(parts[0])
    case None => None
    case Some(t) => Some((t, if |parts| > 1 then Some(parts[1]) else None))
  }

  ghost predicate FieldKeyMeans(w: World, key: string) {
    FieldKey(key).Some? && w.field(FieldIs(FieldKey(key).value.0, FieldKey(key).value.1))
  }

  // "rid", "rid/type" or "rid/type/name"
  function ResourceKeyExpr(key: string): Option<Expr<FieldAtom>> {
    var parts := Text.Split(key, '/');
    if |parts| == 1 then Some(Atom(ResourceIs(parts[0])))
    else
      match FromAbbreviation(parts[1])
      case None => None
      case Some(t) => Some(And([Atom(ResourceIs(parts[0])),
        Atom(FieldIs(t, if |parts| > 2 then Some(parts[2]) else None))]))
  }

  // A resource key is an id, alone or with the key of a field behind a slash.
  lemma ResourceKeyExact(w: World, rid: string, tail: string)
    requires '/' !in rid
    ensures ResourceKeyMeans(w, rid) <==> w.field(ResourceIs(rid))
    ensures ResourceKeyExpr(rid).Some?
    ensures ResourceKeyMeans(w, rid + "/" + tail) <==> w.field(ResourceIs(rid)) && FieldKeyMeans(w, tail)
    ensures ResourceKeyExpr(rid + "/" + tail).Some? <==> FieldKey(tail).Some?
  {
    Text.SplitFree(rid, '/');
    Text.SplitHead(rid, tail, '/');
    assert rid + "/" + tail == rid + ['/'] + tail;
  }

  // A resource, or a field of it.
  ghost predicate ResourceKeyMeans(w: World, key: string) {
    var parts := Text.Split(key, '/');
    w.field(ResourceIs(parts[0])) &&
    (|parts| > 1 ==>
      && FromAbbreviation(parts[1]).Some?
      && w.field(FieldIs(FromAbbreviation(parts[1]).value, if |parts| > 2 then Some(parts[2]) else None)))
  }

  lemma ResourceKeyTranslated(key: string, w: World)
    requires ResourceKeyExpr(key).Some?
    ensures Eval(ResourceKeyExpr(key).value, w.field) <==> ResourceKeyMeans(w, key)
  {
    var e := ResourceKeyExpr(key).value;
    if e.And? {
      assert e.operands[0] in e.operands && e.operands[1] in e.operands;
      assert forall o :: o in e.operands ==> o == e.operands[0] || o == e.operands[1];
    }
  }

  // A field key is the letter of a type, alone or with a name behind a slash; what is behind a
  // second slash does not count.
  lemma FieldKeyExact(key: string, t: FieldType, n: string)
    ensures FieldKey(key) == Some((t, None)) <==> key == Letter(t)
    ensures FieldKey(key) == Some((t, Some(n))) <==>
      '/' !in n && exists more :: key == Pair(Letter(t), Some(Pair(n, more)))
  {
    var parts := Text.Split(key, '/');
    var (a, b) := SplitOnce(key);
    LettersRead(parts[0], t);
    SplitOncePieces(key);
    SplitOnceExact(key, a, b);
    SplitOnceExact(key, Letter(t), None);
    if b.Some? {
      var (m, more) := SplitOnce(b.value);
      SplitOncePieces(b.value);
      SplitOnceExact(b.value, m, more);
      assert |parts| > 1 && parts[1] == m;
    }
    forall more | key == Pair(Letter(t), Some(Pair(n, more))) && '/' !in n
      ensures FieldKey(key) == Some((t, Some(n)))
    {
      SplitOnceExact(key, Letter(t), Some(Pair(n, more)));
      SplitOnceExact(Pair(n, more), n, more);
    }
    hide SplitOnce, Letter, FromAbbreviation;
  }

  // A disjunction over keys: absent, the single operand, or an Or.
  method ConvertFields(keys: seq<string>) returns (r: Result<seq<Expr<FieldAtom>>, Error>)
    ensures r.Ok? <==> forall key :: key in keys ==> FieldKey(key).Some?
    ensures r.Err? ==> r.error == InvalidQuery("fields")
    ensures r.Ok? ==> forall w: World :: EvalAll(r.value, w.field) <==>
      (keys != [] ==> exists key :: key in keys && FieldKeyMeans(w, key))
  {
    var operands: seq<Expr<FieldAtom>> := [];
    for i := 0 to |keys|
      invariant |operands| == i && forall key :: key in keys[..i] ==> FieldKey(key).Some?
      invariant forall w: World :: EvalSome(operands, w.field) <==>
        exists key :: key in keys[..i] && FieldKeyMeans(w, key)
    {
      var key := keys[i];
      assert keys[..i + 1] == keys[..i] + [key];
      assert key in keys;
      if FieldKey(key).None? { return Err(InvalidQuery("fields")); }
      var e := Atom(FieldIs(FieldKey(key).value.0, FieldKey(key).value.1));
      forall w: World
        ensures EvalSome(operands + [e], w.field) <==> exists key :: key in keys[..i + 1] && FieldKeyMeans(w, key)
      {
        EvalSomeAppend(operands, e, w.field);
        assert Eval(e, w.field) <==> FieldKeyMeans(w, key);
      }
      operands := operands + [e];
    }
    assert keys[..|keys|] == keys;
    forall w: World ensures EvalAll(Combined(operands, false), w.field) <==>
      (keys != [] ==> EvalSome(operands, w.field)) {
      CombinedMeans(operands, false, w.field);
    }
    return Ok(Combined(operands, false));
  }

  method ConvertResources(keys: seq<string>) returns (r: Result<seq<Expr<FieldAtom>>, Error>)
    ensures r.Ok? <==> forall key :: key in keys ==> ResourceKeyExpr(key).Some?
    ensures r.Err? ==> r.error == KeyError
    ensures r.Ok? ==> forall w: World :: EvalAll(r.value, w.field) <==>
      (keys != [] ==> exists key :: key in keys && ResourceKeyMeans(w, key))
  {
    var operands: seq<Expr<FieldAtom>> := [];
    for i := 0 to |keys|
      invariant |operands| == i && forall key :: key in keys[..i] ==> ResourceKeyExpr(key).Some?
      invariant forall w: World :: EvalSome(operands, w.field) <==>
        exists key :: key in keys[..i] && ResourceKeyMeans(w, key)
    {
      var key := keys[i];
      assert keys[..i + 1] == keys[..i] + [key];
      assert key in keys;
      if ResourceKeyExpr(key).None? { return Err(KeyError); }
      var e := ResourceKeyExpr(key).value;
      forall w: World
        ensures EvalSome(operands + [e], w.field) <==> exists key :: key in keys[..i + 1] && ResourceKeyMeans(w, key)
      {
        EvalSomeAppend(operands, e, w.field);
        ResourceKeyTranslated(key, w);
      }
      operands := operands + [e];
    }
    assert keys[..|keys|] == keys;
    forall w: World ensures EvalAll(Combined(operands, false), w.field) <==>
      (keys != [] ==> EvalSome(operands, w.field)) {
      CombinedMeans(operands, false, w.field);
    }
    return Ok(Combined(operands, false));
  }

  // ----- the whole request -----

  datatype Request = Request(
    filters: seq<LabelFilter>, resourceFilters: seq<string>, fields: seq<string>, keywordFilters: seq<KeywordFilter>,
    creationStart: Option<Date>, creationEnd: Option<Date>, modificationStart: Option<Date>,
      modificationEnd: Option<Date>,
    filterExpression: Option<FilterExpression>)

  // What the request model validates.
  ghost predicate Validated(req: Request) {
    && (forall lf :: lf in req.filters && lf.Many? ==> AtMostOne(lf.f))
    && (forall k :: k in req.keywordFilters && k.ManyWords? ==> AtMostOne(k.f))
  }

  predicate HasOldFilters(req: Request) {
    || |req.filters| > 0 || |req.resourceFilters| > 0 || |req.fields| > 0 || |req.keywordFilters| > 0
    || req.creationStart.Some? || req.creationEnd.Some? || req.modificationStart.Some? || req.modificationEnd.Some?
  }

  ghost predicate DatesMean(req: Request, w: World) {
    && (req.creationStart.Some? || req.creationEnd.Some? ==> w.field(DateCreated(req.creationStart, req.creationEnd)))
    && (req.modificationStart.Some? || req.modificationEnd.Some? ==>
      w.field(DateModified(req.modificationStart, req.modificationEnd)))
  }

  ghost predicate ResourcesMean(keys: seq<string>, w: World) {
    keys != [] ==> exists key :: key in keys && ResourceKeyMeans(w, key)
  }

  // The conjunction of everything the request asks for.
  ghost predicate RequestMeans(env: Env, req: Request, w: World) {
    && AcceptsOpt(req.filterExpression, w)
    && DatesMean(req, w)
    && LabelsMean(env, w, req.filters)
    && (forall k :: k in req.keywordFilters ==> KeywordMeans(w, k))
    && (req.fields != [] ==> exists key :: key in req.fields && FieldKeyMeans(w, key))
    && ResourcesMean(req.resourceFilters, w)
  }

  // Exactly when the request is translated rather than refused.
  ghost predicate RequestOk(env: Env, req: Request) {
    && (req.filterExpression.Some? ==> !HasOldFilters(req))
    && (forall lf :: lf in req.filters ==> Translatable(env, lf))
    && (forall key :: key in req.fields ==> FieldKey(key).Some?)
    && (forall key :: key in req.resourceFilters ==> ResourceKeyExpr(key).Some?)
  }

  // What a refused request is refused for: labels come before fields, fields before resources.
  ghost function FirstRefusal(env: Env, req: Request): Error {
    if exists lf :: lf in req.filters && !Translatable(env, lf) then InvalidQuery("filters")
    else if exists key :: key in req.fields && FieldKey(key).None? then InvalidQuery("fields")
    else KeyError
  }

  function DateExprs(req: Request): seq<Expr<FieldAtom>> {
    (if req.creationStart.Some? || req.creationEnd.Some?
      then [Atom(DateCreated(req.creationStart, req.creationEnd))] else [])
    + (if req.modificationStart.Some? || req.modificationEnd.Some?
      then [Atom(DateModified(req.modificationStart, req.modificationEnd))] else [])
  }

  lemma DatesTranslated(req: Request, w: World)
    ensures EvalAll(DateExprs(req), w.field) <==> DatesMean(req, w)
  {
    var c := Atom(DateCreated(req.creationStart, req.creationEnd));
    var m := Atom(DateModified(req.modificationStart, req.modificationEnd));
    if req.creationStart.Some? || req.creationEnd.Some? {
      assert DateExprs(req)[0] == c;
      assert c in DateExprs(req);
    }
    if req.modificationStart.Some? || req.modificationEnd.Some? {
      assert DateExprs(req)[|DateExprs(req)| - 1] == m;
      assert m in DateExprs(req);
    }
    assert forall e :: e in DateExprs(req) ==> e == c || e == m;
  }

  class FindRequest {
    var item: Request

    constructor (item: Request)
      ensures this.item == item
    {
      this.item := item;
    }

    // FindParser._parse_filters.  The compiled expression accepts exactly the pairs that the
    // request describes, and a request is refused exactly when it is not RequestOk.
    method ParseFilters(env: Env) returns (r: Result<Option<FilterExpression>, Error>)
      requires Validated(item)
      ensures r.Ok? <==> RequestOk(env, item)
      ensures item.filterExpression.Some? && HasOldFilters(item) ==> r == Err(InvalidQuery("filter_expression"))
      ensures r.Err? && !(item.filterExpression.Some? && HasOldFilters(item)) ==> r.error == FirstRefusal(env, item)
      ensures r.Ok? ==> forall w: World :: AcceptsOpt(r.value, w) <==> RequestMeans(env, item, w)
    {
      if item.filterExpression.Some? && HasOldFilters(item) {
        return Err(InvalidQuery("filter_expression"));
      }
      var filterExpression := None;
      if HasOldFilters(item) {
        r := CompileOld(env);
        if r.Err? { return; }
        filterExpression := r.value;
      }
      if item.filterExpression.Some? {
        filterExpression := item.filterExpression;
      }
      return Ok(filterExpression);
    }

    method CompileOld(env: Env) returns (r: Result<Option<FilterExpression>, Error>)
      requires Validated(item) && item.filterExpression.None?
      ensures r.Ok? <==> RequestOk(env, item)
      ensures r.Err? ==> r.error == FirstRefusal(env, item)
      ensures r.Ok? ==> forall w: World :: AcceptsOpt(r.value, w) <==> RequestMeans(env, item, w)
    {
      var dates := DateExprs(item);
      var labels := ConvertLabels(env, item.filters);
      if labels.Err? { return Err(labels.error); }
      var keywords := ConvertKeywords(item.keywordFilters);
      var fields := ConvertFields(item.fields);
      if fields.Err? { return Err(fields.error); }
      var resources := ConvertResources(item.resourceFilters);
      if resources.Err? { return Err(resources.error); }
      var fieldExpression := dates + labels.value.0 + keywords + fields.value + resources.value;
      var field, paragraph := Conjunction(fieldExpression), labels.value.1;
      var compiled := if field.Some? || paragraph.Some? then Some(FilterExpression(field, paragraph, AND)) else None;
      forall w: World
        ensures AcceptsOpt(compiled, w) <==> RequestMeans(env, item, w)
      {
        DatesTranslated(item, w);
        EvalAllAppend(dates, labels.value.0, w.field);
        EvalAllAppend(dates + labels.value.0, keywords, w.field);
        EvalAllAppend(dates + labels.value.0 + keywords, fields.value, w.field);
        EvalAllAppend(dates + labels.value.0 + keywords + fields.value, resources.value, w.field);
        ConjunctionMeans(fieldExpression, w.field);
        assert AcceptsOpt(compiled, w) <==> EvalOpt(field, w.field) && EvalOpt(paragraph, w.paragraph);
      }
      return Ok(compiled);
    }

    // add_resource_filter
    method AddResourceFilter(resources: seq<string>)
      modifies this
      ensures item.(filterExpression := None, resourceFilters := []) ==
        old(item).(filterExpression := None, resourceFilters := [])
      ensures resources == [] ==> item == old(item)
      ensures resources != [] && old(item).filterExpression.None? ==> item == old(item).(resourceFilters := resources)
      ensures resources != [] && old(item).filterExpression.Some? ==>
        && item.resourceFilters == old(item).resourceFilters && item.filterExpression.Some?
        && forall w: World :: Accepts(item.filterExpression.value, w) <==>
          NarrowedAccepts(old(item).filterExpression.value, resources, w)
    {
      if |resources| == 0 {
        return;
      }
      if item.filterExpression.Some? {
        var fe := item.filterExpression.value;
        var ids := ResourceAtoms(resources);
        var resourceFilter := if |resources| > 1 then Or(ids) else ids[0];
        forall w: World ensures Eval(resourceFilter, w.field) <==> InResources(w, resources) {
          ResourceAtomsMean(resources, w);
        }
        var field := match fe.field case None => resourceFilter case Some(f) => And([f, resourceFilter]);
        forall w: World ensures Eval(field, w.field) <==> EvalOpt(fe.field, w.field) && InResources(w, resources) {
          if fe.field.Some? {
            assert field.operands[0] in field.operands && field.operands[1] in field.operands;
            assert forall o :: o in field.operands ==> o == fe.field.value || o == resourceFilter;
          }
        }
        item := item.(filterExpression := Some(fe.(field := Some(field))));
      } else {
        item := item.(resourceFilters := resources);
      }
    }

    // Scoping a request to some resources and then compiling it: what comes out, and where it can
    // reach.  Whatever it accepts is in one of the resources, unless the request came with an OR
    // expression whose paragraph side accepts it.
    method ParseScoped(env: Env, resources: seq<string>) returns (r: Result<Option<FilterExpression>, Error>)
      requires Validated(item)
      modifies this
      ensures resources == [] ==> Compiles(env, old(item), r)
      ensures resources != [] && old(item).filterExpression.None? ==>
        Compiles(env, old(item).(resourceFilters := resources), r)
      ensures resources != [] && old(item).filterExpression.Some? ==>
        && (r.Ok? <==> RequestOk(env, old(item)))
        && (r.Ok? ==> forall w: World :: AcceptsOpt(r.value, w) <==>
          NarrowedAccepts(old(item).filterExpression.value, resources, w))
      ensures resources != [] && r.Ok? ==>
        forall w: World :: AcceptsOpt(r.value, w) ==> WithinScope(old(item).filterExpression, resources, w)
    {
      ghost var given := item;
      AddResourceFilter(resources);
      r := ParseFilters(env);
      if resources != [] && r.Ok? && given.filterExpression.Some? {
        forall w: World
          ensures AcceptsOpt(r.value, w) <==> NarrowedAccepts(given.filterExpression.value, resources, w)
        {
          NoOldFilters(env, item, w);
        }
      }
    }
  }

  // r is what the request compiles to.
  ghost predicate Compiles(env: Env, req: Request, r: Result<Option<FilterExpression>, Error>) {
    && (r.Ok? <==> RequestOk(env, req))
    && (r.Ok? ==> forall w: World :: AcceptsOpt(r.value, w) <==> RequestMeans(env, req, w))
  }

  // In one of the resources, as their keys are read without an expression; or let through by the
  // paragraph side of an OR expression.
  ghost predicate WithinScope(e: Option<FilterExpression>, resources: seq<string>, w: World) {
    match e
    case None => ResourcesMean(resources, w)
    case Some(e) =>
      InResources(w, resources) || (e.operator.OR? && e.paragraph.Some? &&
      Eval(e.paragraph.value, w.paragraph))
  }

  lemma NoOldFilters(env: Env, req: Request, w: World)
    requires !HasOldFilters(req)
    ensures RequestMeans(env, req, w) <==> AcceptsOpt(req.filterExpression, w)
  {
  }

  // ----- narrowing to resources -----

  ghost predicate InResources(w: World, resources: seq<string>) {
    exists rid :: rid in resources && w.field(ResourceIs(rid))
  }

  function ResourceAtoms(resources: seq<string>): (r: seq<Expr<FieldAtom>>)
    ensures |r| == |resources| && forall i :: 0 <= i < |resources| ==> r[i] == Atom(ResourceIs(resources[i]))
  {
    seq(|resources|, i requires 0 <= i < |resources| => Atom(ResourceIs(resources[i])))
  }

  lemma ResourceAtomsMean(resources: seq<string>, w: World)
    requires resources != []
    ensures Eval(Or(ResourceAtoms(resources)), w.field) <==> InResources(w, resources)
    ensures |resources| == 1 ==> (Eval(ResourceAtoms(resources)[0], w.field) <==> InResources(w, resources))
  {
    var es := ResourceAtoms(resources);
    forall i | 0 <= i < |resources| ensures Eval(es[i], w.field) <==> w.field(ResourceIs(resources[i])) { }
    if rid :| rid in resources && w.field(ResourceIs(rid)) {
      var i :| 0 <= i < |resources| && resources[i] == rid;
      assert es[i] in es;
    }
  }

  // What an expression accepts once a resource filter has been put on its field side.
  ghost predicate NarrowedAccepts(e: FilterExpression, resources: seq<string>, w: World) {
    var field := EvalOpt(e.field, w.field) && InResources(w, resources);
    match e.paragraph
    case None => field
    case Some(p) => if e.operator.AND? then field && Eval(p, w.paragraph) else field || Eval(p, w.paragraph)
  }

  predicate KeepsScope(e: FilterExpression) { e.operator.AND? || e.paragraph.None? }

  // With AND the narrowed expression is the old one restricted to the resources.
  lemma NarrowingExact(e: FilterExpression, resources: seq<string>, w: World)
    requires e.operator.AND?
    ensures NarrowedAccepts(e, resources, w) <==> Accepts(e, w) && InResources(w, resources)
  {
  }

  // A pair outside the resources still gets through exactly when the operator is OR and the
  // paragraph side accepts it.
  lemma NarrowingEscape(e: FilterExpression, resources: seq<string>, w: World)
    ensures NarrowedAccepts(e, resources, w) && !InResources(w, resources) <==>
      !KeepsScope(e) && Eval(e.paragraph.value, w.paragraph) && !InResources(w, resources)
  {
  }

  // Resource ids without a slash are read back as themselves.
  lemma PlainKeysMean(resources: seq<string>, w: World)
    requires resources != [] && (forall rid :: rid in resources ==> '/' !in rid)
    ensures ResourcesMean(resources, w) <==> InResources(w, resources)
  {
    forall rid | rid in resources ensures ResourceKeyMeans(w, rid) <==> w.field(ResourceIs(rid)) {
      Text.SplitFree(rid, '/');
    }
  }

  // ----- _combine_filters -----

  function AsFilter(lf: LabelFilter): Filter {
    match lf case One(l) => Filter([l], [], [], []) case Many(f) => f
  }

  function AsMany(fs: seq<Filter>): (r: seq<LabelFilter>)
    ensures |r| == |fs| && forall i :: 0 <= i < |fs| ==> r[i] == Many(fs[i])
  {
    seq(|fs|, i requires 0 <= i < |fs| => Many(fs[i]))
  }

  // Putting a bare label under `all` changes neither what it means nor whether it is accepted.
  lemma AsFilterSame(env: Env, w: World, lf: LabelFilter)
    ensures LabelFilterMeans(env, w, Many(AsFilter(lf))) <==> LabelFilterMeans(env, w, lf)
    ensures Translatable(env, Many(AsFilter(lf))) <==> Translatable(env, lf)
  {
    if lf.One? {
      assert lf.l in AsFilter(lf).all;
    }
  }

  ghost predicate AllTranslatable(env: Env, fs: seq<LabelFilter>) {
    forall lf :: lf in fs ==> Translatable(env, lf)
  }

  lemma AsManyMeans(env: Env, w: World, fs: seq<Filter>)
    ensures LabelsMean(env, w, AsMany(fs)) <==> forall f :: f in fs ==> LabelFilterMeans(env, w, Many(f))
    ensures AllTranslatable(env, AsMany(fs)) <==> forall f :: f in fs ==> Translatable(env, Many(f))
  {
    var r := AsMany(fs);
    forall f | f in fs ensures Many(f) in r {
      var i :| 0 <= i < |fs| && fs[i] == f;
      assert r[i] == Many(f);
    }
  }

  // The saved filters of a search configuration AND the filters of the tool call.
  method CombineFilters(hasFilterExpression: bool, saved: seq<LabelFilter>, tool: seq<Filter>)
    returns (r: Option<seq<Filter>>)
    ensures r.None? <==> hasFilterExpression
    ensures r.Some? ==> forall env: Env, w: World ::
      LabelsMean(env, w, AsMany(r.value)) <==> LabelsMean(env, w, saved) && LabelsMean(env, w, AsMany(tool))
    ensures r.Some? ==> forall env: Env ::
      AllTranslatable(env, AsMany(r.value)) <==> AllTranslatable(env, saved) && AllTranslatable(env, AsMany(tool))
  {
    if hasFilterExpression {
      return None;
    }
    var combined: seq<Filter> := [];
    for i := 0 to |saved|
      invariant |combined| == i && forall k :: 0 <= k < i ==> combined[k] == AsFilter(saved[k])
    {
      combined := combined + [AsFilter(saved[i])];
    }
    ghost var own := combined;
    combined := combined + tool;
    forall env: Env, w: World
      ensures LabelsMean(env, w, AsMany(combined)) <==> LabelsMean(env, w, saved) && LabelsMean(env, w, AsMany(tool))
    {
      AsManyMeans(env, w, combined);
      AsManyMeans(env, w, tool);
      OwnMeans(env, w, saved, own);
      assert forall f :: f in combined <==> f in own || f in tool;
    }
    forall env: Env
      ensures AllTranslatable(env, AsMany(combined)) <==>
        AllTranslatable(env, saved) && AllTranslatable(env, AsMany(tool))
    {
      AsManyMeans(env, World(_ => true, _ => true), combined);
      AsManyMeans(env, World(_ => true, _ => true), tool);
      OwnMeans(env, World(_ => true, _ => true), saved, own);
      assert forall f :: f in combined <==> f in own || f in tool;
    }
    return Some(combined);
  }

  lemma OwnMeans(env: Env, w: World, saved: seq<LabelFilter>, own: seq<Filter>)
    requires |own| == |saved| && forall k :: 0 <= k < |saved| ==> own[k] == AsFilter(saved[k])
    ensures (forall f :: f in own ==> LabelFilterMeans(env, w, Many(f))) <==> LabelsMean(env, w, saved)
    ensures (forall f :: f in own ==> Translatable(env, Many(f))) <==> AllTranslatable(env, saved)
  {
    forall k | 0 <= k < |saved|
      ensures LabelFilterMeans(env, w, Many(own[k])) <==> LabelFilterMeans(env, w, saved[k])
      ensures Translatable(env, Many(own[k])) <==> Translatable(env, saved[k])
      ensures own[k] in own && saved[k] in saved
    {
      AsFilterSame(env, w, saved[k]);
    }
  }
}
