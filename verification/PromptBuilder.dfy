// PromptContextBuilder of ask/search/prompt.py: the user's texts first, then the strategies, then
// the cap.  Images are not part of this model.
module PromptBuilder {
  import opened Basics
  import opened Text
  import opened OrderedDict
  import opened Ids
  import opened PromptContext
  import opened PromptEdits
  import opened PromptStrategies
  import opened WholeFields
  import opened HierarchyContext
  import opened ConversationContext
  import opened MetadataExtension
  import Sorting

  // The strategies of a request; prequeries and graph are handled elsewhere.
  datatype Strategy =
    | UseFullResource(full: FullResource)
    | UseHierarchy(count: int)
    | UseNeighbours
    | UseFieldExtension
    | UseConversation(attachmentsText: bool)
    | UseMetadata(types: Types)
    | Elsewhere

  datatype Kind = FULL_RESOURCE | HIERARCHY | NEIGHBOURS | FIELD_EXTENSION | CONVERSATION | METADATA | ELSEWHERE

  function KindOf(s: Strategy): Kind {
    match s
    case UseFullResource(_) => FULL_RESOURCE
    case UseHierarchy(_) => HIERARCHY
    case UseNeighbours => NEIGHBOURS
    case UseFieldExtension => FIELD_EXTENSION
    case UseConversation(_) => CONVERSATION
    case UseMetadata(_) => METADATA
    case Elsewhere => ELSEWHERE
  }

  // The last strategy of a kind is the one that is used.
  function Last(ss: seq<Strategy>, kind: Kind): (s: Option<Strategy>)
    ensures s.Some? ==> KindOf(s.value) == kind
  {
    if ss == [] then None
    else if KindOf(ss[|ss| - 1]) == kind then Some(ss[|ss| - 1])
    else Last(ss[..|ss| - 1], kind)
  }

  // ----- what is done, in order -----

  datatype Stage =
    | Defaults
    | Paragraphs
    | Whole(full: FullResource)
    | Hierarchies(count: int)
    | Neighbours
    | Fields
    | Conversations(attachmentsText: bool)
    | Metadata(types: Types)

  // With a resource of its own, full_resource is held to that one.
  function Scoped(full: FullResource, resource: Option<string>): FullResource {
    if Given(resource) then full.(count := Some(1)) else full
  }

  // The stage a strategy stands for, if there is one.
  function StageOf(s: Option<Strategy>): seq<Stage> {
    if s.None? then []
    else
      match s.value
      case UseFullResource(full) => [Whole(full)]
      case UseHierarchy(count) => [Hierarchies(count)]
      case UseNeighbours => [Neighbours]
      case UseFieldExtension => [Fields]
      case UseConversation(attachmentsText) => [Conversations(attachmentsText)]
      case UseMetadata(types) => [Metadata(types)]
      case Elsewhere => []
  }

  function OtherStages(ss: seq<Strategy>): seq<Stage> {
    StageOf(Last(ss, HIERARCHY)) + StageOf(Last(ss, NEIGHBOURS)) + StageOf(Last(ss, FIELD_EXTENSION)) +
      StageOf(Last(ss, CONVERSATION))
  }

  // full_resource goes with nothing but the metadata; without it the others run in a fixed order.
  function Plan(ss: seq<Strategy>, resource: Option<string>): seq<Stage> {
    if ss == [] then [Defaults]
    else
      var full := Last(ss, FULL_RESOURCE);
      [Paragraphs] + (if full.Some? then [Whole(Scoped(full.value.full, resource))] else OtherStages(ss)) +
        StageOf(Last(ss, METADATA))
  }

  // Where a stage stands in the fixed order.
  function Place(stage: Stage): nat {
    match stage
    case Defaults => 0
    case Paragraphs => 0
    case Whole(_) => 1
    case Hierarchies(_) => 2
    case Neighbours => 3
    case Fields => 4
    case Conversations(_) => 5
    case Metadata(_) => 6
  }

  // s is the last strategy of its kind.
  ghost predicate Prevails(ss: seq<Strategy>, s: Strategy) {
    exists i :: 0 <= i < |ss| && ss[i] == s && forall j :: i < j < |ss| ==> KindOf(ss[j]) != KindOf(s)
  }

  // The stage is planned: the paragraphs themselves, the whole resources when they are asked for,
  // and else each strategy of the request that prevails; the metadata in any case.
  ghost predicate Planned(ss: seq<Strategy>, resource: Option<string>, stage: Stage) {
    var whole := exists s :: s in ss && s.UseFullResource?;
    match stage
    case Defaults => ss == []
    case Paragraphs => ss != []
    case Whole(full) =>
      exists given :: Prevails(ss, UseFullResource(given)) && full.remaining == given.remaining &&
        full.exclude == given.exclude &&
        full.count == if resource.Some? && resource.value != "" then Some(1) else given.count
    case Hierarchies(count) => !whole && Prevails(ss, UseHierarchy(count))
    case Neighbours => !whole && Prevails(ss, UseNeighbours)
    case Fields => !whole && Prevails(ss, UseFieldExtension)
    case Conversations(attachmentsText) => !whole && Prevails(ss, UseConversation(attachmentsText))
    case Metadata(types) => Prevails(ss, UseMetadata(types))
  }

  lemma {:induction false} LastPrevails(ss: seq<Strategy>, kind: Kind)
    ensures forall s :: Last(ss, kind) == Some(s) <==> Prevails(ss, s) && KindOf(s) == kind
    ensures Last(ss, kind).None? <==> forall s :: s in ss ==> KindOf(s) != kind
  {
    hide KindOf;
    if ss != [] {
      var front, last := ss[..|ss| - 1], ss[|ss| - 1];
      LastPrevails(front, kind);
      assert ss == front + [last];
      assert forall s :: s in ss <==> s in front || s == last;
      forall s | KindOf(s) == kind
        ensures Prevails(ss, s) <==> if KindOf(last) == kind then s == last else Prevails(front, s)
      {
        PrevailsSnoc(front, last, s);
      }
    }
  }

  lemma PrevailsSnoc(front: seq<Strategy>, last: Strategy, s: Strategy)
    ensures Prevails(front + [last], s) <==> if KindOf(last) == KindOf(s) then s == last else Prevails(front, s)
  {
    hide KindOf;
    var ss := front + [last];
    assert forall i :: 0 <= i < |front| ==> ss[i] == front[i];
    if s == last {
      assert ss[|front|] == s;
    }
    if i :| 0 <= i < |ss| && ss[i] == s && forall j :: i < j < |ss| ==> KindOf(ss[j]) != KindOf(s) {
      if i < |front| {
        assert KindOf(ss[|front|]) != KindOf(s);
        assert front[i] == s && forall j :: i < j < |front| ==> KindOf(front[j]) != KindOf(s);
      }
    }
    if KindOf(last) != KindOf(s) && Prevails(front, s) {
      var i :| 0 <= i < |front| && front[i] == s && forall j :: i < j < |front| ==> KindOf(front[j]) != KindOf(s);
      assert ss[i] == s && forall j :: i < j < |ss| ==> KindOf(ss[j]) != KindOf(s);
    }
  }

  // Exactly the planned stages run, each once, in the fixed order.
  lemma PlanExact(ss: seq<Strategy>, resource: Option<string>)
    ensures forall stage :: stage in Plan(ss, resource) <==> Planned(ss, resource, stage)
    ensures Ordered(Plan(ss, resource), 0, 7)
  {
    forall stage ensures stage in Plan(ss, resource) <==> Planned(ss, resource, stage) {
      PlannedExact(ss, resource, stage);
    }
    PlanOrdered(ss, resource);
  }

  ghost predicate Ordered(stages: seq<Stage>, from: nat, to: nat) {
    && (forall i :: 0 <= i < |stages| ==> from <= Place(stages[i]) < to)
    && (forall i, j :: 0 <= i < j < |stages| ==> Place(stages[i]) < Place(stages[j]))
  }

  lemma OrderedConcat(a: seq<Stage>, b: seq<Stage>, from: nat, mid: nat, to: nat)
    requires Ordered(a, from, mid) && Ordered(b, mid, to) && from <= mid <= to
    ensures Ordered(a + b, from, to)
  {
    hide Place;
  }

  function KindPlace(kind: Kind): nat {
    match kind
    case FULL_RESOURCE => 1
    case HIERARCHY => 2
    case NEIGHBOURS => 3
    case FIELD_EXTENSION => 4
    case CONVERSATION => 5
    case METADATA => 6
    case ELSEWHERE => 7
  }

  lemma StageOrdered(ss: seq<Strategy>, kind: Kind)
    ensures Ordered(StageOf(Last(ss, kind)), KindPlace(kind), KindPlace(kind) + 1)
  {
    hide Last;
  }

  lemma PlanOrdered(ss: seq<Strategy>, resource: Option<string>)
    ensures Ordered(Plan(ss, resource), 0, 7)
  {
    StageOrdered(ss, HIERARCHY);
    StageOrdered(ss, NEIGHBOURS);
    StageOrdered(ss, FIELD_EXTENSION);
    StageOrdered(ss, CONVERSATION);
    StageOrdered(ss, METADATA);
    hide StageOf, Last, Scoped;
    var full := Last(ss, FULL_RESOURCE);
    assert Ordered([Paragraphs], 0, 2) && Ordered([Paragraphs], 0, 1) && Ordered([Defaults], 0, 7);
    var h, n := StageOf(Last(ss, HIERARCHY)), StageOf(Last(ss, NEIGHBOURS));
    var f, c := StageOf(Last(ss, FIELD_EXTENSION)), StageOf(Last(ss, CONVERSATION));
    if ss != [] && full.Some? {
      assert Ordered([Whole(Scoped(full.value.full, resource))], 1, 6);
      OrderedConcat([Paragraphs], [Whole(Scoped(full.value.full, resource))], 0, 1, 6);
      OrderedConcat([Paragraphs] + [Whole(Scoped(full.value.full, resource))], StageOf(Last(ss, METADATA)), 0, 6, 7);
    } else if ss != [] {
      hide Ordered;
      OrderedConcat(h, n, 2, 3, 4);
      OrderedConcat(h + n, f, 2, 4, 5);
      OrderedConcat(h + n + f, c, 2, 5, 6);
      OrderedConcat([Paragraphs], h + n + f + c, 0, 2, 6);
      OrderedConcat([Paragraphs] + (h + n + f + c), StageOf(Last(ss, METADATA)), 0, 6, 7);
    }
  }

  lemma StageFound(ss: seq<Strategy>, stage: Stage)
    ensures stage in StageOf(Last(ss, HIERARCHY)) <==>
      stage.Hierarchies? && Prevails(ss, UseHierarchy(stage.count))
    ensures stage in StageOf(Last(ss, NEIGHBOURS)) <==> stage.Neighbours? && Prevails(ss, UseNeighbours)
    ensures stage in StageOf(Last(ss, FIELD_EXTENSION)) <==> stage.Fields? && Prevails(ss, UseFieldExtension)
    ensures stage in StageOf(Last(ss, CONVERSATION)) <==>
      stage.Conversations? && Prevails(ss, UseConversation(stage.attachmentsText))
    ensures stage in StageOf(Last(ss, METADATA)) <==> stage.Metadata? && Prevails(ss, UseMetadata(stage.types))
  {
    LastPrevails(ss, HIERARCHY);
    LastPrevails(ss, NEIGHBOURS);
    LastPrevails(ss, FIELD_EXTENSION);
    LastPrevails(ss, CONVERSATION);
    LastPrevails(ss, METADATA);
    hide Prevails, Last;
  }

  lemma WholeFound(ss: seq<Strategy>, resource: Option<string>, w: FullResource)
    ensures var full := Last(ss, FULL_RESOURCE);
      (full.Some? && w == Scoped(full.value.full, resource)) <==> Planned(ss, resource, Whole(w))
    ensures Last(ss, FULL_RESOURCE).Some? <==> exists s :: s in ss && s.UseFullResource?
  {
    LastPrevails(ss, FULL_RESOURCE);
    hide Prevails, Last;
    var full := Last(ss, FULL_RESOURCE);
    if full.Some? {
      assert full.value == UseFullResource(full.value.full);
      assert Prevails(ss, UseFullResource(full.value.full));
    }
    assert full.None? ==> forall s :: s in ss ==> !s.UseFullResource?;
    forall given | Prevails(ss, UseFullResource(given)) ensures full == Some(UseFullResource(given)) {}
  }

  // The strategy of a kind that prevails, if any, is the one that is found last.
  lemma PlannedExact(ss: seq<Strategy>, resource: Option<string>, stage: Stage)
    ensures stage in Plan(ss, resource) <==> Planned(ss, resource, stage)
  {
    var full := Last(ss, FULL_RESOURCE);
    StageFound(ss, stage);
    if stage.Whole? {
      WholeFound(ss, resource, stage.full);
    } else {
      WholeFound(ss, resource, FullResource(None, false, Exclusion([], x => x)));
    }
    PlanMembers(ss, resource, stage);
    NothingPrevails();
    hide Prevails, Last, StageOf, Scoped, Plan;
  }

  lemma PlanMembers(ss: seq<Strategy>, resource: Option<string>, stage: Stage)
    ensures var full := Last(ss, FULL_RESOURCE);
      stage in Plan(ss, resource) <==>
        if ss == [] then stage == Defaults
        else
          || stage == Paragraphs
          || (full.Some? && stage == Whole(Scoped(full.value.full, resource)))
          || (full.None? &&
                (stage in StageOf(Last(ss, HIERARCHY)) || stage in StageOf(Last(ss, NEIGHBOURS)) ||
                 stage in StageOf(Last(ss, FIELD_EXTENSION)) || stage in StageOf(Last(ss, CONVERSATION))))
          || stage in StageOf(Last(ss, METADATA))
  {
    hide Last, StageOf, Scoped;
  }

  lemma NothingPrevails()
    ensures forall s :: !Prevails([], s)
  {
  }

  // What the service answers each strategy; full_resource names the resources it asks for.
  datatype Answers = Answers(defaults: Augmented, full: seq<string> -> Augmented, hierarchy: Augmented,
      neighbours: Augmented,
                             fields: Augmented, conversation: Augmented, attachments: Augmented, metadata: Augmented)

  ghost predicate AnswersOk(answers: Answers, codes: Codes) {
    && (forall resources :: AnswerOk(answers.full(resources), codes))
    && AnswerOk(answers.neighbours, codes)
    && AnswerOk(answers.fields, codes)
  }

  datatype Request = Request(paragraphs: seq<Paragraph>, resource: Option<string>, userContext: seq<string>,
                             strategies: seq<Strategy>, maxCharacters: Option<int>)

  function StageEdits(stage: Stage, es: Dict, q: Request, answers: Answers, codes: Codes): seq<Edit>
    requires AllRetrieved(q.paragraphs, codes)
  {
    var ps := q.paragraphs;
    match stage
    case Defaults => DefaultEdits(ps, answers.defaults, codes)
    case Paragraphs => ParagraphEdits(ps)
    case Whole(full) => FullResourceEdits(FullTexts(ps, q.resource, full, answers.full, codes), ps, full.remaining,
      codes)
    case Hierarchies(count) => HierarchyEdits(ps, Extra(count), answers.hierarchy, codes)
    case Neighbours => NeighbourEdits(PidsOf(ps, codes), PidsOf(ps, codes), answers.neighbours, codes)
    case Fields => FieldExtensionEdits(Extracted(answers.fields, false), ps)
    case Conversations(attachmentsText) => ConversationEdits(es, ps, attachmentsText, answers.conversation,
      answers.attachments, codes)
    case Metadata(types) => MetadataEdits(es, types, answers.metadata, codes)
  }

  function RunStages(es: Dict, stages: seq<Stage>, q: Request, answers: Answers, codes: Codes): Result<Dict, Error>
    requires AllRetrieved(q.paragraphs, codes)
    decreases |stages|
  {
    if stages == [] then Ok(es)
    else
      var next := Apply(es, StageEdits(stages[0], es, q, answers, codes));
      if next.Err? then next else RunStages(next.value, stages[1..], q, answers, codes)
  }

  // USER_CONTEXT_0, USER_CONTEXT_1, ...
  function UserKey(i: nat): string { "USER_CONTEXT_" + Dec(i) }

  function UserBlocks(texts: seq<string>): (es: Dict)
    ensures |es| == |texts| && forall i :: 0 <= i < |texts| ==> es[i] == Entry(UserKey(i), texts[i])
  {
    seq(|texts|, i requires 0 <= i < |texts| => Entry(UserKey(i), texts[i]))
  }

  // ----- every stage keeps the user's blocks, and only one can fail -----

  lemma MetadataOk(es: Dict, types: Types, a: Augmented, user: Dict, codes: Codes)
    requires Shape(es, user, codes)
    ensures AllFaithful(es, codes)
    ensures Apply(es, MetadataEdits(es, types, a, codes)).Ok?
    ensures EditsOk(MetadataEdits(es, types, a, codes), codes)
  {
    hide Untouched, Extended, PiecesAt;
    forall i | 0 <= i < |es| ensures Faithful(es[i].key, codes) {
      if i < |user| {
        assert user[i] == es[i];
        NoSlashNoId(es[i].key, codes);
      }
    }
    IdsCanonical(es, a, codes);
    if types.origin || types.extra || types.labels || types.ners {
      MetadataExact(es, types, a, codes);
    }
  }

  lemma {:induction false} IdsCanonical(es: Dict, a: Augmented, codes: Codes)
    requires forall i :: 0 <= i < |es| ==> Faithful(es[i].key, codes)
    ensures EditsOk(ExtendAll(IdsOf(es, codes), a), codes)
  {
    hide Pieces, Extends;
    if es != [] {
      IdsCanonical(es[1..], a, codes);
      IdsHead(es, a, codes);
      ExtendsCanonical(es[0].key, PiecesAt(es[0].key, a, codes), codes);
    }
  }

  lemma {:induction false} ExtendsCanonical(key: string, pieces: seq<Piece>, codes: Codes)
    requires Faithful(key, codes) && (pieces != [] ==> '/' in key)
    ensures EditsOk(Extends(key, pieces), codes)
  {
    hide Faithful;
    if pieces != [] {
      ExtendsCanonical(key, pieces[1..], codes);
    }
  }

  lemma WholeOk(full: FullResource, q: Request, answers: Answers, codes: Codes)
    requires AllRetrieved(q.paragraphs, codes) && AnswersOk(answers, codes)
    ensures EditsOk(FullResourceEdits(FullTexts(q.paragraphs, q.resource, full, answers.full, codes), q.paragraphs,
      full.remaining, codes), codes)
  {
    hide AnswerOk, Extracted, Picks, FullResourceEdits, EditsOk, Shape, ParagraphIdOk;
    var resources := Head(if q.resource.Some? then [q.resource.value] else Picks(q.paragraphs, full.exclude, codes),
      full.count);
    ExtractedShape(answers.full(resources), true, codes);
    FullResourceEditsOk(Extracted(answers.full(resources), true), q.paragraphs, full.remaining, codes);
  }

  lemma PidsPrintable(ps: seq<Paragraph>, codes: Codes)
    requires AllRetrieved(ps, codes)
    ensures forall p :: p in PidsOf(ps, codes) ==> p.Printable()
  {
    hide ParseParagraph;
  }

  // A conversation that gets a message has a malformed attachment id.
  ghost predicate StageFails(stage: Stage, es: Dict, q: Request, answers: Answers, codes: Codes)
    requires AllRetrieved(q.paragraphs, codes)
  {
    stage.Conversations? && Malformed(es, q.paragraphs, answers.conversation, codes)
  }

  lemma StageOk(stage: Stage, es: Dict, q: Request, answers: Answers, user: Dict, codes: Codes)
    requires AllRetrieved(q.paragraphs, codes) && AnswersOk(answers, codes) && Shape(es, user, codes)
    ensures EditsOk(StageEdits(stage, es, q, answers, codes), codes)
    ensures var r := Apply(es, StageEdits(stage, es, q, answers, codes));
            (r.Err? ==> r == Err(ValueError)) && (r.Err? <==> StageFails(stage, es, q, answers, codes))
  {
    hide Apply, Shape, ParagraphIdOk, AnswerOk, EditOk, ParagraphEdits, AnswerEdits, FullTexts, FullResourceEdits,
      TextEdits, FinalTexts,
      NeighbourEdits, ExtendEdits, MissingParagraphEdits, Extracted, ConversationEdits, MetadataEdits, NeverFails,
        Malformed;
    var ps := q.paragraphs;
    var edits := StageEdits(stage, es, q, answers, codes);
    match stage
    case Defaults =>
      ParagraphEditsOk(ps, codes);
      AnswerEditsOk(PromptStrategies.Conversations(ps), answers.defaults, codes);
      ApplyPasses(es, edits);
    case Paragraphs =>
      ParagraphEditsOk(ps, codes);
      ApplyPasses(es, edits);
    case Whole(full) =>
      WholeOk(full, q, answers, codes);
      ApplyPasses(es, edits);
    case Hierarchies(count) =>
      TextEditsOk(ps, FinalTexts(ps, Extra(count), answers.hierarchy, codes), codes);
      ApplyPasses(es, edits);
    case Neighbours =>
      PidsPrintable(ps, codes);
      NeighbourEditsOk(PidsOf(ps, codes), PidsOf(ps, codes), answers.neighbours, codes);
      ApplyPasses(es, edits);
    case Fields =>
      ExtractedShape(answers.fields, false, codes);
      FieldExtensionEditsOk(Extracted(answers.fields, false), ps, codes);
      ApplyPasses(es, edits);
    case Conversations(attachmentsText) =>
      ConversationEditsOk(es, ps, attachmentsText, answers.conversation, answers.attachments, codes);
      ConversationFails(es, ps, attachmentsText, answers.conversation, answers.attachments, codes);
    case Metadata(types) =>
      MetadataOk(es, types, answers.metadata, user, codes);
  }

  // Whatever the stages, the user's blocks stay first, in order and unchanged; without the
  // conversations nothing fails.
  lemma {:induction false} RunShape(es: Dict, stages: seq<Stage>, q: Request, answers: Answers, user: Dict,
      codes: Codes)
    requires AllRetrieved(q.paragraphs, codes) && AnswersOk(answers, codes) && Shape(es, user, codes)
    ensures RunStages(es, stages, q, answers, codes).Ok? ==>
      Shape(RunStages(es, stages, q, answers, codes).value, user, codes)
    ensures RunStages(es, stages, q, answers, codes).Err? ==>
      RunStages(es, stages, q, answers, codes) == Err(ValueError)
    ensures NoTalk(stages) ==> RunStages(es, stages, q, answers, codes).Ok?
    decreases |stages|
  {
    hide StageEdits, Apply, Shape, AnswersOk, ParagraphIdOk, EditsOk, Malformed;
    if stages != [] {
      var edits := StageEdits(stages[0], es, q, answers, codes);
      StageOk(stages[0], es, q, answers, user, codes);
      if Apply(es, edits).Ok? {
        ApplyShape(es, edits, user, codes);
        RunShape(Apply(es, edits).value, stages[1..], q, answers, user, codes);
      }
    }
  }

  lemma UserShape(texts: seq<string>, codes: Codes)
    ensures Shape(UserBlocks(texts), UserBlocks(texts), codes)
  {
    var es := UserBlocks(texts);
    forall i, j | 0 <= i < j < |es| ensures es[i].key != es[j].key {
      UserKeysDiffer(i, j);
    }
    forall i | 0 <= i < |es| ensures '/' !in es[i].key {
      assert '/' !in Dec(i);
    }
  }

  lemma UserKeysDiffer(i: nat, j: nat)
    requires i != j
    ensures UserKey(i) != UserKey(j)
  {
    assert UserKey(i)[|"USER_CONTEXT_"|..] == Dec(i) && UserKey(j)[|"USER_CONTEXT_"|..] == Dec(j);
    if Dec(i) == Dec(j) {
      DecInjective(i, j);
    }
  }

  // ----- what the cap does to the user's blocks -----

  // While the user's texts fit they are untouched; when they do not, nothing else survives.
  lemma {:induction false} UserFirst(es: Dict, user: Dict, limit: nat)
    requires user <= es
    ensures Size(user) <= limit ==> user <= Trimmed(es, limit)
    ensures Size(user) > limit ==> Trimmed(es, limit) == Trimmed(user, limit)
  {
    if |es| == |user| {
      assert es == user;
    } else {
      var front := es[..|es| - 1];
      assert user <= front;
      SizeMonotone(es, |user|, |es| - 1);
      assert es[..|user|] == user;
      UserFirst(front, user, limit);
    }
  }

  lemma {:induction false} NegativeLimit(es: Dict, limit: int)
    requires limit < 0
    ensures Trimmed(es, limit) == []
  {
    if es != [] {
      NegativeLimit(es[..|es| - 1], limit);
    }
  }

  // The context of a request before the cap.
  function Gathered(q: Request, answers: Answers, codes: Codes): Result<Dict, Error>
    requires AllRetrieved(q.paragraphs, codes)
  {
    RunStages(UserBlocks(q.userContext), Plan(q.strategies, q.resource), q, answers, codes)
  }

  // What runs before the conversations when they have a turn.
  function BeforeTalk(ss: seq<Strategy>): seq<Stage> {
    [Paragraphs] + StageOf(Last(ss, HIERARCHY)) + StageOf(Last(ss, NEIGHBOURS)) + StageOf(Last(ss, FIELD_EXTENSION))
  }

  // The conversations have a turn, and when it comes some conversation that gets a message has a
  // malformed attachment id.
  ghost predicate Rejected(q: Request, answers: Answers, codes: Codes)
    requires AllRetrieved(q.paragraphs, codes)
  {
    && TalkPlanned(q.strategies)
    && var r := RunStages(UserBlocks(q.userContext), BeforeTalk(q.strategies), q, answers, codes);
       r.Ok? && Malformed(r.value, q.paragraphs, answers.conversation, codes)
  }

  lemma {:induction false} RunConcat(es: Dict, first: seq<Stage>, rest: seq<Stage>, q: Request, answers: Answers,
      codes: Codes)
    requires AllRetrieved(q.paragraphs, codes)
    ensures var r := RunStages(es, first, q, answers, codes);
            RunStages(es, first + rest, q, answers, codes) ==
              if r.Err? then r else RunStages(r.value, rest, q, answers, codes)
    decreases |first|
  {
    hide StageEdits, Apply, ParagraphIdOk;
    if first == [] {
      assert first + rest == rest;
    } else {
      var next := Apply(es, StageEdits(first[0], es, q, answers, codes));
      assert (first + rest)[1..] == first[1..] + rest && (first + rest)[0] == first[0];
      if next.Ok? {
        RunConcat(next.value, first[1..], rest, q, answers, codes);
      }
    }
  }

  // No stage asks the conversations.
  predicate NoTalk(stages: seq<Stage>) { forall i :: 0 <= i < |stages| ==> !stages[i].Conversations? }

  lemma NoTalkConcat(first: seq<Stage>, rest: seq<Stage>)
    requires NoTalk(first) && NoTalk(rest)
    ensures NoTalk(first + rest)
  {
  }

  lemma NotTalk(ss: seq<Strategy>, kind: Kind)
    ensures kind != CONVERSATION || Last(ss, kind).None? ==> NoTalk(StageOf(Last(ss, kind)))
  {
    hide Last;
  }

  lemma BeforeNoTalk(ss: seq<Strategy>)
    ensures NoTalk(BeforeTalk(ss)) && NoTalk(StageOf(Last(ss, METADATA)))
  {
    hide Last, StageOf;
    NotTalk(ss, METADATA);
    NotTalk(ss, HIERARCHY);
    NotTalk(ss, NEIGHBOURS);
    NotTalk(ss, FIELD_EXTENSION);
    var h, n := StageOf(Last(ss, HIERARCHY)), StageOf(Last(ss, NEIGHBOURS));
    NoTalkConcat([Paragraphs], h);
    NoTalkConcat([Paragraphs] + h, n);
    NoTalkConcat([Paragraphs] + h + n, StageOf(Last(ss, FIELD_EXTENSION)));
    hide NoTalk;
  }

  predicate TalkPlanned(ss: seq<Strategy>) { Last(ss, FULL_RESOURCE).None? && Last(ss, CONVERSATION).Some? }

  // Where the conversations have their turn in the plan, if they have one.
  lemma PlanParts(ss: seq<Strategy>, resource: Option<string>)
    ensures TalkPlanned(ss) ==>
      Plan(ss, resource) ==
      BeforeTalk(ss) + StageOf(Last(ss, CONVERSATION)) + StageOf(Last(ss, METADATA))
    ensures !TalkPlanned(ss) ==> NoTalk(Plan(ss, resource))
  {
    hide Last, StageOf, NoTalk;
    BeforeNoTalk(ss);
    var metadata := StageOf(Last(ss, METADATA));
    if TalkPlanned(ss) {
      PlanTalk(ss, resource);
    } else if ss == [] {
      OneNoTalk(Defaults);
    } else {
      OneNoTalk(Paragraphs);
      if Last(ss, FULL_RESOURCE).Some? {
        var whole := Whole(Scoped(Last(ss, FULL_RESOURCE).value.full, resource));
        OneNoTalk(whole);
        NoTalkConcat([Paragraphs], [whole]);
        NoTalkConcat([Paragraphs] + [whole], metadata);
      } else {
        NotTalk(ss, CONVERSATION);
        NoTalkConcat(BeforeTalk(ss), StageOf(Last(ss, CONVERSATION)));
        NoTalkConcat(BeforeTalk(ss) + StageOf(Last(ss, CONVERSATION)), metadata);
        PlanTalk(ss, resource);
      }
    }
  }

  lemma OneNoTalk(stage: Stage)
    requires !stage.Conversations?
    ensures NoTalk([stage])
  {
  }

  lemma NoneFound(kind: Kind)
    ensures Last([], kind).None?
  {
  }

  lemma PlanTalk(ss: seq<Strategy>, resource: Option<string>)
    requires Last(ss, FULL_RESOURCE).None? && (ss != [] || Last(ss, CONVERSATION).Some?)
    ensures Plan(ss, resource) == BeforeTalk(ss) + StageOf(Last(ss, CONVERSATION)) + StageOf(Last(ss, METADATA))
  {
    NoneFound(CONVERSATION);
    hide Last, StageOf;
    Regroup([Paragraphs], StageOf(Last(ss, HIERARCHY)), StageOf(Last(ss, NEIGHBOURS)),
      StageOf(Last(ss, FIELD_EXTENSION)),
      StageOf(Last(ss, CONVERSATION)));
  }

  lemma Regroup(p: seq<Stage>, h: seq<Stage>, n: seq<Stage>, f: seq<Stage>, c: seq<Stage>)
    ensures p + (h + n + f + c) == p + h + n + f + c
  {
    assert p + (h + n + f + c) == p + (h + n + f) + c;
    assert p + (h + n + f) == p + (h + n) + f;
    assert p + (h + n) == p + h + n;
  }

  lemma OneStage(es: Dict, stage: Stage, q: Request, answers: Answers, codes: Codes)
    requires AllRetrieved(q.paragraphs, codes)
    ensures RunStages(es, [stage], q, answers, codes) == Apply(es, StageEdits(stage, es, q, answers, codes))
  {
    hide StageEdits, Apply, ParagraphIdOk;
    assert [stage][1..] == [];
  }

  // Building fails exactly when the conversations have a turn and a conversation that gets a
  // message has a malformed attachment id.
  lemma GatheredFails(q: Request, answers: Answers, codes: Codes)
    requires AllRetrieved(q.paragraphs, codes) && AnswersOk(answers, codes)
    ensures Gathered(q, answers, codes).Err? <==> Rejected(q, answers, codes)
    ensures Gathered(q, answers, codes).Err? ==> Gathered(q, answers, codes) == Err(ValueError)
  {
    hide RunStages, AnswersOk, ParagraphIdOk, Plan, UserBlocks, Malformed, BeforeTalk, Shape, Last;
    var ss, user := q.strategies, UserBlocks(q.userContext);
    UserShape(q.userContext, codes);
    RunShape(user, Plan(ss, q.resource), q, answers, user, codes);
    PlanParts(ss, q.resource);
    if TalkPlanned(ss) {
      BeforeNoTalk(ss);
      TalkTurn(q, answers, Last(ss, CONVERSATION).value.attachmentsText, StageOf(Last(ss, METADATA)), codes);
    }
  }

  lemma TalkTurn(q: Request, answers: Answers, text: bool, rest: seq<Stage>, codes: Codes)
    requires AllRetrieved(q.paragraphs, codes) && AnswersOk(answers, codes) && NoTalk(rest)
    ensures var user, before := UserBlocks(q.userContext), BeforeTalk(q.strategies);
            var r := RunStages(user, before, q, answers, codes);
            && r.Ok?
            && (RunStages(user, before + [Conversations(text)] + rest, q, answers, codes).Err? <==>
                Malformed(r.value, q.paragraphs, answers.conversation, codes))
  {
    hide RunStages, AnswersOk, ParagraphIdOk, UserBlocks, Malformed, BeforeTalk, Shape, StageEdits, Apply;
    var user, before := UserBlocks(q.userContext), BeforeTalk(q.strategies);
    UserShape(q.userContext, codes);
    BeforeNoTalk(q.strategies);
    RunShape(user, before, q, answers, user, codes);
    var es := RunStages(user, before, q, answers, codes).value;
    RunConcat(user, before + [Conversations(text)], rest, q, answers, codes);
    RunConcat(user, before, [Conversations(text)], q, answers, codes);
    OneStage(es, Conversations(text), q, answers, codes);
    StageOk(Conversations(text), es, q, answers, user, codes);
    var next := Apply(es, StageEdits(Conversations(text), es, q, answers, codes));
    if next.Ok? {
      ApplyShape(es, StageEdits(Conversations(text), es, q, answers, codes), user, codes);
      RunShape(next.value, rest, q, answers, user, codes);
    }
  }

  // Well-formed attachment ids are enough for building never to fail.
  lemma ParsedNeverRejected(q: Request, answers: Answers, codes: Codes)
    requires AllRetrieved(q.paragraphs, codes)
    requires forall i :: 0 <= i < |answers.conversation.fields| ==>
      forall j :: 0 <= j < |answers.conversation.fields[i].1.attachments| ==>
        ParseField(answers.conversation.fields[i].1.attachments[j], codes).Some?
    ensures !Rejected(q, answers, codes)
  {
    hide RunStages, ParseField, Talked, Parents, ParagraphIdOk, BeforeTalk;
    forall f: FieldId, j | 0 <= j < |AttachmentIds(f, answers.conversation)|
      ensures ParseField(AttachmentIds(f, answers.conversation)[j], codes).Some?
    {
      FindMember(answers.conversation.fields, f.FullWithoutSubfield());
    }
  }

  // A conversation of one message, with one attachment id.
  function OneMessage(f: FieldId, m: Message, attachment: string): Augmented {
    Augmented([], [(f.FullWithoutSubfield(), AugmentedField(None, Some([m]), [attachment], [], []))], [])
  }

  function TalkAnswers(a: Augmented): Answers {
    var none := Augmented([], [], []);
    Answers(none, _ => none, none, none, none, a, none, none)
  }

  // One retrieved paragraph, and the conversations asked for.
  function TalkRequest(p: PromptStrategies.Paragraph): Request {
    Request([p], None, [], [UseConversation(false)], None)
  }

  // A paragraph of conversation f, none of its messages, and an attachment id that is none.
  ghost predicate BadTalkInput(p: PromptStrategies.Paragraph, f: FieldId, m: Message, attachment: string,
      codes: Codes) {
    && ParagraphIdOk(p.id, codes) && Pid(p, codes).field == f && f.kind == "c"
    && Given(m.text) && p.id != MessageId(f, m.ident, |m.text.value|) && ParseField(attachment, codes).None?
  }

  lemma TalkParents(p: PromptStrategies.Paragraph, f: FieldId, m: Message, attachment: string, codes: Codes)
    requires BadTalkInput(p, f, m, attachment, codes)
    ensures AllRetrieved([p], codes) && Parents([p], {}, codes) == [f]
  {
    hide ParseParagraph, MessageId;
    assert [p][1..] == [];
  }

  lemma TalkTalked(es: Dict, p: PromptStrategies.Paragraph, f: FieldId, m: Message, attachment: string, codes: Codes)
    requires BadTalkInput(p, f, m, attachment, codes)
    requires forall i :: 0 <= i < |es| ==> es[i].key == p.id
    ensures Talked(es, [p], f, OneMessage(f, m, attachment))
    ensures AttachmentIds(f, OneMessage(f, m, attachment)) == [attachment]
  {
    hide ParseParagraph, ParseField, MessageId;
    var a := OneMessage(f, m, attachment);
    assert MessagesOf(f, a) == [m];
    assert !IsParagraph(MessageId(f, m.ident, |m.text.value|), [p]);
    assert NewMessage(es, [p], f, MessagesOf(f, a), 0);
  }

  lemma TalkMalformed(es: Dict, p: PromptStrategies.Paragraph, f: FieldId, m: Message, attachment: string, codes: Codes)
    requires BadTalkInput(p, f, m, attachment, codes) && AllRetrieved([p], codes)
    requires forall i :: 0 <= i < |es| ==> es[i].key == p.id
    ensures Malformed(es, [p], OneMessage(f, m, attachment), codes)
  {
    TalkParents(p, f, m, attachment, codes);
    TalkTalked(es, p, f, m, attachment, codes);
    hide ParseField, Parents, ParagraphIdOk, Talked, OneMessage, AttachmentIds;
    assert MalformedAt(es, [p], f, OneMessage(f, m, attachment), codes) by {
      assert [attachment][0] == attachment;
    }
    assert Parents([p], {}, codes)[0] == f;
  }

  // Such a request cannot be built.
  lemma BadAttachmentFails(p: PromptStrategies.Paragraph, f: FieldId, m: Message, attachment: string, codes: Codes)
    requires BadTalkInput(p, f, m, attachment, codes)
    ensures AllRetrieved([p], codes) && Gathered(TalkRequest(p), TalkAnswers(OneMessage(f, m, attachment)), codes) ==
      Err(ValueError)
  {
    TalkParents(p, f, m, attachment, codes);
    var q, answers := TalkRequest(p), TalkAnswers(OneMessage(f, m, attachment));
    hide Malformed, ParagraphIdOk, Clean, BadTalkInput, RunStages, BeforeTalk, OneMessage, AnswersOk;
    FirstBlocks(q, p, answers, codes);
    TalkMalformed([Entry(p.id, Clean(p.text))], p, f, m, attachment, codes);
    TalkLast(q, p);
    NoAnswers(OneMessage(f, m, attachment), codes);
    GatheredFails(q, answers, codes);
  }

  lemma TalkLast(q: Request, p: PromptStrategies.Paragraph)
    requires q == TalkRequest(p)
    ensures TalkPlanned(q.strategies)
  {
    assert q.strategies[..0] == [];
  }

  lemma NoAnswers(a: Augmented, codes: Codes)
    ensures AnswersOk(TalkAnswers(a), codes)
  {
  }

  lemma FirstBlocks(q: Request, p: PromptStrategies.Paragraph, answers: Answers, codes: Codes)
    requires q == TalkRequest(p) && AllRetrieved(q.paragraphs, codes)
    ensures RunStages(UserBlocks(q.userContext), BeforeTalk(q.strategies), q, answers, codes) ==
      Ok([Entry(p.id, Clean(p.text))])
  {
    hide ParagraphIdOk, Clean, RunStages, Apply;
    assert BeforeTalk(q.strategies) == [Paragraphs] by {
      assert q.strategies[..0] == [];
    }
    assert UserBlocks(q.userContext) == [];
    OneStage([], Paragraphs, q, answers, codes);
    assert ParagraphEdits([p]) == [Set(p.id, Clean(p.text))] by {
      assert [p][1..] == [];
    }
    ApplyOne([], Set(p.id, Clean(p.text)));
    PutFirst(p.id, Clean(p.text));
  }

  lemma PutFirst(key: string, text: string)
    ensures Step([], Set(key, text)) == Ok([Entry(key, text)])
  {
    var empty: Dict := [];
    assert !Has(empty, key);
    assert empty + [Entry(key, text)] == [Entry(key, text)];
    assert Put(empty, key, text) == [Entry(key, text)];
  }

  // There is such an input, whatever the codes are.
  lemma BadTalkExample(codes: Codes) returns (p: PromptStrategies.Paragraph, f: FieldId, m: Message)
    ensures BadTalkInput(p, f, m, "x", codes)
  {
    f := FieldId("r", "c", "k", None);
    var pid, message := ParagraphId(f, 0, 5), ParagraphId(FieldId("r", "c", "k", Some("m")), 0, 2);
    ParagraphRoundTrip(pid, codes);
    ParagraphRoundTrip(message, codes);
    p, m := PromptStrategies.Paragraph.Paragraph(pid.Full(), "hello", [], VECTOR), Message("m", Some("hi"));
    SplitFree("x", '/');
    hide ParseParagraph;
  }

  // With any strategies and any answers for which building does not fail: while the user's texts
  // fit, all of them come first, unchanged; when they do not, no retrieved block survives and the
  // user's texts are cut as if they were alone.
  lemma UserTextProtected(q: Request, answers: Answers, codes: Codes)
    requires AllRetrieved(q.paragraphs, codes) && AnswersOk(answers, codes)
    ensures Gathered(q, answers, codes).Err? <==> Rejected(q, answers, codes)
    ensures Gathered(q, answers, codes).Ok? ==>
            var user, r := UserBlocks(q.userContext), Capped(Gathered(q, answers, codes).value, q.maxCharacters);
            if q.maxCharacters.None? || Size(user) <= q.maxCharacters.value then user <= r
            else r == Capped(user, q.maxCharacters)
  {
    hide RunStages, AnswersOk, ParagraphIdOk, Plan, Canonical, UserBlocks, Size, Trimmed, Rejected;
    var user := UserBlocks(q.userContext);
    UserShape(q.userContext, codes);
    GatheredFails(q, answers, codes);
    RunShape(user, Plan(q.strategies, q.resource), q, answers, user, codes);
    if Gathered(q, answers, codes).Ok? && q.maxCharacters.Some? {
      var es := Gathered(q, answers, codes).value;
      assert user <= es;
      if q.maxCharacters.value >= 0 {
        UserFirst(es, user, q.maxCharacters.value);
      } else {
        NegativeLimit(es, q.maxCharacters.value);
        NegativeLimit(user, q.maxCharacters.value);
      }
    }
  }

  // ----- when nothing is asked of the context -----

  // The retrieved paragraphs as they are.
  function AsRetrieved(ps: seq<PromptStrategies.Paragraph>): (es: Dict)
    ensures |es| == |ps| && forall i :: 0 <= i < |ps| ==> es[i] == Entry(ps[i].id, ps[i].text)
  {
    seq(|ps|, i requires 0 <= i < |ps| => Entry(ps[i].id, ps[i].text))
  }

  // No strategy that is handled here, no answered message, and paragraphs without blanks at their
  // ends or highlights.
  ghost predicate PlainRequest(q: Request, answers: Answers) {
    && (if q.strategies == [] then answers.defaults.fields == [] else forall s :: s in q.strategies ==> s.Elsewhere?)
    && (forall i, j :: 0 <= i < j < |q.paragraphs| ==> q.paragraphs[i].id != q.paragraphs[j].id)
    && (forall p :: p in q.paragraphs ==>
          Tight(p.text, IsWhitespace) && NoMark(p.text, "<mark>") && NoMark(p.text, "</mark>"))
  }

  lemma {:induction false} NewParagraphs(es: Dict, ps: seq<PromptStrategies.Paragraph>)
    requires forall i, j :: 0 <= i < j < |ps| ==> ps[i].id != ps[j].id
    requires forall p :: p in ps ==> !Has(es, p.id) && Clean(p.text) == p.text
    ensures Apply(es, ParagraphEdits(ps)) == Ok(es + AsRetrieved(ps))
    decreases |ps|
  {
    hide Clean, Put, Has, Step, Apply, ParagraphEdits, AsRetrieved;
    if ps == [] {
      NoneRetrieved(es);
    } else {
      var own := Entry(ps[0].id, ps[0].text);
      assert ps[0] in ps;
      FirstSet(es, ps);
      forall q | q in ps[1..] ensures !Has(es + [own], q.id) && Clean(q.text) == q.text {
        LaterParagraph(ps, q);
        HasSnoc(es, own, q.id);
      }
      NewParagraphs(es + [own], ps[1..]);
      RetrievedCons(es, ps);
    }
  }

  lemma NoneRetrieved(es: Dict)
    ensures Apply(es, ParagraphEdits([])) == Ok(es + AsRetrieved([]))
  {
    assert es + AsRetrieved([]) == es;
  }

  lemma LaterParagraph(ps: seq<PromptStrategies.Paragraph>, q: PromptStrategies.Paragraph)
    requires ps != [] && q in ps[1..] && forall i, j :: 0 <= i < j < |ps| ==> ps[i].id != ps[j].id
    ensures q in ps && q.id != ps[0].id
  {
    var i :| 0 <= i < |ps[1..]| && ps[1..][i] == q;
    assert ps[i + 1] == q;
  }

  lemma RetrievedCons(es: Dict, ps: seq<PromptStrategies.Paragraph>)
    requires ps != []
    ensures es + [Entry(ps[0].id, ps[0].text)] + AsRetrieved(ps[1..]) == es + AsRetrieved(ps)
  {
    assert [Entry(ps[0].id, ps[0].text)] + AsRetrieved(ps[1..]) == AsRetrieved(ps);
  }

  lemma FirstSet(es: Dict, ps: seq<PromptStrategies.Paragraph>)
    requires ps != [] && !Has(es, ps[0].id) && Clean(ps[0].text) == ps[0].text
    ensures Apply(es, ParagraphEdits(ps)) == Apply(es + [Entry(ps[0].id, ps[0].text)], ParagraphEdits(ps[1..]))
  {
    hide Clean, Put, Has;
    PutAbsent(es, ps[0].id, ps[0].text);
    assert ParagraphEdits(ps)[1..] == ParagraphEdits(ps[1..]);
  }

  lemma {:induction false} NoMessages(ids: seq<string>, a: Augmented, codes: Codes)
    requires a.fields == []
    ensures AnswerEdits(ids, a, codes) == []
  {
    hide ParseField;
    if ids != [] {
      NoMessages(ids[1..], a, codes);
    }
  }

  lemma {:induction false} LastElsewhere(ss: seq<Strategy>, kind: Kind)
    requires kind != ELSEWHERE && forall s :: s in ss ==> s.Elsewhere?
    ensures Last(ss, kind).None?
  {
    if ss != [] {
      assert ss[|ss| - 1] in ss;
      LastElsewhere(ss[..|ss| - 1], kind);
    }
  }

  ghost predicate SetsParagraphs(stage: Stage, q: Request, answers: Answers, codes: Codes)
    requires AllRetrieved(q.paragraphs, codes)
  {
    forall es :: StageEdits(stage, es, q, answers, codes) == ParagraphEdits(q.paragraphs)
  }

  // The plan is to set the paragraphs and nothing else.
  lemma PlainPlan(q: Request, answers: Answers, codes: Codes)
    requires PlainRequest(q, answers) && AllRetrieved(q.paragraphs, codes)
    ensures exists stage :: Plan(q.strategies, q.resource) == [stage] && SetsParagraphs(stage, q, answers, codes)
  {
    hide ParagraphIdOk, NoMark, Tight;
    if q.strategies == [] {
      NoMessages(PromptStrategies.Conversations(q.paragraphs), answers.defaults, codes);
      assert Plan(q.strategies, q.resource) == [Defaults];
      assert ParagraphEdits(q.paragraphs) + [] == ParagraphEdits(q.paragraphs);
      assert SetsParagraphs(Defaults, q, answers, codes);
    } else {
      forall kind | kind != ELSEWHERE ensures Last(q.strategies, kind).None? { LastElsewhere(q.strategies, kind); }
      assert Plan(q.strategies, q.resource) == [Paragraphs];
      assert SetsParagraphs(Paragraphs, q, answers, codes);
    }
  }

  // Then the context is the user's texts followed by exactly the texts that were retrieved.
  lemma RetrievedBlocks(q: Request, answers: Answers, codes: Codes)
    requires AllRetrieved(q.paragraphs, codes) && PlainRequest(q, answers)
    ensures Gathered(q, answers, codes) == Ok(UserBlocks(q.userContext) + AsRetrieved(q.paragraphs))
  {
    hide StageEdits, Clean, ParagraphIdOk, UserBlocks, Apply, Plan, NoMark, Tight, RunStages, Has, AsRetrieved,
      SetsParagraphs;
    var user := UserBlocks(q.userContext);
    forall p | p in q.paragraphs ensures !Has(user, p.id) && Clean(p.text) == p.text {
      CleanExact(p.text);
      NotUser(q.userContext, p, codes);
    }
    PlainPlan(q, answers, codes);
    var stage :| Plan(q.strategies, q.resource) == [stage] && SetsParagraphs(stage, q, answers, codes);
    OnlyParagraphs(stage, user, q, answers, codes);
    OneStage(user, stage, q, answers, codes);
    NewParagraphs(user, q.paragraphs);
  }

  lemma OnlyParagraphs(stage: Stage, es: Dict, q: Request, answers: Answers, codes: Codes)
    requires AllRetrieved(q.paragraphs, codes) && SetsParagraphs(stage, q, answers, codes)
    ensures StageEdits(stage, es, q, answers, codes) == ParagraphEdits(q.paragraphs)
  {
  }

  lemma NotUser(texts: seq<string>, p: PromptStrategies.Paragraph, codes: Codes)
    requires ParagraphIdOk(p.id, codes)
    ensures !Has(UserBlocks(texts), p.id)
  {
    hide ParagraphIdOk;
    RetrievedCanonical(p.id, codes);
    hide Faithful;
    assert '/' in p.id;
    forall i | 0 <= i < |texts| ensures UserKey(i) != p.id { assert '/' !in Dec(i); }
  }

  // ----- the order of the strategies in the request does not matter -----

  ghost predicate AtMostOneEach(ss: seq<Strategy>) {
    forall i, j :: 0 <= i < j < |ss| ==> KindOf(ss[i]) != KindOf(ss[j])
  }

  lemma {:induction false} LastExact(ss: seq<Strategy>, kind: Kind)
    requires AtMostOneEach(ss)
    ensures forall s :: s in ss && KindOf(s) == kind <==> Last(ss, kind) == Some(s)
  {
    hide KindOf;
    if ss != [] {
      var front, last := ss[..|ss| - 1], ss[|ss| - 1];
      LastExact(front, kind);
      assert ss == front + [last];
      assert forall s :: s in ss <==> s in front || s == last;
      assert forall s :: s in front ==> KindOf(s) != KindOf(last);
    }
  }

  // A request holds at most one strategy of each kind; any order of them gives the same plan.
  lemma PlanIgnoresOrder(ss: seq<Strategy>, tt: seq<Strategy>, resource: Option<string>)
    requires AtMostOneEach(ss) && AtMostOneEach(tt) && forall s :: s in ss <==> s in tt
    ensures Plan(ss, resource) == Plan(tt, resource)
  {
    forall kind ensures Last(ss, kind) == Last(tt, kind) {
      LastExact(ss, kind);
      LastExact(tt, kind);
      if Last(ss, kind).Some? {
        assert Last(ss, kind).value in tt;
      }
      if Last(tt, kind).Some? {
        assert Last(tt, kind).value in ss;
      }
    }
    assert ss == [] <==> tt == [] by {
      assert ss != [] ==> ss[0] in tt;
      assert tt != [] ==> tt[0] in ss;
    }
  }

  lemma RunSnoc(es: Dict, stages: seq<Stage>, stage: Stage, q: Request, answers: Answers, codes: Codes)
    requires AllRetrieved(q.paragraphs, codes)
    ensures var r := RunStages(es, stages, q, answers, codes);
            RunStages(es, stages + [stage], q, answers, codes) ==
            if r.Err? then r else Apply(r.value, StageEdits(stage, r.value, q, answers, codes))
  {
    hide StageEdits, Apply, ParagraphIdOk, RunStages;
    RunConcat(es, stages, [stage], q, answers, codes);
    var r := RunStages(es, stages, q, answers, codes);
    if r.Ok? {
      OneStage(r.value, stage, q, answers, codes);
    }
  }

  lemma RunNone(es: Dict, q: Request, answers: Answers, codes: Codes)
    requires AllRetrieved(q.paragraphs, codes)
    ensures RunStages(es, [], q, answers, codes) == Ok(es)
  {
  }

  lemma StageOfShort(s: Option<Strategy>)
    ensures |StageOf(s)| <= 1
  {
  }

  class PromptContextBuilder {
    const request: Request

    constructor (request: Request)
      ensures this.request == request
    {
      this.request := request;
    }

    method PrependUserContext(context: CappedPromptContext)
      requires context.Valid() && context.output == []
      modifies context`output
      ensures context.Valid() && context.output == UserBlocks(request.userContext)
    {
      var texts := request.userContext;
      hide UserKey;
      for i := 0 to |texts|
        invariant context.Valid() && context.output == UserBlocks(texts[..i])
      {
        forall j | 0 <= j < i ensures context.output[j].key != UserKey(i) {
          UserKeysDiffer(j, i);
        }
        PutAbsent(context.output, UserKey(i), texts[i]);
        context.SetItem(UserKey(i), texts[i]);
      }
      assert texts[..|texts|] == texts;
    }

    // One strategy's turn.
    method RunStage(context: CappedPromptContext, stage: Stage, answers: Answers, codes: Codes)
      returns (r: Outcome<Error>)
      requires context.Valid() && AllRetrieved(request.paragraphs, codes) && AnswersOk(answers, codes)
      modifies context`output
      ensures context.Valid()
      ensures Apply(old(context.output), StageEdits(stage, old(context.output), request, answers, codes)) ==
              if r.Pass? then Ok(context.output) else Err(r.error)
    {
      hide Apply, DefaultEdits, ParagraphEdits, FullResourceEdits, FullTexts, HierarchyEdits, NeighbourEdits,
        FieldExtensionEdits, Extracted,
        ConversationEdits, MetadataEdits, ParagraphIdOk, AnswerOk, Malformed, ConversationAdded, NeighboursAdded,
          FieldsExtended, FirstsOverwritten, DefaultsSet;
      var ps := request.paragraphs;
      r := Pass;
      match stage
      case Defaults => DefaultContext(context, ps, answers.defaults, codes);
      case Paragraphs => AddParagraphs(context, ps);
      case Whole(full) => FullResourceContext(context, ps, request.resource, full, answers.full, codes);
      case Hierarchies(count) => Hierarchy(context, ps, count, answers.hierarchy, codes);
      case Neighbours => NeighbouringContext(context, ps, answers.neighbours, codes);
      case Fields => FieldExtensionContext(context, ps, answers.fields, codes);
      case Conversations(attachmentsText) =>
        r := Conversation(context, ps, attachmentsText, answers.conversation, answers.attachments, codes);
      case Metadata(types) => r := ExtendContext(context, types, answers.metadata, codes);
    }

    // The loop that looks for the last strategy of each kind.
    method Choose() returns (full: Option<Strategy>, hierarchy: Option<Strategy>, neighbours: Option<Strategy>,
                             fields: Option<Strategy>, conversation: Option<Strategy>, metadata: Option<Strategy>)
      ensures full == Last(request.strategies, FULL_RESOURCE) && hierarchy == Last(request.strategies, HIERARCHY)
      ensures neighbours == Last(request.strategies, NEIGHBOURS) && fields == Last(request.strategies, FIELD_EXTENSION)
      ensures conversation == Last(request.strategies, CONVERSATION) && metadata == Last(request.strategies, METADATA)
    {
      var ss := request.strategies;
      full, hierarchy, neighbours, fields, conversation, metadata := None, None, None, None, None, None;
      for i := 0 to |ss|
        invariant full == Last(ss[..i], FULL_RESOURCE) && hierarchy == Last(ss[..i], HIERARCHY)
        invariant neighbours == Last(ss[..i], NEIGHBOURS) && fields == Last(ss[..i], FIELD_EXTENSION)
        invariant conversation == Last(ss[..i], CONVERSATION) && metadata == Last(ss[..i], METADATA)
      {
        assert ss[..i + 1][..i] == ss[..i];
        match ss[i]
        case UseFieldExtension => fields := Some(ss[i]);
        case UseConversation(_) => conversation := Some(ss[i]);
        case UseFullResource(_) => full := Some(ss[i]);
        case UseHierarchy(_) => hierarchy := Some(ss[i]);
        case UseNeighbours => neighbours := Some(ss[i]);
        case UseMetadata(_) => metadata := Some(ss[i]);
        case Elsewhere =>
      }
      assert ss[..|ss|] == ss;
    }

    // The turns of the given stages, behind those already done.
    method Turn(context: CappedPromptContext, stages: seq<Stage>, answers: Answers, codes: Codes, ghost start: Dict,
        ghost done: seq<Stage>)
      returns (r: Outcome<Error>)
      requires |stages| <= 1
      requires context.Valid() && AllRetrieved(request.paragraphs, codes) && AnswersOk(answers, codes)
      requires RunStages(start, done, request, answers, codes) == Ok(context.output)
      modifies context`output
      ensures context.Valid()
      ensures RunStages(start, done + stages, request, answers, codes) ==
        if r.Pass? then Ok(context.output) else Err(r.error)
    {
      hide *;
      if stages == [] {
        assert done + stages == done;
        return Pass;
      }
      assert stages == [stages[0]];
      RunSnoc(start, done, stages[0], request, answers, codes);
      r := RunStage(context, stages[0], answers, codes);
    }

    // The stages between the retrieved paragraphs and the metadata.
    method OtherTurns(context: CappedPromptContext, hierarchy: Option<Strategy>, neighbours: Option<Strategy>,
        fields: Option<Strategy>,
                      conversation: Option<Strategy>, answers: Answers, codes: Codes, ghost start: Dict,
                        ghost done: seq<Stage>)
      returns (r: Outcome<Error>)
      requires context.Valid() && AllRetrieved(request.paragraphs, codes) && AnswersOk(answers, codes)
      requires RunStages(start, done, request, answers, codes) == Ok(context.output)
      modifies context`output
      ensures context.Valid()
      ensures RunStages(start, done + (StageOf(hierarchy) + StageOf(neighbours) + StageOf(fields) +
        StageOf(conversation)), request, answers, codes)
           == if r.Pass? then Ok(context.output) else Err(r.error)
    {
      hide *;
      ghost var h, n, f, c := StageOf(hierarchy), StageOf(neighbours), StageOf(fields), StageOf(conversation);
      StageOfShort(hierarchy);
      StageOfShort(neighbours);
      StageOfShort(fields);
      StageOfShort(conversation);
      Regroup(done, h, n, f, c);
      r := Turn(context, StageOf(hierarchy), answers, codes, start, done);
      if r.Fail? {
        Broken(start, done + h, n, answers, codes);
        Broken(start, done + h + n, f, answers, codes);
        Broken(start, done + h + n + f, c, answers, codes);
        return;
      }
      r := Turn(context, StageOf(neighbours), answers, codes, start, done + h);
      if r.Fail? {
        Broken(start, done + h + n, f, answers, codes);
        Broken(start, done + h + n + f, c, answers, codes);
        return;
      }
      r := Turn(context, StageOf(fields), answers, codes, start, done + h + n);
      if r.Fail? {
        Broken(start, done + h + n + f, c, answers, codes);
        return;
      }
      r := Turn(context, StageOf(conversation), answers, codes, start, done + h + n + f);
    }

    // Once a stage has failed, nothing more is done.
    lemma Broken(start: Dict, done: seq<Stage>, rest: seq<Stage>, answers: Answers, codes: Codes)
      requires AllRetrieved(request.paragraphs, codes) && RunStages(start, done, request, answers, codes).Err?
      ensures RunStages(start, done + rest, request, answers, codes) == RunStages(start, done, request, answers, codes)
    {
      hide RunStages, ParagraphIdOk;
      RunConcat(start, done, rest, request, answers, codes);
    }

    // _build_context
    method BuildContext(context: CappedPromptContext, answers: Answers, codes: Codes) returns (r: Outcome<Error>)
      requires context.Valid() && AllRetrieved(request.paragraphs, codes) && AnswersOk(answers, codes)
      modifies context`output
      ensures context.Valid()
      ensures RunStages(old(context.output), Plan(request.strategies, request.resource), request, answers, codes) ==
              if r.Pass? then Ok(context.output) else Err(r.error)
    {
      hide RunStages, Last, Scoped, AnswersOk, ParagraphIdOk, AllRetrieved, StageOf;
      ghost var start := context.output;
      RunNone(start, request, answers, codes);
      if |request.strategies| == 0 {
        r := Turn(context, [Defaults], answers, codes, start, []);
        assert [] + [Defaults] == [Defaults];
        return;
      }
      r := Turn(context, [Paragraphs], answers, codes, start, []);
      var full, hierarchy, neighbours, fields, conversation, metadata := Choose();
      ghost var done: seq<Stage> := [Paragraphs];
      ghost var last := StageOf(metadata);
      assert [] + done == done;
      ghost var middle := if full.Some? then [Whole(Scoped(full.value.full, request.resource))]
        else OtherStages(request.strategies);
      assert Plan(request.strategies, request.resource) == done + middle + last;
      if r.Fail? {
        Broken(start, done, middle, answers, codes);
        Broken(start, done + middle, last, answers, codes);
        return;
      }
      if full.Some? {
        r := Turn(context, [Whole(Scoped(full.value.full, request.resource))], answers, codes, start, done);
      } else {
        r := OtherTurns(context, hierarchy, neighbours, fields, conversation, answers, codes, start, done);
      }
      if r.Fail? {
        Broken(start, done + middle, last, answers, codes);
        return;
      }
      StageOfShort(metadata);
      r := Turn(context, StageOf(metadata), answers, codes, start, done + middle);
    }

    // build: the capped context and the position of each of its blocks.
    method Build(answers: Answers, codes: Codes) returns (r: Outcome<Error>, output: Dict, order: map<string, nat>)
      requires AllRetrieved(request.paragraphs, codes) && AnswersOk(answers, codes)
      ensures r.Fail? <==> Rejected(request, answers, codes)
      ensures r.Fail? ==> r.error == ValueError
      ensures r.Pass? ==> Gathered(request, answers, codes).Ok?
      ensures r.Pass? ==> output == Capped(Gathered(request, answers, codes).value, request.maxCharacters)
      ensures r.Pass? ==>
              var user := UserBlocks(request.userContext);
              if request.maxCharacters.None? || Size(user) <= request.maxCharacters.value then user <= output
              else output == Capped(user, request.maxCharacters)
      ensures PlainRequest(request, answers) && request.maxCharacters.None? ==>
        r.Pass? && output == UserBlocks(request.userContext) + AsRetrieved(request.paragraphs)
      ensures Numbered(order, output)
    {
      hide RunStages, AnswersOk, ParagraphIdOk, Plan, Size, UserBlocks, Rejected, PlainRequest, Trimmed, AsRetrieved;
      if PlainRequest(request, answers) {
        RetrievedBlocks(request, answers, codes);
      }
      var context := new CappedPromptContext(request.maxCharacters);
      PrependUserContext(context);
      UserTextProtected(request, answers, codes);
      GatheredFails(request, answers, codes);
      r := BuildContext(context, answers, codes);
      output, order := [], map[];
      if r.Pass? {
        context.Cap();
        output := context.output;
        order := NumberBlocks(output);
      }
    }
  }

  // context_order
  method NumberBlocks(es: Dict) returns (order: map<string, nat>)
    requires Distinct(es)
    ensures Numbered(order, es)
  {
    order := map[];
    for i := 0 to |es|
      invariant Numbered(order, es[..i])
    {
      order := order[es[i].key := i];
    }
    assert es[..|es|] == es;
  }

  // The survivors are numbered 0, 1, 2, ... in order, and nothing else is numbered.
  ghost predicate Numbered(order: map<string, nat>, es: Dict) {
    && (forall i :: 0 <= i < |es| ==> es[i].key in order && order[es[i].key] == i)
    && (forall key :: key in order ==> order[key] < |es| && es[order[key]].key == key)
  }

  // By position; a block without one comes last.
  function ByOrder(order: map<string, nat>): (Entry, Entry) -> bool {
    (x: Entry, y: Entry) => y.key !in order || (x.key in order && order[x.key] <= order[y.key])
  }

  // sorted_prompt_context_list of ask/search/retrieval.py
  function SortedTexts(es: Dict, order: map<string, nat>): seq<string> {
    Sorting.Map(Sorting.Sort(es, ByOrder(order)), (e: Entry) => e.text)
  }

  // With the positions that build gives, that is the texts in the order of the context.
  lemma SortedInOrder(es: Dict, order: map<string, nat>)
    requires Numbered(order, es)
    ensures |SortedTexts(es, order)| == |es| && forall i :: 0 <= i < |es| ==> SortedTexts(es, order)[i] == es[i].text
  {
    var le := ByOrder(order);
    forall i, j | 0 <= i < j < |es| ensures le(es[i], es[j]) {
      assert order[es[i].key] == i && order[es[j].key] == j;
    }
    Sorting.SortFixed(es, le);
  }
}
