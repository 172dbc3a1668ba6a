# Verified model of the ask service

This project models the algorithms at the heart of a retrieval-augmented ask service and proves
what they promise. The service takes a question, turns the request's old-style filters into a
filter expression, searches a knowledge box by text and through a graph of relations, fuses and
reranks what it finds, assembles a prompt context of bounded size, and keeps its configurations in
a shared database behind per-process caches.

What an outside service answers (search, augmentation, reranking, the graph query) is an arbitrary
value with a stated precondition. Strings are sequences of characters, floats are reals, and a
Python dictionary whose order matters is a list of entries with distinct keys. Where the program
changes an object, so does the model: configuration rows, JSON schema dictionaries, find requests,
the prompt context, the fusion accumulator and decoded JSON documents are fields of classes or
heaps that methods update.

| file | what it models |
|---|---|
| `StrictSchema.dfy`, `SchemaRuns.dfy`, `SchemaEnds.dfy`, `RefGraph.dfy` | the strict JSON-schema normaliser, which inlines `$ref` (JSON Schema 2020-12 Core, section 8.2.3.1) by a simplified form of section 4 of RFC 6901: what its steps keep, what its calls compute, and from which documents it returns |
| `CachedTable.dfy`, `ConfigStore.dfy` | configurations and sources: soft deletion, reference integrity, per-process caches with five-second keys |
| `LegacyFilters.dfy` | the compiler from the old label, keyword, field, resource and date filters to filter expressions, and the scoping of requests |
| `GraphModel.dfy`, `GraphHops.dfy`, `GraphRanking.dfy`, `ParagraphContainment.dfy` | the graph strategy: multi-hop exploration, de-duplicated ranking of relations, removal of contained paragraphs |
| `RankFusion.dfy`, `Reranking.dfy` | weighted fusion, reranking, truncation and the composed result |
| `OrderedDict.dfy`, `PromptContext.dfy`, `PromptEdits.dfy` | the prompt context as an ordered dictionary, its cap, and what edits keep |
| `PromptStrategies.dfy`, `WholeFields.dfy`, `HierarchyContext.dfy`, `ConversationContext.dfy`, `MetadataExtension.dfy`, `PromptBuilder.dfy` | the context strategies, their dispatch and the whole build |
| `Ids.dfy`, `LlmMigration.dfy` | field and paragraph ids; the in-place rewrite of model ids |
| `Basics.dfy`, `Text.dfy`, `Sorting.dfy`, `Occurrences.dfy` | options and results; splitting, decimal numbers and `int()`; the stable sort; positions in a list |

Some results differ from what one might expect of the code:

- An acyclic reference graph is not enough for the normaliser to end. Merging a single `allOf`
  entry can replace the table the references go through: `SchemaEnds.ShadowedAcyclic` and
  `SchemaEnds.ShadowedForever` give an acyclic document from which it does not return at any depth
  of calls. It ends when those tables cannot move (`SchemaRuns.NormaliseEnds`). Without `allOf` it
  is enough that the root holds them (`SchemaRuns.RootHoldsGuard`); with `allOf`, that the single
  entry merged into the root, after its own inlining and merging, has none of their keys (the sets
  `lead` and `tame` of `StrictSchema.Guarded`). For documents without `allOf`
  `SchemaEnds.EndsExactly` decides from the graph as given.
- Building a prompt can fail: a malformed attachment id of a conversation that gets a message
  raises a ValueError that nothing catches (`PromptBuilder.GatheredFails`,
  `PromptBuilder.BadAttachmentFails`).
- The graph exploration can return relations without scores, or with those of the hop before
  (`GraphHops.JourneyScores`, `GraphHops.JoinedUnscored`).
- `hierarchy` gathers the text of a resource in the block of its first paragraph and leaves the
  blocks of its other paragraphs in the context (`HierarchyContext.HierarchyExact`).
- Narrowing a request to some resources lets a pair from another resource through exactly when the
  filter expression has operator OR and a paragraph side that accepts it
  (`LegacyFilters.NarrowingEscape`).
- Two cache keys print alike as soon as an account or a knowledge box may hold a colon
  (`CachedTable.ColonsCollide`), and then one configuration is read for another even in a single
  process (`CachedTable.AmbiguousLeaks`); `CachedTable.ReadsExactly` says when reads are exact.
- A printed field id is read back as a paragraph exactly when its subfield looks like paragraph
  bounds (`Ids.TextBlockOfField`).
- `full_resource` drops a field it added when the id of a later field is a prefix of its id
  (`WholeFields.FullResourceExact`); its whole text then is in the context no more.
- The text of an extended field comes behind the blocks that stay, although a comment in the code
  says at the beginning (`WholeFields.FieldExtensionExact`).
- A second migration is idle exactly when no replacement leads to another replaced id
  (`LlmMigration.SecondRunIdle`).

## Model

| member | source | states |
|---|---|---|
| SchemaEnds.EndsExactly | src/nucliadb_agentic_api/utils.py:45-163 | for documents without `allOf` that load and whose references lead to dictionaries without one, the normaliser returns exactly when no cycle of sub-schemas, own or taken over from a reference and not overridden, can be got to from the root; otherwise no bound on the depth of calls is enough |
| SchemaEnds.LoopsForever | src/nucliadb_agentic_api/utils.py:45-163 | the half that needs no condition on the targets: from a root that gets to such a cycle the normaliser does not return |
| SchemaEnds.VisitSafe | src/nucliadb_agentic_api/utils.py:45-163 | every call either has no end or raises nothing, keeps every promise made of the document and leaves the references of a trap alone; on a node of a trap it has no end |
| SchemaRuns.NormaliseEnds | src/nucliadb_agentic_api/utils.py:45-163 | on a document, with or without `allOf`, whose reference graph is acyclic and whose reference tables cannot move, the normaliser ends, raises nothing if every sub-schema is a dictionary and every reference resolves, and leaves every position it visits free of `$ref`, of null defaults, of open objects and (without `allOf`) requiring exactly its property names; apart from `required` and `properties`, which are rebuilt, every entry was given somewhere under its keyword or is an `additionalProperties` of false; without `allOf` every node still carries what it said, and otherwise says what its reference target says, or that no other properties are allowed |
| SchemaRuns.Normalise | src/nucliadb_agentic_api/utils.py:45-163 | the same of the in-place run, which returns the root |
| SchemaRuns.VisitKept | src/nucliadb_agentic_api/utils.py:45-163 | one call, given depth for the rank of its schema: it ends, finished nodes stay finished, and the schema and all it reaches are finished |
| SchemaRuns.MoreFuel | src/nucliadb_agentic_api/utils.py:45-163 | a call that ends within a bound ends the same way within every larger one |
| SchemaRuns.AcyclicSound | src/nucliadb_agentic_api/utils.py:146-179 | a given document with an acyclic reference graph has the rank the termination argument needs |
| SchemaRuns.RootHoldsGuard | src/nucliadb_agentic_api/utils.py:154-158 | without `allOf`, reference tables cannot move when the root itself holds all of them, whatever keys other nodes have |
| SchemaRuns.RootOnlyGuard | src/nucliadb_agentic_api/utils.py:118-127 | with `allOf`, they cannot move when no node but the root has such a key |
| SchemaRuns.Document.EnsureStrict | src/nucliadb_agentic_api/utils.py:45-163 | the recursive in-place rewrite of one dictionary with the re-run after inlining returns, raises and leaves what the call-by-call function says; anything but a dictionary is a TypeError |
| SchemaRuns.VisitGiven | src/nucliadb_agentic_api/utils.py:45-163 | however a run ends, on whatever document: no entry comes from nowhere but an `additionalProperties` of false |
| SchemaRuns.Document.CloseObject | src/nucliadb_agentic_api/utils.py:73-75 | what d said is left, and all that may be new is that an object allows no additional properties |
| SchemaRuns.Document.MergeAllOf | src/nucliadb_agentic_api/utils.py:118-127 | entry by entry: those of the `allOf` entry win, the others are kept, `allOf` goes |
| SchemaRuns.Document.InlineRef | src/nucliadb_agentic_api/utils.py:146-158 | entry by entry: own entries win, the others are those of the dictionary the reference names, the reference goes; a reference that is no string is an AssertionError |
| SchemaRuns.Document.DropNullDefault | src/nucliadb_agentic_api/utils.py:136-140 | a null default goes and nothing else changes |
| SchemaRuns.Document.StrictProperties | src/nucliadb_agentic_api/utils.py:78-89 | `properties` becomes a new dictionary with the entries of the old one |
| SchemaRuns.ResolveFails | src/nucliadb_agentic_api/utils.py:166-179 | following a path ends in a KeyError exactly when some key is not there, and in an AssertionError exactly when one leads to no dictionary |
| StrictSchema.RefPathExact | src/nucliadb_agentic_api/utils.py:166-172 | a reference reads as the names between its slashes, and as nothing exactly when it does not start with "#/" |
| SchemaRuns.Document.ResolveRef | src/nucliadb_agentic_api/utils.py:166-179 | the loop along the path finds the dictionary, or raises the error of the first key that leads to none |
| SchemaRuns.InlineResolves | src/nucliadb_agentic_api/utils.py:146-158 | inlining succeeds exactly when the reference is a string that resolves, and then the target's entries are taken over without overriding own ones and the reference goes |
| SchemaRuns.InlinedKept | src/nucliadb_agentic_api/utils.py:146-161 | inlining disturbs no finished node and leaves no reference |
| SchemaRuns.MergedKept | src/nucliadb_agentic_api/utils.py:118-127 | merging the single `allOf` entry always finds it to remove, disturbs no finished node and leaves no single `allOf` |
| SchemaRuns.PropertiesKept | src/nucliadb_agentic_api/utils.py:78-89 | after `properties`, `required` lists exactly the property names, every property is finished, and the new table has the entries of the old |
| SchemaRuns.ReachedStrict | src/nucliadb_agentic_api/utils.py:45-163 | nothing that a walk along visited sub-schemas reaches from a finished node is left unnormalised |
| StrictSchema.EvolvesTrans | src/nucliadb_agentic_api/utils.py:45-163 | content preservation composes over the steps of the rewrite when no node has `allOf` |
| SchemaEnds.ShadowedGiven | src/nucliadb_agentic_api/utils.py:118-127 | a document whose single `allOf` entry holds the key that references go through meets every other condition of NormaliseEnds |
| SchemaEnds.ShadowedAcyclic | src/nucliadb_agentic_api/utils.py:118-127 | its reference graph, as given, has no cycle |
| SchemaEnds.ShadowedForever | src/nucliadb_agentic_api/utils.py:118-163 | the normaliser does not return from it at any depth |
| SchemaEnds.DefsRef | src/nucliadb_agentic_api/utils.py:166-172 | an ordinary `#/$defs/A` is such a reference |
| RefGraph.AcyclicHasRank | src/nucliadb_agentic_api/utils.py:146-161 | a finite acyclic graph has a rank that falls along every edge |
| RefGraph.RankHasNoCycle | src/nucliadb_agentic_api/utils.py:146-161 | conversely, a rank rules out every cycle |
| CachedTable.CacheKeyParts | src/nucliadb_agentic_api/db/agentic_configs.py:57-58 | cache keys agree exactly when the printed ids and the five-second buckets agree |
| CachedTable.BucketSpan | src/nucliadb_agentic_api/db/agentic_configs.py:57-58 | a bucket of the clock lasts five seconds |
| CachedTable.ColonFreeUnambiguous | src/nucliadb_agentic_api/db/agentic_configs.py:57-58 | colon-free accounts and knowledge boxes make printed keys distinct, whatever the configuration id |
| CachedTable.BoundedStaleness | src/nucliadb_agentic_api/db/agentic_configs.py:245-265 | with any number of processes, evictions and interleavings of operations, a read returns a value the row held earlier in the same five-second bucket |
| CachedTable.OneProcessExact | src/nucliadb_agentic_api/db/agentic_configs.py:245-265 | with one process every read equals the row, absent rows included |
| CachedTable.ManyProcessesReadStale | src/nucliadb_agentic_api/db/agentic_configs.py:54-58 | with any number of processes from two up a read may return a row another process has deleted |
| CachedTable.AmbiguousLeaks | src/nucliadb_agentic_api/db/agentic_configs.py:57-58 | two keys that print alike let one read the other's row, with any number of processes |
| CachedTable.ReadsExactly | src/nucliadb_agentic_api/db/agentic_configs.py:54-58 | over all runs of n processes on a set of keys every read is the row as it is, exactly when no two of the keys print alike and there is one process or nothing to read |
| CachedTable.ColonsCollide | src/nucliadb_agentic_api/db/agentic_configs.py:57-58 | keys that print alike exist once colons are allowed |
| ConfigStore.ReferenceIntegrity | src/nucliadb_agentic_api/db/agentic_configs.py:106-190 | in every reachable state an active configuration refers only to sources that exist in its account and knowledge box |
| ConfigStore.IntegrityStep | src/nucliadb_agentic_api/v1/sources.py:138-165 | every endpoint step of every process keeps the integrity, and no source is tied to a configuration row |
| ConfigStore.HardDeleteExact | src/nucliadb_agentic_api/db/agentic_configs.py:224-243 | hard deletion removes exactly the rows soft-deleted before the cutoff, no source and no active configuration |
| ConfigStore.HardDeleteCount | src/nucliadb_agentic_api/db/agentic_configs.py:229-243 | the count is the number of rows removed, and stopping early at zero changes nothing |
| ConfigStore.RecentlyActiveSurvives | src/nucliadb_agentic_api/db/agentic_configs.py:132-172 | a configuration active during the last retention period still has its row, whatever ran since |
| ConfigStore.ConfigRefines | src/nucliadb_agentic_api/db/agentic_configs.py:106-265 | each step of the whole system is one step of the cached table of active configurations |
| ConfigStore.SourceRefines | src/nucliadb_agentic_api/db/sources.py:101-205 | the same for the cached table of sources |
| ConfigStore.RunsRefine | src/nucliadb_agentic_api/db/sources.py:101-205 | every run of the system is a run of both tables |
| ConfigStore.ConfigReadBounded | src/nucliadb_agentic_api/db/agentic_configs.py:245-265 | over whole runs of the system a configuration read was the active row's value at some moment of the same bucket |
| ConfigStore.ConfigReadExact | src/nucliadb_agentic_api/db/agentic_configs.py:245-265 | with one process reads of configurations and of sources equal the database at every moment of every run |
| ConfigStore.ConfigOpExact | src/nucliadb_agentic_api/db/agentic_configs.py:106-209 | which creations, patches and deletions of the system take effect, and which are refused |
| ConfigStore.SourceOpExact | src/nucliadb_agentic_api/db/sources.py:101-205 | the same for sources, with the secret a patch leaves |
| ConfigStore.DeleteThenCreate | src/nucliadb_agentic_api/db/agentic_configs.py:132-209 | deleting a configuration and creating it again, by whatever processes, leaves it active with the new contents and changes nothing else; creating it once more is a conflict |
| ConfigStore.SecretSurvives | src/nucliadb_agentic_api/db/sources.py:152-185 | over any run, the client secret of an MCP source stays through all patches that name none |
| ConfigStore.AgenticConfigs.PatchConfig | src/nucliadb_agentic_api/db/agentic_configs.py:106-130 | passes exactly when every source exists and an active row is there, which then has the new contents; otherwise the missing sources or a row not found are reported and nothing changes |
| ConfigStore.AgenticConfigs.CreateConfig | src/nucliadb_agentic_api/db/agentic_configs.py:132-172 | passes exactly when every source exists and the row is not there or soft-deleted, and leaves it active with the new contents; an active row is a conflict, missing sources are named, and then nothing changes |
| ConfigStore.AgenticConfigs.ValidateSourcesExist | src/nucliadb_agentic_api/db/agentic_configs.py:174-190 | refuses with exactly the ids of sources that do not exist |
| ConfigStore.AgenticConfigs.DeleteConfig | src/nucliadb_agentic_api/db/agentic_configs.py:192-209 | an active row keeps its contents and gets the time of its deletion, and leaves this process's cache; any other is not found |
| ConfigStore.AgenticConfigs.GetConfig | src/nucliadb_agentic_api/db/agentic_configs.py:245-265 | the cached value of the present bucket if there is one, else the active row |
| ConfigStore.AgenticConfigs.ConfigsReferencingSource | src/nucliadb_agentic_api/db/agentic_configs.py:211-222 | the loop over the rows lists an id exactly when its row is active, is of this account and knowledge box, and has the source among its sources; each id once |
| ConfigStore.AgenticConfigs.HardDeleteExpired | src/nucliadb_agentic_api/db/agentic_configs.py:224-243 | exactly the rows soft-deleted before the cutoff go, with the sources that were tied to them, and are counted |
| ConfigStore.Sources.CreateSource | src/nucliadb_agentic_api/db/sources.py:101-127 | the new row and cache entry, or a conflict with nothing changed |
| ConfigStore.Sources.GetSource | src/nucliadb_agentic_api/db/sources.py:129-150 | the cached value of the present bucket if there is one, else the row |
| ConfigStore.Sources.PatchSource | src/nucliadb_agentic_api/db/sources.py:152-185 | the new contents, but an MCP source patched without a client secret keeps the one it had as an MCP source; a source that is not there is not found |
| ConfigStore.Sources.DeleteSource | src/nucliadb_agentic_api/db/sources.py:187-205 | the row and this process's cache entry go, or the row is not found |
| ConfigStore.DeleteSourceEndpoint | src/nucliadb_agentic_api/v1/sources.py:138-165 | a source is deleted exactly when it is there and no active configuration of its knowledge box names it, and otherwise nothing changes |
| LegacyFilters.FindRequest.ParseFilters | agents/nucliadb/src/hyperforge_nucliadb_agentic/ask/search/parsers/find.py:196-373 | the compiled expression accepts exactly the (field, paragraph) pairs the request describes, and a request is refused exactly when it mixes both styles or holds an invalid filter; of several reasons the first in the order labels, fields, resources is reported |
| LegacyFilters.FindRequest.CompileOld | agents/nucliadb/src/hyperforge_nucliadb_agentic/ask/search/parsers/find.py:219-360 | the same for the conjunction of the old filters alone |
| LegacyFilters.ConvertLabels | agents/nucliadb/src/hyperforge_nucliadb_agentic/ask/search/parsers/find.py:511-595 | the two sides together hold exactly when all label filters do; refused exactly for an invalid label or a paragraph label outside `all` |
| LegacyFilters.ConvertOne | agents/nucliadb/src/hyperforge_nucliadb_agentic/ask/search/parsers/find.py:518-581 | one label filter keeps its meaning and its refusals |
| LegacyFilters.FilterTranslated | agents/nucliadb/src/hyperforge_nucliadb_agentic/ask/search/parsers/find.py:539-581 | combinator and negation give `all`, `any`, `none` and `not_all` their meaning |
| LegacyFilters.ParagraphLabelsAreLabels | agents/nucliadb/src/hyperforge_nucliadb_agentic/ask/search/parsers/find.py:598-735 | a paragraph label always reads as a label of a paragraph labelset with both parts |
| LegacyFilters.FacetReads | agents/nucliadb/src/hyperforge_nucliadb_agentic/ask/search/parsers/find.py:598-704 | a facet is read as f exactly when it spells f: the written form of f, up to the letter case of kinds and statuses, the slash some prefixes do not insist on, and a slash with nothing behind it; it is refused exactly when it spells nothing |
| LegacyFilters.PrintedReads | agents/nucliadb/src/hyperforge_nucliadb_agentic/ask/search/parsers/find.py:598-704 | reading what was written gives the facet back, exactly for facets whose first part has no slash, whose value is not empty and whose kind or status is one there is |
| LegacyFilters.FacetRefused | agents/nucliadb/src/hyperforge_nucliadb_agentic/ask/search/parsers/find.py:666-704 | a facet is refused exactly outside the fourteen prefixes and for an unknown kind or status |
| LegacyFilters.ParagraphLabelExact | agents/nucliadb/src/hyperforge_nucliadb_agentic/ask/search/parsers/find.py:717-740 | a paragraph label is exactly a facet that spells a label of a paragraph labelset with both parts |
| LegacyFilters.LabelMeans | agents/nucliadb/src/hyperforge_nucliadb_agentic/ask/search/parsers/find.py:521-537 | a label asks for what it spells, of the paragraph for labels of paragraph labelsets and of the field for all others |
| LegacyFilters.FieldKeyExact | agents/nucliadb/src/hyperforge_nucliadb_agentic/ask/search/parsers/find.py:305-318 | a field key is the letter of a type, alone or with a name behind a slash; what is behind a second slash does not count |
| LegacyFilters.ResourceKeyExact | agents/nucliadb/src/hyperforge_nucliadb_agentic/ask/search/parsers/find.py:324-341 | a resource key is an id, alone or with the key of a field behind a slash |
| LegacyFilters.ConvertKeywords | agents/nucliadb/src/hyperforge_nucliadb_agentic/ask/search/parsers/find.py:257-303 | the keyword side holds exactly when every keyword filter does |
| LegacyFilters.ConvertFields | agents/nucliadb/src/hyperforge_nucliadb_agentic/ask/search/parsers/find.py:305-322 | the field side holds exactly when some listed field matches; refused exactly on an unknown type |
| LegacyFilters.ConvertResources | agents/nucliadb/src/hyperforge_nucliadb_agentic/ask/search/parsers/find.py:324-346 | the resource side holds exactly when some listed resource or resource field matches |
| LegacyFilters.FindRequest.AddResourceFilter | agents/nucliadb/src/hyperforge_nucliadb_agentic/ask/search/retrieval.py:196-217 | the narrowed request, and what its expression accepts |
| LegacyFilters.FindRequest.ParseScoped | agents/nucliadb/src/hyperforge_nucliadb_agentic/ask/search/ask.py:998-1007 | what a scoped request compiles to and when it is refused, with and without an expression; every accepted pair is in the given resources or is let through by the paragraph side of an OR expression |
| LegacyFilters.NarrowingExact | agents/nucliadb/src/hyperforge_nucliadb_agentic/ask/search/retrieval.py:196-217 | with operator AND narrowing is the old meaning restricted to the resources |
| LegacyFilters.NarrowingEscape | agents/nucliadb/src/hyperforge_nucliadb_agentic/ask/search/retrieval.py:196-217 | exactly which pairs escape the narrowing |
| LegacyFilters.PlainKeysMean | agents/nucliadb/src/hyperforge_nucliadb_agentic/ask/search/parsers/find.py:324-346 | resource ids without a slash are read back as themselves |
| LegacyFilters.CombineFilters | src/nucliadb_agentic_api/v1/mcp_nucliadb.py:290-308 | the combined filters mean the saved filters and the tool filters together, and are accepted exactly when both are |
| GraphHops.Explore | agents/nucliadb/src/hyperforge_nucliadb_agentic/ask/search/graph_strategy.py:359-492 | the hop loop asks at most `hops` times, about exactly the unexplored other ends of the relations ranking left, in either direction; it stops early only for want of any, or within a hop when the search has never answered, leads nowhere new, or ranking fails; it returns only relations near the query, and says which of them have scores |
| GraphHops.JourneyArrives | agents/nucliadb/src/hyperforge_nucliadb_agentic/ask/search/graph_strategy.py:359-492 | over arbitrary answers, the frontier of hop j is at most j returned edges from a query entity and is disjoint from everything explored before |
| GraphHops.JourneyTells | agents/nucliadb/src/hyperforge_nucliadb_agentic/ask/search/graph_strategy.py:401-480 | over arbitrary answers, hop by hop: what is asked about, what is ranked, and how the exploration ends |
| GraphHops.SearchedNear | agents/nucliadb/src/hyperforge_nucliadb_agentic/ask/search/graph_strategy.py:423-467 | one hop keeps these invariants, also when the query or the merge fails |
| GraphHops.JourneyScores | agents/nucliadb/src/hyperforge_nucliadb_agentic/ask/search/graph_strategy.py:359-492 | the relations an exploration ends with are parallel to their scores, unless it stops for want of a new entity right after merging; then they are exactly when every entity just merged has as many scores from the hop before as relations now, which is never after a single hop |
| GraphHops.JoinedUnscored | agents/nucliadb/src/hyperforge_nucliadb_agentic/ask/search/graph_strategy.py:445-462 | two entities of the query joined by one path: the relation comes back with no scores at all, whatever the ranking |
| GraphHops.HopsDisjoint | agents/nucliadb/src/hyperforge_nucliadb_agentic/ask/search/graph_strategy.py:401-466 | frontiers of distinct hops are disjoint and the explored set only grows |
| GraphHops.MergeRelations | agents/nucliadb/src/hyperforge_nucliadb_agentic/ask/search/graph_strategy.py:1084-1147 | the merged relations of the entry points, or the failure of a path with no resource to point at |
| GraphHops.MergedSound | agents/nucliadb/src/hyperforge_nucliadb_agentic/ask/search/graph_strategy.py:1084-1147 | every merged relation is a returned path read from the entity it is stored under |
| GraphHops.MergedComplete | agents/nucliadb/src/hyperforge_nucliadb_agentic/ask/search/graph_strategy.py:1084-1147 | every returned path that touches an entry point is stored, under its source first |
| GraphHops.MergedListed | agents/nucliadb/src/hyperforge_nucliadb_agentic/ask/search/graph_strategy.py:1084-1147 | each entry point has exactly the paths filed under it, in the order they came, each as seen from there, with its name, its paragraph and the resource named last |
| GraphHops.MergedFails | agents/nucliadb/src/hyperforge_nucliadb_agentic/ask/search/graph_strategy.py:1101-1145 | merging fails exactly on a path to file before which, itself included, no resource is named |
| GraphHops.SeenTriple | agents/nucliadb/src/hyperforge_nucliadb_agentic/ask/search/graph_strategy.py:1109-1145 | from whichever end a path is seen, the relation reads back as the path's own triple |
| GraphRanking.Dedupe | agents/nucliadb/src/hyperforge_nucliadb_agentic/ask/search/graph_strategy.py:571-628 | the distinct triples and the positions of each |
| GraphRanking.GroupsPartition | agents/nucliadb/src/hyperforge_nucliadb_agentic/ask/search/graph_strategy.py:571-628 | every flat relation belongs to exactly one triple's group |
| GraphRanking.IndicesExact | agents/nucliadb/src/hyperforge_nucliadb_agentic/ask/search/graph_strategy.py:571-628 | a group holds exactly the positions of its triple, ascending |
| GraphRanking.ScoresToRankedRels | agents/nucliadb/src/hyperforge_nucliadb_agentic/ask/search/graph_strategy.py:744-784 | the top scores are spread back over all copies of their triples |
| GraphRanking.NLargestExact | agents/nucliadb/src/hyperforge_nucliadb_agentic/ask/search/graph_strategy.py:744-784 | what the top-k cut leaves out is beaten or tied by all k it keeps |
| GraphRanking.EmissionsSound | agents/nucliadb/src/hyperforge_nucliadb_agentic/ask/search/graph_strategy.py:744-784 | only copies of kept triples come out, with their score, above the threshold |
| GraphRanking.EmissionsComplete | agents/nucliadb/src/hyperforge_nucliadb_agentic/ask/search/graph_strategy.py:744-784 | every copy of a kept triple comes out |
| GraphRanking.CopiesTogether | agents/nucliadb/src/hyperforge_nucliadb_agentic/ask/search/graph_strategy.py:744-784 | all copies of a triple are emitted together, with their multiplicity, or not at all |
| GraphRanking.TopDistinct | agents/nucliadb/src/hyperforge_nucliadb_agentic/ask/search/graph_strategy.py:756-758 | the top-k cut keeps positions distinct |
| GraphRanking.CopiesListed | agents/nucliadb/src/hyperforge_nucliadb_agentic/ask/search/graph_strategy.py:744-784 | a relation stands under its entity as often as it was given when its triple is kept, and not at all otherwise |
| GraphRanking.MissingWorse | agents/nucliadb/src/hyperforge_nucliadb_agentic/ask/search/graph_strategy.py:744-784 | a relation whose triple was scored is missing from the dictionary only at or below the threshold or beaten or tied by `top_k` others |
| GraphRanking.RankedExact | agents/nucliadb/src/hyperforge_nucliadb_agentic/ask/search/graph_strategy.py:744-784 | score lists are parallel to relation lists, above the threshold, and hold only relations that went in |
| GraphRanking.LeftOut | agents/nucliadb/src/hyperforge_nucliadb_agentic/ask/search/graph_strategy.py:744-784 | a scored triple is left out only at or below the threshold or beaten or tied by `top_k` others |
| GraphRanking.RankRelations | agents/nucliadb/src/hyperforge_nucliadb_agentic/ask/search/graph_strategy.py:561-628 | the whole ranking on the dictionaries: parallel lists, scores above the threshold, each given relation as often as it was given when its triple is kept and not at all otherwise, and a scored triple missing only at or below the threshold or beaten or tied by `top_k` others |
| ParagraphContainment.GetParagraphInfo | agents/nucliadb/src/hyperforge_nucliadb_agentic/ask/search/graph_strategy.py:865-933 | one kept match per group of the input, in the sense of the next rows |
| ParagraphContainment.EntityMatchesExact | agents/nucliadb/src/hyperforge_nucliadb_agentic/ask/search/graph_strategy.py:878-893 | one match for each relation of an entity that has a score and a paragraph, in order, with that score |
| ParagraphContainment.FieldwiseReduced | agents/nucliadb/src/hyperforge_nucliadb_agentic/ask/search/graph_strategy.py:895-933 | per field kept starts and ends strictly rise, every input lies inside the match it joined, each kept score is its group's largest, and the relations are conserved as a multiset |
| ParagraphContainment.OnePass | agents/nucliadb/src/hyperforge_nucliadb_agentic/ask/search/graph_strategy.py:906-931 | the running-maximum pass computes the folded groups |
| ParagraphContainment.GroupsNested | agents/nucliadb/src/hyperforge_nucliadb_agentic/ask/search/graph_strategy.py:906-931 | on sorted matches of one field the heads rise and contain their groups |
| ParagraphContainment.GroupsConcat | agents/nucliadb/src/hyperforge_nucliadb_agentic/ask/search/graph_strategy.py:906-931 | the groups are the input, cut; nothing is lost or reordered |
| ParagraphContainment.FoldedBag | agents/nucliadb/src/hyperforge_nucliadb_agentic/ask/search/graph_strategy.py:914-925 | merging keeps the container's paragraph and all relations |
| ParagraphContainment.FoldedScore | agents/nucliadb/src/hyperforge_nucliadb_agentic/ask/search/graph_strategy.py:914-925 | the merged score is the largest of the group |
| RankFusion.FuseAll | agents/nucliadb/src/hyperforge_nucliadb_agentic/ask/search/rank_fusion.py:117-157 | the accumulating loops yield one fused item per paragraph, in order of first match |
| RankFusion.FusedExact | agents/nucliadb/src/hyperforge_nucliadb_agentic/ask/search/rank_fusion.py:117-157 | one item per distinct id, scored by the sum over all its matches of weight times score |
| RankFusion.TotalExact | agents/nucliadb/src/hyperforge_nucliadb_agentic/ask/search/rank_fusion.py:117-157 | the accumulated total is the sum of the contributions of the matches, and the history their scores in order |
| RankFusion.FusedFrom | agents/nucliadb/src/hyperforge_nucliadb_agentic/ask/search/rank_fusion.py:136-157 | the fused item is its first match, with the scores of all matches and then their sum |
| RankFusion.TypeExact | agents/nucliadb/src/hyperforge_nucliadb_agentic/ask/search/rank_fusion.py:117-157 | a paragraph keeps the type of its first match, and becomes BOTH exactly when keyword and semantic matches meet |
| RankFusion.Fuse | agents/nucliadb/src/hyperforge_nucliadb_agentic/ask/search/rank_fusion.py:54-70 | the shortcut for a single source with results, and the fused list otherwise, sorted by score |
| Sorting.ByKeySorts | agents/nucliadb/src/hyperforge_nucliadb_agentic/ask/search/rank_fusion.py:69 | sorting by score gives non-increasing scores and a permutation |
| RankFusion.TiesByFirstMatch | agents/nucliadb/src/hyperforge_nucliadb_agentic/ask/search/rank_fusion.py:54-70 | paragraphs with equal totals come in the order of their first match |
| RankFusion.ScaleInvariant | agents/nucliadb/src/hyperforge_nucliadb_agentic/ask/search/rank_fusion.py:117-157 | scaling all weights by a positive constant leaves the order alone |
| RankFusion.ShortcutSameOrder | agents/nucliadb/src/hyperforge_nucliadb_agentic/ask/search/rank_fusion.py:54-70 | with distinct ids and a positive weight the shortcut gives the order of the full path |
| RankFusion.ComputeBestMatches | agents/nucliadb/src/hyperforge_nucliadb_agentic/ask/search/ask.py:1046-1118 | main results and prequeries fused under normalised weights, in the order the given weights would give; a zero total is the only failure |
| RankFusion.SharesAddUp | agents/nucliadb/src/hyperforge_nucliadb_agentic/ask/search/ask.py:1094-1106 | the normalised weights add up to one |
| Reranking.HydrateAndRerank | agents/nucliadb/src/hyperforge_nucliadb_agentic/ask/search/retrieval.py:550-710 | the best blocks are the named blocks rescored and placed in ranking order; it fails exactly on an id that was never sent |
| Reranking.RerankExact | agents/nucliadb/src/hyperforge_nucliadb_agentic/ask/search/rerankers.py:85-158 | without reranking every block stands where it stood; Predict sees the window and gives back, by falling score, exactly the answered ids or, when the call fails, every block of the window with the score it had |
| Reranking.RankingExact | agents/nucliadb/src/hyperforge_nucliadb_agentic/ask/search/retrieval.py:664-692 | the ranking holds exactly the first top_k of the reranked list, by falling score |
| Reranking.BestExact | agents/nucliadb/src/hyperforge_nucliadb_agentic/ask/search/retrieval.py:650-692 | the best blocks have non-increasing scores, `order` equal to position, distinct ids, and number min(top_k, reranked) |
| Reranking.PredictCut | agents/nucliadb/src/hyperforge_nucliadb_agentic/ask/search/rerankers.py:100-158 | after the cut nothing dropped is better than what is kept |
| Reranking.TiesKeepOfferedOrder | agents/nucliadb/src/hyperforge_nucliadb_agentic/ask/search/rerankers.py:85-158 | blocks with equal scores stay in retrieval order when nothing rescored them, and else in the order of the answer |
| Reranking.Rescore | agents/nucliadb/src/hyperforge_nucliadb_agentic/ask/search/retrieval.py:650-692 | the named blocks get the reranker's score, all others stay as they were |
| Reranking.ComposeFindResources | agents/nucliadb/src/hyperforge_nucliadb_agentic/ask/search/retrieval.py:713-740 | every kept block with a hydrated resource appears exactly once, in its resource and field, and nothing else does |
| Reranking.WindowExact | agents/nucliadb/src/hyperforge_nucliadb_agentic/ask/search/parsers/find.py:375-406 | the Predict window by cases: twice top_k, or the user's window but no less than top_k, and never over 200; it is at least top_k exactly when top_k is at most 200, and retrieval is asked for enough to fill it |
| PromptContext.CapExact | agents/nucliadb/src/hyperforge_nucliadb_agentic/ask/search/prompt.py:92-126 | the cap keeps exactly the first `max_size` characters of all texts in insertion order; survivors are a prefix of the blocks and only the last is cut; which blocks survive is stated for each |
| PromptContext.CappedPromptContext.Cap | agents/nucliadb/src/hyperforge_nucliadb_agentic/ask/search/prompt.py:98-126 | the reverse loop over the dictionary computes the trimmed context, for any limit or none |
| PromptContext.CappedPromptContext.SetItem | agents/nucliadb/src/hyperforge_nucliadb_agentic/ask/search/prompt.py:73-74 | set in place, or at the end for a new key |
| PromptContext.CappedPromptContext.DeleteItem | agents/nucliadb/src/hyperforge_nucliadb_agentic/ask/search/prompt.py:82-86 | the entry goes, and a missing key is no error |
| PromptContext.CappedPromptContext.RemoveField | agents/nucliadb/src/hyperforge_nucliadb_agentic/ask/search/prompt.py:282-284 | deleting over a snapshot of the keys removes exactly the blocks whose id starts with the field's |
| OrderedDict.PutThenGet | agents/nucliadb/src/hyperforge_nucliadb_agentic/ask/search/prompt.py:73-80 | a set key reads back and no other key changes |
| PromptEdits.ApplyShape | agents/nucliadb/src/hyperforge_nucliadb_agentic/ask/search/prompt.py:1038-1048 | no list of edits on id keys moves or changes the user's blocks |
| PromptStrategies.DefaultContext | agents/nucliadb/src/hyperforge_nucliadb_agentic/ask/search/prompt.py:129-191 | exactly the retrieved paragraphs and the messages that answer matched conversations are set, every other block keeps its text and no old block moves |
| PromptStrategies.DefaultExact | agents/nucliadb/src/hyperforge_nucliadb_agentic/ask/search/prompt.py:129-191 | that description of the edits, for any answer |
| PromptStrategies.CleanExact | agents/nucliadb/src/hyperforge_nucliadb_agentic/ask/search/prompt.py:1294-1298 | cleaning leaves a text alone exactly when it has no blank at either end and neither highlight mark |
| PromptStrategies.CleanMarked | agents/nucliadb/src/hyperforge_nucliadb_agentic/ask/search/prompt.py:1294-1298 | a highlighted word loses its marks and nothing else |
| PromptStrategies.WithoutFirst | agents/nucliadb/src/hyperforge_nucliadb_agentic/ask/search/prompt.py:1297 | the first occurrence of a mark goes, and what is behind it is treated alike |
| PromptStrategies.ConversationsExact | agents/nucliadb/src/hyperforge_nucliadb_agentic/ask/search/prompt.py:153-160 | the conversations asked about are those of the paragraphs matched by meaning, by the first four parts of their ids |
| PromptStrategies.NeighbouringContext | agents/nucliadb/src/hyperforge_nucliadb_agentic/ask/search/prompt.py:593-668 | the old blocks stay as they are; behind them come, once each, exactly the missing retrieved paragraphs and the neighbours that were not retrieved, each with the non-empty text answered for it |
| PromptStrategies.NeighboursExact | agents/nucliadb/src/hyperforge_nucliadb_agentic/ask/search/prompt.py:628-660 | that description of the edits, for any answer |
| PromptEdits.AddsAppend | agents/nucliadb/src/hyperforge_nucliadb_agentic/ask/search/prompt.py:593-668 | edits that only add append exactly the blocks they name, each with a text one of them gives |
| PromptStrategies.NeighbourEditsOk | agents/nucliadb/src/hyperforge_nucliadb_agentic/ask/search/prompt.py:628-660 | the strategy touches only keys that print back |
| WholeFields.FullResourceExact | agents/nucliadb/src/hyperforge_nucliadb_agentic/ask/search/prompt.py:279-287 | the old blocks under no added field, in old order, then the added fields with their whole text that no later id is a prefix of |
| WholeFields.PrefixFreeSurvives | agents/nucliadb/src/hyperforge_nucliadb_agentic/ask/search/prompt.py:279-287 | every added field survives exactly when no later id is a prefix of an earlier one |
| WholeFields.FullResourcePrefixFree | agents/nucliadb/src/hyperforge_nucliadb_agentic/ask/search/prompt.py:279-287 | with prefix-free ids the old blocks of other fields in old order, then every added field with its whole text |
| WholeFields.SelectResources | agents/nucliadb/src/hyperforge_nucliadb_agentic/ask/search/prompt.py:215-242 | despite the early break, the first `count` of all the resources that qualify, or all of them if there are fewer |
| WholeFields.PicksExact | agents/nucliadb/src/hyperforge_nucliadb_agentic/ask/search/prompt.py:219-234 | a resource qualifies exactly when it has an unexcluded paragraph, and only once |
| WholeFields.PicksGrow | agents/nucliadb/src/hyperforge_nucliadb_agentic/ask/search/prompt.py:219-241 | later paragraphs only add resources behind those already picked |
| WholeFields.Extract | agents/nucliadb/src/hyperforge_nucliadb_agentic/ask/search/prompt.py:264-276 | titles, summaries and field texts in the order of the answer, a later text for the same id replacing an earlier one in place |
| WholeFields.ExtractedExact | agents/nucliadb/src/hyperforge_nucliadb_agentic/ask/search/prompt.py:264-276 | exactly the answered titles, summaries and field texts are extracted, each under its own id |
| WholeFields.RemainingExact | agents/nucliadb/src/hyperforge_nucliadb_agentic/ask/search/prompt.py:296-301 | the retrieved paragraphs of fields that were not added are set, and nothing else changes |
| WholeFields.FullResourceContext | agents/nucliadb/src/hyperforge_nucliadb_agentic/ask/search/prompt.py:194-301 | the whole strategy: what full_resource leaves, and with the remaining blocks asked for, the retrieved paragraphs of other fields set into it |
| WholeFields.FieldExtensionContext | agents/nucliadb/src/hyperforge_nucliadb_agentic/ask/search/prompt.py:486-590 | the old blocks under no extended field in their old order, then the extended fields with their whole text, then once each the retrieved paragraphs that are among neither |
| WholeFields.FieldExtensionExact | agents/nucliadb/src/hyperforge_nucliadb_agentic/ask/search/prompt.py:571-590 | that description of the edits, for any answer |
| HierarchyContext.Hierarchy | agents/nucliadb/src/hyperforge_nucliadb_agentic/ask/search/prompt.py:865-999 | exactly the blocks of each resource's first paragraph are overwritten, with its title, summary and all its paragraphs; every other block, those of its other paragraphs included, keeps its text, and no old block moves |
| HierarchyContext.HierarchyExact | agents/nucliadb/src/hyperforge_nucliadb_agentic/ask/search/prompt.py:949-999 | that description of the edits, for any answer |
| HierarchyContext.OneBlockPerResource | agents/nucliadb/src/hyperforge_nucliadb_agentic/ask/search/prompt.py:949-996 | the copy of a paragraph keeps a text exactly when it is the first of its resource |
| HierarchyContext.AssembledTells | agents/nucliadb/src/hyperforge_nucliadb_agentic/ask/search/prompt.py:895-985 | the block of a resource starts with its title and summary, asked for as the first 500 and 1000 characters of their fields |
| HierarchyContext.BlocksTell | agents/nucliadb/src/hyperforge_nucliadb_agentic/ask/search/prompt.py:960-985 | the paragraphs of the resource follow in order, each asked for with so many characters more |
| HierarchyContext.Group | agents/nucliadb/src/hyperforge_nucliadb_agentic/ask/search/prompt.py:885-925 | the grouping dictionary holds each resource once, with all its paragraphs in order |
| Occurrences.WhereExact | agents/nucliadb/src/hyperforge_nucliadb_agentic/ask/search/prompt.py:885-925 | a resource's group holds exactly its paragraphs, ascending |
| ConversationContext.Conversation | agents/nucliadb/src/hyperforge_nucliadb_agentic/ask/search/prompt.py:703-841 | the old blocks stay; behind them come, once each, exactly the missing retrieved paragraphs, the messages with a text of the matched conversations and the attachments of those that got a message; it raises ValueError exactly when such a conversation has a malformed attachment id |
| ConversationContext.ConversationFails | agents/nucliadb/src/hyperforge_nucliadb_agentic/ask/search/prompt.py:763-800 | exactly when the strategy raises, in terms of the context it starts from |
| ConversationContext.ConversationExact | agents/nucliadb/src/hyperforge_nucliadb_agentic/ask/search/prompt.py:703-841 | exactly which blocks it adds, with which texts |
| ConversationContext.ParentsExact | agents/nucliadb/src/hyperforge_nucliadb_agentic/ask/search/prompt.py:715-735 | the conversations that take part are those of the retrieved paragraphs, each once, by its first paragraph |
| ConversationContext.AllTalkExact | agents/nucliadb/src/hyperforge_nucliadb_agentic/ask/search/prompt.py:763-800 | over all matched conversations in order: when parsing fails, and whose attachments are collected |
| ConversationContext.TalkElsewhere | agents/nucliadb/src/hyperforge_nucliadb_agentic/ask/search/prompt.py:774-787 | the messages of one conversation are none of another's, whatever their idents are |
| ConversationContext.AddTalk | agents/nucliadb/src/hyperforge_nucliadb_agentic/ask/search/prompt.py:769-800 | messages already there are skipped, attachments are collected once per new message, and a malformed one stops the loop at the first new message |
| ConversationContext.ConversationEditsOk | agents/nucliadb/src/hyperforge_nucliadb_agentic/ask/search/prompt.py:703-841 | the strategy touches only keys that print back, whatever the message idents are |
| MetadataExtension.MetadataExact | agents/nucliadb/src/hyperforge_nucliadb_agentic/ask/search/prompt.py:312-461 | on ids that print back no key is missed, and the order becomes the unextended blocks followed by the extended ones, each stably |
| MetadataExtension.MetadataKeys | agents/nucliadb/src/hyperforge_nucliadb_agentic/ask/search/prompt.py:381-461 | no key is lost, doubled or invented |
| MetadataExtension.MetadataHas | agents/nucliadb/src/hyperforge_nucliadb_agentic/ask/search/prompt.py:381-461 | each old text is the front of the new text under its key |
| MetadataExtension.SuffixTells | agents/nucliadb/src/hyperforge_nucliadb_agentic/ask/search/prompt.py:376-461 | what is appended to a block: the origin and extra metadata answered for its resource, the labels answered for its resource and field, the entities answered for its field, each under its heading and only what was answered |
| MetadataExtension.LabelLinesTell | agents/nucliadb/src/hyperforge_nucliadb_agentic/ask/search/prompt.py:413-432 | every label is listed with its labelset |
| MetadataExtension.EntityLinesTell | agents/nucliadb/src/hyperforge_nucliadb_agentic/ask/search/prompt.py:445-461 | every family of entities is listed, with its tokens behind it |
| MetadataExtension.MissingBlock | agents/nucliadb/src/hyperforge_nucliadb_agentic/ask/search/prompt.py:381-410 | a missing block is an error exactly when its resource was answered with origin or extra metadata |
| MetadataExtension.ExtendContext | agents/nucliadb/src/hyperforge_nucliadb_agentic/ask/search/prompt.py:304-461 | the pops and sets of the strategy, and exactly when a missing key raises |
| PromptBuilder.PromptContextBuilder.Build | agents/nucliadb/src/hyperforge_nucliadb_agentic/ask/search/prompt.py:1050-1065 | the whole build: it fails exactly when the conversations' turn meets a malformed attachment id; otherwise user texts that fit come first and unchanged, user texts that do not leave no retrieved block, and the survivors are numbered in order |
| PromptBuilder.UserTextProtected | agents/nucliadb/src/hyperforge_nucliadb_agentic/ask/search/prompt.py:1038-1065 | for every combination of strategies and answers, building fails exactly in that case, and otherwise losing user text means losing every retrieved block |
| PromptBuilder.RetrievedBlocks | agents/nucliadb/src/hyperforge_nucliadb_agentic/ask/search/prompt.py:1156-1168 | with nothing asked of the context, it is the user's texts followed by exactly the texts that were retrieved, when these have no blanks at their ends and no highlights |
| PromptBuilder.GatheredFails | agents/nucliadb/src/hyperforge_nucliadb_agentic/ask/search/prompt.py:1156-1276 | building fails exactly when the plan gives the conversations a turn and, in the context it meets, a conversation that gets a message has a malformed attachment id |
| PromptBuilder.ParsedNeverRejected | agents/nucliadb/src/hyperforge_nucliadb_agentic/ask/search/prompt.py:789-794 | well-formed attachment ids are enough for building never to fail |
| PromptBuilder.BadAttachmentFails | agents/nucliadb/src/hyperforge_nucliadb_agentic/ask/search/prompt.py:789-794 | one retrieved paragraph of a conversation with one other message and one malformed attachment id cannot be built |
| PromptBuilder.BadTalkExample | agents/nucliadb/src/hyperforge_nucliadb_agentic/ask/search/prompt.py:789-794 | there is such an input, with the attachment id "x" |
| PromptBuilder.RunShape | agents/nucliadb/src/hyperforge_nucliadb_agentic/ask/search/prompt.py:1156-1276 | through every sequence of strategies that does not fail the user's blocks stay first, in order and unchanged; a failure is a ValueError, and without the conversations there is none |
| PromptBuilder.UserFirst | agents/nucliadb/src/hyperforge_nucliadb_agentic/ask/search/prompt.py:98-126 | the cap leaves leading blocks alone while they fit and treats them as if alone when they do not |
| PromptBuilder.PlanIgnoresOrder | agents/nucliadb/src/hyperforge_nucliadb_agentic/ask/search/prompt.py:1176-1276 | the order of the strategies in the request does not matter |
| PromptBuilder.PlanExact | agents/nucliadb/src/hyperforge_nucliadb_agentic/ask/search/prompt.py:1156-1276 | exactly the planned stages run, each once and in the fixed order: of each kind the last strategy of the request, nothing but the metadata beside full_resource, which is held to one resource when the request is |
| PromptBuilder.PromptContextBuilder.BuildContext | agents/nucliadb/src/hyperforge_nucliadb_agentic/ask/search/prompt.py:1156-1276 | the dispatch runs exactly the planned strategies, full_resource with nothing but the metadata extension |
| PromptBuilder.PromptContextBuilder.PrependUserContext | agents/nucliadb/src/hyperforge_nucliadb_agentic/ask/search/prompt.py:1038-1042 | the user's texts in order under distinct keys |
| PromptBuilder.SortedInOrder | agents/nucliadb/src/hyperforge_nucliadb_agentic/ask/search/retrieval.py:316-328 | sorting the context by the positions build gives returns the texts in context order |
| Ids.FieldRoundTrip | agents/nucliadb/src/hyperforge_nucliadb_agentic/ask/utils/ids.py:57-120 | parsing undoes printing exactly for field ids of a known type with slash-free parts |
| Ids.FieldPrintsBack | agents/nucliadb/src/hyperforge_nucliadb_agentic/ask/utils/ids.py:57-86 | printing undoes parsing exactly when the type was written as a letter |
| Ids.FieldTypeReads | agents/nucliadb/src/hyperforge_nucliadb_agentic/ask/utils/ids.py:144-157 | a type is read from its letter or from a number that has one, and anything else is refused |
| Ids.Written | agents/nucliadb/src/hyperforge_nucliadb_agentic/ask/utils/ids.py:111-179 | the written forms of field and paragraph ids |
| Ids.ParagraphRoundTrip | agents/nucliadb/src/hyperforge_nucliadb_agentic/ask/utils/ids.py:155-179 | parsing undoes printing exactly for printable fields and natural bounds |
| Ids.TextBlockOfParagraph | agents/nucliadb/src/hyperforge_nucliadb_agentic/ask/search/prompt.py:464-471 | every printable paragraph id is recovered |
| Ids.TextBlockOfField | agents/nucliadb/src/hyperforge_nucliadb_agentic/ask/search/prompt.py:464-471 | a field id is recovered exactly unless its subfield reads as paragraph bounds |
| Ids.FieldAsParagraph | agents/nucliadb/src/hyperforge_nucliadb_agentic/ask/search/prompt.py:464-471 | exactly when a printed field id reads as a paragraph |
| Ids.MessageCanonical | agents/nucliadb/src/hyperforge_nucliadb_agentic/ask/search/prompt.py:774-785 | the id made up for a message reads back as itself or not at all |
| Text.ParseIntDec | agents/nucliadb/src/hyperforge_nucliadb_agentic/ask/utils/ids.py:157-159 | `int` undoes decimal printing |
| Text.ParseIntSigned | agents/nucliadb/src/hyperforge_nucliadb_agentic/ask/utils/ids.py:150 | signs are read |
| Text.NumeralExact | agents/nucliadb/src/hyperforge_nucliadb_agentic/ask/utils/ids.py:150 | a numeral is digits with single underscores between them |
| Text.SplitConcat | agents/nucliadb/src/hyperforge_nucliadb_agentic/ask/utils/ids.py:71-86 | splitting at a separator splits both sides on their own |
| LlmMigration.Document.Walk | src/nucliadb_agentic_api/db/llm_migration_utils.py:13-32 | the in-place walk makes a value say the simultaneous rewrite of what it said, changes nothing outside it, and answers whether anything matched |
| LlmMigration.AnyMatchExact | src/nucliadb_agentic_api/db/llm_migration_utils.py:13-32 | a match is a matching dictionary at some path of the tree |
| LlmMigration.MatchesExact | src/nucliadb_agentic_api/db/llm_migration_utils.py:16-24 | a dictionary matches exactly when its `_type` is "llm_config" and its `model_id` is a string without a slash that is to be replaced, and then that string is |
| LlmMigration.RewriteLocal | src/nucliadb_agentic_api/db/llm_migration_utils.py:13-32 | only the model ids of matching dictionaries change; every other place keeps its keys and content |
| LlmMigration.NoMatchUnchanged | src/nucliadb_agentic_api/db/llm_migration_utils.py:13-32 | without a match nothing changes |
| LlmMigration.SecondRunIdle | src/nucliadb_agentic_api/db/llm_migration_utils.py:13-32 | a second run is idle on every configuration exactly when no replacement value is itself replaced |
| LlmMigration.Table.Migrate | src/nucliadb_agentic_api/db/llm_migration_utils.py:35-64 | every row says the rewrite of what it said, rows without a match are untouched, and the count is the number of rows with a match |
| LlmMigration.MigrateLlmModels | src/nucliadb_agentic_api/db/llm_migration_utils.py:35-64 | the same for both tables, with their counts added |
| LlmMigration.SecondMigrationIdle | src/nucliadb_agentic_api/db/llm_migration_utils.py:35-64 | with settled replacements a second migration finds no row |

## Left out

- SchemaRuns.NormaliseEnds: content preservation is stated only for documents without `allOf`, since merging an `allOf` entry lets its entries win over the dictionary's own.
- SchemaEnds.EndsExactly: it is for documents without `allOf`, because a merged entry overrides own keywords and the graph as given no longer says what is visited, and for references to dictionaries without a reference. With a chain of references what is taken over depends on which of them the run has inlined before: the reference of a target not yet visited is dropped, that of a finished one has been replaced. `LoopsForever` (the target's own sub-schemas are taken over in any case) and `NormaliseEnds` (the target itself counts as an edge) then bound the answer from both sides.
- Schema documents in which a reference goes through `properties` or another keyword the normaliser rewrites, or through a dictionary that is itself a schema, or in which a table of properties or definitions is one.
- SchemaRuns.PropertiesKept: a dictionary lists its keys in an order that is some function of it, Python's insertion order being one; `required` takes that order.
- LegacyFilters.ConvertLabels: the request model's validation that at most one of the four lists is non-empty is a precondition.
- GraphHops.Explore: the graph query answers paths between entities and the ranking only drops relations and scores those it keeps (as `GraphRanking.RankRelations` does), as preconditions on those services.
- Reranking.HydrateAndRerank: the given blocks have distinct ids and the reranker answers each id at most once, as preconditions.
- PromptBuilder.PromptContextBuilder.Build: retrieved paragraph ids and the ids of fields and neighbours in answers are printed forms of ids, and a paragraph never names a neighbour that is missing, as preconditions on retrieval and augmentation; attachment ids are any strings.
- Text.ParseInt: ASCII digits, signs, underscores and blanks only; Python's other Unicode digits and its limit on very long numerals are not modelled, nor are non-ASCII blanks in `str.strip`.
- Ids: the numbers of the protobuf field types come from outside the repository and are a parameter.
- LlmMigration: decoding rows and the SQL text of the query are not modelled; the query's test is any test that every row with a match passes. The migration does not touch the caches of `ConfigStore`.
- `to_strict_json_schema` with excluded definitions, and the `cleanup_*` helpers beside it.
- Copying an ask request into a find request (`retrieval.py:220-257`), which does not copy keyword filters: the filter theorem is about find requests.
- `rank_relations_generative`, the paragraph ids made up by `build_text_blocks_from_relations`, and highlighting.
- Images in the prompt context, metrics and the record of augmented blocks; the sorting of entity tokens and the YAML text of origin and extra metadata, which are taken as given.
- `agent.py` filter building, which rests on functions outside the repository.
- Interleavings inside one database operation: an endpoint call is one atomic step. Removal of least-recently-used entries is any eviction at any time.
- Encryption of client secrets, HTTP and MCP handlers, settings, telemetry, prompts and streaming.
- Rounding of floats: scores and weights are reals.
