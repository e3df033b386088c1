# annatto core: annotation to graph-update events

annatto converts linguistic corpora between formats. It does this by turning every
input into an append-only log of graph-update events. There are four kinds of event:
add or delete a node, a node label, an edge and an edge label. Importers read a corpus
format and emit that log. Manipulators read a graph and emit a log that rewrites it.
Exporters read a graph and write a format.

This project models the sequential core that decides which events are emitted, and in
what order. The graph store is a sequence of events (`Events.Event`). An update list
the source appends to is the class `Events.Update`, whose `events` field each emitting
method extends. Every importer is modelled from the data its parser extracts, never
from the file itself:

- **Emitter helpers** of the Python importers (`GraphUpdateUtil`): token, span,
  structure, ordering, coverage, dominance and pointing events.
- **Timeline and interval mapping**:
  - TextGrid (`TextgridImporter`);
  - the Python and the Rust spreadsheet importers (`SpreadsheetImporter`, `Xlsx`);
  - the Python and the Rust EXMARaLDA importers (`ExmaraldaImporter`, `Exmaralda`).
  
  Each builds a timeline of empty tokens from tier boundaries or rows, maps intervals
  onto it and shares one span between equal intervals.
- **Bracket trees**:
  - the Python stack machine (`PtbImporter`);
  - the Rust recursive walk (`Ptb`), with its guarantees proved in `PtbProperties`.
- **Dependencies**:
  - the Python CoNLL importer (`ConllImporter`);
  - the Rust CoNLL-U importer (`ConlluImporter`);
  - the relative-head computation and line assembly of the CoNLL-U exporter (`ConlluExport`).
- **relANNIS** (`RelAnnis`, `Bytes`):
  - key codecs over UTF-8 bytes and big-endian integers;
  - field unescaping;
  - corpus paths;
  - renaming of duplicated documents;
  - the derived token order.
- **Manipulators**:
  - collapse (`Collapse`): hyperedge disjoint-merge, hypernode naming, annotation transfer;
  - merge (`Merge`): error policy, value cleaning, the text-node alignment loop;
  - split (`SplitValues`);
  - check (`Check`): the expansion of layer tests and the pass criteria.
- **Utilities**:
  - match ordering (`SortMatches`);
  - documentation unescaping (`Documentation`);
  - the compact edit instructions that expand into update events (`UpdateEvent`).
- **Shared building blocks**: `Wrappers`, `Strings`, `Sorting` (stable sort) and
  `Dicts` (Python's insertion-ordered dictionaries).

Where the source changes state step by step, the model does too:

- loops become methods with invariants;
- objects with mutable fields become classes: the Python EXMARaLDA importer, merge's
  `TextNodeMapper` and the PTB `DocumentMapper`.

Each such method is proved equal to a specification function of its inputs. The
properties the source promises are then proved about those functions as lemmas.

Where the Python code cannot run as written (see "## Left out"), or where the code
evidently does not do what was meant (see "## Findings"), the model keeps both readings.
The rest of the model uses the intended one.

## Model

| member | source | states |
|---|---|---|
| `GraphUpdateUtil.IdsInjective` | py/graphupdate_util.py:69 | token, span and structure ids (`doc#t<n>`, `doc#sSpan<n>`, `doc#sStruct<n>`) of one document determine their number |
| `GraphUpdateUtil.IdKindsDistinct` | py/graphupdate_util.py:95 | a token id, a span id and a structure id of one document are never equal |
| `GraphUpdateUtil.TokenEventsContents` | py/graphupdate_util.py:68-80 | the token events are, in order: the node, its `annis::tok` value, the tokenization label only for a non-blank name, whitespace-after " ", the part-of edge to the document, and the time label only when both times are given and ordered |
| `GraphUpdateUtil.MapToken` | py/graphupdate_util.py:68-80 | appends exactly the token events; fails exactly when both times are given and start >= end, with the source's message; otherwise returns `doc#t<id>` |
| `GraphUpdateUtil.EdgeEventsCount` | py/graphupdate_util.py:129-132 | `edges` emits one edge per source and target pair: \|sources\| * \|targets\| events |
| `GraphUpdateUtil.EdgeEventsComplete` | py/graphupdate_util.py:129-132 | every source-target pair has its edge among the emitted events |
| `GraphUpdateUtil.EdgeEventsSound` | py/graphupdate_util.py:129-132 | every emitted edge belongs to some source-target pair |
| `GraphUpdateUtil.EdgeEventsPairs` | py/graphupdate_util.py:129-132 | the three facts together: count, completeness and soundness of `edges` |
| `GraphUpdateUtil.AddEdges` | py/graphupdate_util.py:129-132 | the nested loop appends exactly the edge events, source by source |
| `GraphUpdateUtil.AddEdgeRow` | py/graphupdate_util.py:131-132 | the inner loop appends one edge from the source to each target, in order |
| `GraphUpdateUtil.EdgeRowAt` | py/graphupdate_util.py:131-132 | the j-th edge of a row goes to the j-th target |
| `GraphUpdateUtil.EdgeRowTargets` | py/graphupdate_util.py:131-132 | a row holds an edge to t exactly when t is one of the targets |
| `GraphUpdateUtil.LabelledNodeEventsContents` | py/graphupdate_util.py:94-111 | a span or structure is its node, then its label only for a non-empty name, then one edge per target in order |
| `GraphUpdateUtil.LabelledNodeTargets` | py/graphupdate_util.py:99-100 | the labelled node has an edge of its component to t exactly when t is a target |
| `GraphUpdateUtil.AddLabelledNode` | py/graphupdate_util.py:94-111 | appends exactly the labelled-node events |
| `GraphUpdateUtil.AddEdgePerTarget` | py/graphupdate_util.py:99-100 | the loop over targets appends one edge of the component per target |
| `GraphUpdateUtil.MapAnnotation` | py/graphupdate_util.py:94-101 | returns `doc#sSpan<id>` and appends the span node, its label and one coverage edge per target |
| `GraphUpdateUtil.MapHierarchicalAnnotation` | py/graphupdate_util.py:104-111 | returns `doc#sStruct<id>` and appends the structure node, its label and one dominance edge per target in the given layer |
| `GraphUpdateUtil.CoveredEmptyTokens` | py/graphupdate_util.py:88 | the covered empty tokens are at most as many as the empty tokens |
| `GraphUpdateUtil.CoveredEmptyTokensIff` | py/graphupdate_util.py:88 | an id is covered exactly when one of its empty tokens has a time t with start <= t < end |
| `GraphUpdateUtil.MapTokenAsSpan` | py/graphupdate_util.py:83-91 | fails, appending nothing, exactly when start >= end; otherwise returns `doc#sSpan<id>` and appends the span over the covered empty tokens plus its `annis::tok` label |
| `GraphUpdateUtil.AddOrderRelations` | py/graphupdate_util.py:118-120 | appends the Ordering chain: one edge from node i-1 to node i, in list order, named with the order name or unnamed |
| `GraphUpdateUtil.PointingEventsContents` | py/graphupdate_util.py:123-126 | a pointing edge always comes first; its label follows exactly when both annotation name and value are given, with the namespace "" when none is given |
| `GraphUpdateUtil.AddPointingRelation` | py/graphupdate_util.py:123-126 | appends exactly the pointing events |
| `GraphUpdateUtil.TrimEndChar` | py/graphupdate_util.py:55 | the result is a prefix of the text that does not end in c, and what it drops is all c |
| `GraphUpdateUtil.DirName` | py/graphupdate_util.py:55 | the parent path is the prefix before the last separator: empty exactly when the path has no '/'; the part cut off is a run of separators and then the last segment; a trailing '/' is kept only on an all-'/' root |
| `GraphUpdateUtil.DirNameChild` | py/graphupdate_util.py:55 | the parent of `a/b`, for a one-segment b and an a without trailing slash, is a |
| `GraphUpdateUtil.SubnodeAsWrittenRenames` | py/graphupdate_util.py:54-57 | as written, a path containing ':' becomes a corpus node of another name, so the corpus node of the path itself is never added |
| `GraphUpdateUtil.AddSubnode` | py/graphupdate_util.py:54-57 | appends the corpus node of the path and its part-of edge to the parent directory's node |
| `TextgridImporter.ResolveShort` | py/TextgridImporter.py:93-99 | a float result comes from a float literal containing '.', an integer result is the parse of a value without '.', and the value fails exactly when it is unquoted and not a float literal or not a numeral, according to whether it holds a '.' |
| `TextgridImporter.ResolveLong` | py/TextgridImporter.py:102-104 | a value without " = " fails with the index error; otherwise the result is the short-format resolution of what follows the first " = " |
| `TextgridImporter.ResolveShortKinds` | py/TextgridImporter.py:93-99 | a quoted value resolves to its text without the quotes, a decimal numeral to its integer (negative too), and an unquoted value containing '.' to a float exactly when it is a float literal |
| `TextgridImporter.ResolveShortFloats` | py/TextgridImporter.py:96-97 | two decimal numerals joined by '.' resolve to a float |
| `TextgridImporter.ResolveShortLetters` | py/TextgridImporter.py:96-97 | `a.b` is no float literal: `float()` raises |
| `TextgridImporter.ResolveShortTwoDots` | py/TextgridImporter.py:96-97 | `1.2.3` is no float literal: `float()` raises |
| `TextgridImporter.ResolveLongKeyValue` | py/TextgridImporter.py:102-104 | in the long format `key = value` resolves exactly as `value` does in the short format |
| `TextgridImporter.ResolveLongNoSeparator` | py/TextgridImporter.py:103 | a line without " = " fails (the index 1 of the split is out of range) |
| `TextgridImporter.IntervalBoundsMembers` | py/TextgridImporter.py:41 | a time is a boundary of a tier exactly when it is the start or the end of one of its intervals |
| `TextgridImporter.TimelineProperties` | py/TextgridImporter.py:41 | the timeline is strictly increasing (sorted and deduplicated) and holds exactly the starts and ends of all configured tiers |
| `TextgridImporter.TierNamesComplete` | py/TextgridImporter.py:36 | every token tier and every dependent tier of the configuration contributes its boundaries to the timeline |
| `TextgridImporter.TierNamesAsWrittenFails` | py/TextgridImporter.py:36 | as written, the set comprehension over lists fails for every non-empty tier configuration |
| `TextgridImporter.Windows` | py/TextgridImporter.py:42-43 | the empty tokens are the pairs of consecutive timeline points: one fewer than the points, the i-th from point i to point i + 1 |
| `TextgridImporter.UnpackWindowsAsWrittenFails` | py/TextgridImporter.py:42-43 | as written, the loop runs to the last index, whose slice holds one value, so unpacking fails on every non-empty timeline |
| `TextgridImporter.WindowsTile` | py/TextgridImporter.py:42-44 | on a strictly increasing timeline every empty token has start < end and each ends where the next begins |
| `TextgridImporter.FirstTierTokenIdAsWrittenCollides` | py/TextgridImporter.py:46-50 | as written, the first tier token is numbered `len(tok_dict)` and so gets the id of the last empty token |
| `TextgridImporter.TierTokenIdsFresh` | py/TextgridImporter.py:44-50 | with numbering after the empty tokens, no tier token id equals an empty token id |
| `TextgridImporter.EmptyEntriesAt` | py/TextgridImporter.py:44 | the i-th empty token is keyed by its window and has id `doc#t<i+1>` |
| `TextgridImporter.TimelineChainInOrder` | py/TextgridImporter.py:45 | sorting the empty tokens by start keeps them in timeline order, so the unnamed ordering chain is `doc#t1, doc#t2, …` |
| `TextgridImporter.MapEmptyTokens` | py/TextgridImporter.py:42-44 | the loop appends the token events of every window in turn, numbered from 1, and returns the dictionary from windows to ids |
| `TextgridImporter.MapTimeline` | py/TextgridImporter.py:41-45 | appends the empty tokens of the timeline followed by their unnamed ordering chain sorted by start |
| `TextgridImporter.CoveredEmptyIff` | py/TextgridImporter.py:53 | a tier token covers an empty token exactly when the empty token's interval lies inside [start, end] |
| `TextgridImporter.OrderedUpToIff` | py/graphupdate_util.py:77-78 | the recursive prefix check agrees with "every one of the first k intervals has start < end" |
| `TextgridImporter.NotOrderedBeyond` | py/graphupdate_util.py:77-78 | one interval with start >= end makes every longer prefix fail |
| `TextgridImporter.TierTokenEntriesDistinct` | py/TextgridImporter.py:50 | the tier's token dictionary never holds one key twice |
| `TextgridImporter.TierTokenEntriesKeys` | py/TextgridImporter.py:50 | the dictionary keys are exactly the (start, end) of the tier's intervals |
| `TextgridImporter.TierTokenEntriesLast` | py/TextgridImporter.py:50 | the latest interval's key maps to the latest token id |
| `TextgridImporter.TierTokenEntriesOther` | py/TextgridImporter.py:50 | entering one key leaves every other key's id unchanged |
| `TextgridImporter.AddTierToken` | py/TextgridImporter.py:50-54 | fails exactly when start >= end; otherwise returns `doc#t<id>` and appends the token and, in multi-token mode, its coverage of the empty tokens inside it |
| `TextgridImporter.AddTierTokenEntry` | py/TextgridImporter.py:49-54 | one loop step: fails exactly on a badly ordered interval, otherwise extends both the log and the dictionary by that interval |
| `TextgridImporter.MapTierTokens` | py/TextgridImporter.py:49-54 | succeeds exactly when every interval of the tier has start < end, and then appends the tier's tokens in order with consecutive numbers |
| `TextgridImporter.SpanStepKeeps` | py/TextgridImporter.py:59-65 | one dependent value never removes events and never changes the span of an interval that already has one |
| `TextgridImporter.SpanStepKeys` | py/TextgridImporter.py:60-63 | after one value the span dictionary holds the old intervals plus this value's interval |
| `TextgridImporter.SpanStepCount` | py/TextgridImporter.py:60-63 | the span counter grows exactly when a new interval is entered, and no interval is entered twice |
| `TextgridImporter.SpanStepLabel` | py/TextgridImporter.py:63-65 | after one value its interval has a span that carries the value as label `tier::name` |
| `TextgridImporter.SpanTierKeeps` | py/TextgridImporter.py:59-65 | over a whole dependent tier, events only grow and existing spans are kept |
| `TextgridImporter.SpanTierCount` | py/TextgridImporter.py:59-63 | over a tier, the span keys are the distinct intervals in first-appearance order and the counter advances once per new interval |
| `TextgridImporter.SpanTierKeys` | py/TextgridImporter.py:60-63 | an interval has a span after the tier exactly when it had one before or is the interval of one of its values |
| `TextgridImporter.SpanTierLabels` | py/TextgridImporter.py:63-65 | every value of the tier labels the span of its interval |
| `TextgridImporter.SpanTiersKeep` | py/TextgridImporter.py:58-65 | later dependent tiers keep the events and spans of earlier ones |
| `TextgridImporter.SpanTiersCount` | py/TextgridImporter.py:57-63 | over all dependent tiers, one span per distinct interval: the counter advances by the number of distinct intervals |
| `TextgridImporter.SpanTiersKeys` | py/TextgridImporter.py:57-63 | an interval has a span exactly when some dependent tier has a value on it |
| `TextgridImporter.SpanTiersLabels` | py/TextgridImporter.py:59-65 | every value of every named dependent tier is a label on the one span of its interval, so values with the same (start, end) share a span |
| `TextgridImporter.AddSpanValue` | py/TextgridImporter.py:60-65 | one value either creates span `doc#sSpan<spc+1>` covering the tier tokens inside it, or labels the existing span of its interval |
| `TextgridImporter.MapTierSpans` | py/TextgridImporter.py:59-65 | the loop over one dependent tier appends the events of the value fold and returns its dictionary and counter |
| `TextgridImporter.MapSpans` | py/TextgridImporter.py:57-65 | appends the span events of all dependent tiers and advances the span counter by the number of distinct intervals |
| `TextgridImporter.TierIdsAsWrittenFails` | py/TextgridImporter.py:55 | as written, unpacking a dictionary key into three names fails as soon as a window key is present |
| `TextgridImporter.MultiTokOrderingAsWrittenFails` | py/TextgridImporter.py:44-55 | in multi-token mode the dictionary always holds window keys, so the ordering comprehension always fails as written |
| `TextgridImporter.FilterTierMembers` | py/TextgridImporter.py:55 | the filtered entries are exactly the dictionary entries of the given tier |
| `TextgridImporter.SortByFilterTier` | py/TextgridImporter.py:55 | sorting by start and then keeping one tier gives the same as keeping the tier and then sorting |
| `TextgridImporter.TierIdsOfTier` | py/TextgridImporter.py:55-56 | the ordering chain of a tier lists exactly its own tokens sorted by start, whatever other tiers' entries the dictionary holds |
| `TextgridImporter.NextTokenGrows` | py/TextgridImporter.py:50-51 | token numbers run on across tiers: a later tier starts after every number of an earlier one |
| `TextgridImporter.TierTokenIdsDistinct` | py/TextgridImporter.py:50-51 | tokens of two different token tiers never share an id |
| `TextgridImporter.MapTier` | py/TextgridImporter.py:49-65 | one token tier: fails exactly on a badly ordered interval; otherwise appends its tokens, its ordering chain named after the tier, and its spans, and advances the span counter |
| `TextgridImporter.MapTierAt` | py/TextgridImporter.py:48-65 | one turn of the tier loop, with token and span counters equal to the numbers after the earlier tiers |
| `TextgridImporter.MapTokenTiers` | py/TextgridImporter.py:48-65 | succeeds exactly when every token tier is well ordered, and then appends every tier's events in configuration order |
| `TextgridImporter.MapDocument` | py/TextgridImporter.py:29-65 | multi-token mode iff more than one tier group or forced; succeeds exactly when every token tier is well ordered; then appends the timeline (multi-token only) followed by every tier's events |
| `PtbImporter.CleanTextSplitJoin` | py/PTBImporter.py:25-28 | `clean_text` replaces every `-LRB-` by `(` and then every `-RRB-` by `)`: a split at each escape joined by its bracket |
| `PtbImporter.CleanTextNoHyphen` | py/PTBImporter.py:25-28 | a text without `-` is left unchanged |
| `PtbImporter.Squeeze` | py/PTBImporter.py:39 | after `re.sub(r'\s+', ' ', ...)` the only whitespace is single spaces, no two are adjacent, the text is empty exactly when the input is, and its first character is the input's (or a space) |
| `PtbImporter.SqueezeVisible` | py/PTBImporter.py:39 | collapsing whitespace keeps the non-whitespace characters and their order |
| `PtbImporter.CoveringPut` | py/PTBImporter.py:41-58 | storing a list under a key of the `defaultdict` changes that key's list only |
| `PtbImporter.CoveringTouch` | py/PTBImporter.py:41-66 | reading an absent key of the `defaultdict` inserts it with an empty list and changes no key's list |
| `PtbImporter.TouchKeys` | py/PTBImporter.py:41-66 | reading a key keeps the keys distinct and adds at most that key |
| `PtbImporter.AbsorbCovering` | py/PTBImporter.py:65-66 | after the extension loop the new structure covers exactly its children's tokens, one child after the other; every other key is unchanged |
| `PtbImporter.AbsorbKeys` | py/PTBImporter.py:65-66 | the extension loop keeps the keys distinct and adds only the structure and its children |
| `PtbImporter.AbsorbWithin` | py/PTBImporter.py:65-66 | if every covered token is one of the document's tokens before the loop, that holds after it too |
| `PtbImporter.StructIdFresh` | py/PTBImporter.py:50-61 | the next structure number gives an id that no earlier structure has |
| `PtbImporter.StructIdsBelow` | py/PTBImporter.py:50-61 | every structure id used so far is `doc#sStruct<i>` for some i from 1 to the counter |
| `PtbImporter.StartWellFormed` | py/PTBImporter.py:34-41 | the initial empty stacks, children, tokens and dictionary satisfy the machine's invariant |
| `PtbImporter.NextStructFresh` | py/PTBImporter.py:50-61 | under the invariant the next structure is neither a pending child nor already covering tokens |
| `PtbImporter.CloseLeafWellFormed` | py/PTBImporter.py:49-59 | closing a leaf bracket keeps the invariant |
| `PtbImporter.ClosePhraseWellFormed` | py/PTBImporter.py:60-68 | closing a phrase bracket keeps the invariant |
| `PtbImporter.StepWellFormed` | py/PTBImporter.py:42-74 | every character the loop accepts keeps the invariant |
| `PtbImporter.RunWellFormed` | py/PTBImporter.py:42-74 | the invariant holds after any prefix of the document that reads without error |
| `PtbImporter.StepErrors` | py/PTBImporter.py:49-72 | a character raises exactly when: `)` after an atom with no open bracket or with the frame not holding one category (unpacking at line 53), `)` of a phrase whose frame holds more than one atom (line 62), or a space after an atom with no open bracket |
| `PtbImporter.OpenBracket` | py/PTBImporter.py:43-46 | `(` never fails, pushes a frame exactly when the stack is empty or its top is non-empty, and emits nothing |
| `PtbImporter.CloseLeafToken` | py/PTBImporter.py:49-59 | `)` after an atom adds the next token `doc#t<n+1>` and the fresh structure as a child, pops one frame, and makes the structure cover just that token |
| `PtbImporter.ClosePhraseCovers` | py/PTBImporter.py:60-68 | `)` of a phrase replaces the children since its `(` by the fresh structure, pops one frame, adds no token, and makes the structure cover the union of its children's tokens |
| `PtbImporter.ReadAtom` | py/PTBImporter.py:69-74 | a space ends the pending atom and adds it to the top frame; any other character extends the atom; neither emits events |
| `PtbImporter.LeafEventsSplit` | py/PTBImporter.py:55-57 | a leaf emits the token events with the cleaned text, then the structure, its category label when a name is set, and one dominance edge to the token |
| `PtbImporter.LeafEventsContents` | py/PTBImporter.py:55-57 | the leaf's events start with the token node and its text; the category label and the structure-to-token dominance edge are present, and that edge is the only dominance edge |
| `PtbImporter.TokenEventsNoDominance` | py/graphupdate_util.py:68-80 | token events never contain a dominance edge |
| `PtbImporter.PhraseEventsContents` | py/PTBImporter.py:64 | a phrase emits its structure, the category label when a name is set, and one dominance edge to each child since its `(`, in order |
| `PtbImporter.LeafAsWrittenDominatesNameless` | py/PTBImporter.py:57 | as written, without a layer, a leaf structure dominates a node named `''`; the corrected leaf events do not |
| `PtbImporter.PhraseAsWrittenDominatesNameless` | py/PTBImporter.py:64 | as written, without a layer, a phrase structure dominates a node named `''`; the corrected phrase events do not |
| `PtbImporter.RunErrSticks` | py/PTBImporter.py:42-74 | once a character raises, reading stops: the machine stays failed and no further events are emitted |
| `PtbImporter.RunNext` | py/PTBImporter.py:42 | reading one more character is one machine step, and its events are appended after the earlier ones |
| `PtbImporter.Consume` | py/PTBImporter.py:43-74 | the loop body for one character computes exactly the machine step and appends exactly the events of that step |
| `PtbImporter.ConsumeLeaf` | py/PTBImporter.py:49-59 | the leaf branch returns the step's machine and appends the leaf's token and structure events |
| `PtbImporter.ConsumeClosing` | py/PTBImporter.py:60-68 | the phrase branch returns the step's machine and appends the phrase's structure events |
| `PtbImporter.AddCoverage` | py/PTBImporter.py:75-76 | appends, in dictionary order, a coverage edge from each structure to each of its tokens |
| `PtbImporter.Finish` | py/PTBImporter.py:75-79 | after the loop appends coverage, the unnamed token order, and a second order named by the layer when one is given |
| `PtbImporter.MapDocument` | py/PTBImporter.py:31-79 | succeeds exactly when the whitespace-normalised text reads without error; on failure the log holds the events up to the failing character, on success all events of the loop followed by coverage and ordering |
| `PtbImporter.TokenIdsAt` | py/PTBImporter.py:55 | the first n token ids are `doc#t1 … doc#tn` |
| `PtbImporter.DocumentTokens` | py/PTBImporter.py:55-56 | the tokens of a document are numbered consecutively from 1 in reading order |
| `PtbImporter.TokenOrder` | py/PTBImporter.py:77-79 | the ordering chain over n tokens has n − 1 edges, edge i from token i + 1 to token i + 2 |
| `PtbImporter.CoverageEventsSound` | py/PTBImporter.py:75-76 | every coverage event goes from a dictionary key to one of the document's tokens |
| `PtbImporter.DocumentCoverage` | py/PTBImporter.py:58-76 | in a finished document every coverage edge goes from a structure to one of its tokens |
| `Ptb.SplitAnnotationValue` | src/importer/ptb.rs:118-128 | without a delimiter the label is kept whole; with one, the label splits at the first occurrence into node label and edge label that rejoin to the label, and a label without the delimiter is kept whole |
| `Ptb.ConsumeValue` | src/importer/ptb.rs:256-273 | succeeds exactly on a label or a quoted value of at least two characters; a label has `-LRB-`/`-RRB-` replaced by brackets, a quoted value loses exactly its first and last character |
| `Ptb.ConsumeQuoted` | src/importer/ptb.rs:262-265 | a value in double quotes consumes to the text between them |
| `Ptb.ConsumeLabel` | src/importer/ptb.rs:275-285 | succeeds exactly on a label, returning its text unchanged |
| `Ptb.ChildrenWalkErrSticks` | src/importer/ptb.rs:184-186 | the `?` on a child ends the loop: after an error nothing more is walked or emitted |
| `Ptb.ChildrenWalkNext` | src/importer/ptb.rs:184-186 | one more child is one more phrase walk below the node, its counters and events following the earlier ones |
| `Ptb.PhraseWalkNode` | src/importer/ptb.rs:147-187 | a phrase that is not a token becomes node `doc#n<spans+1>` with its head events, then its children are walked with the span number advanced; the result is the node name unless a child fails |
| `Ptb.PhraseWalkToken` | src/importer/ptb.rs:140-146 | a phrase whose only child after the label is a value or a label is walked as a token |
| `Ptb.RootsWalkNext` | src/importer/ptb.rs:54-58 | one more root pair: a phrase is walked without a parent, any other pair is passed over |
| `Ptb.RootsWalkErrSticks` | src/importer/ptb.rs:56 | after a failing root nothing more is walked or emitted |
| `Ptb.AnnotateEdge` | src/importer/ptb.rs:64-116 | appends the parent-edge events: nothing without a parent, else the edge in the unnamed and the `edge` dominance components, labelled `func` in both only for a non-empty edge label |
| `Ptb.AddTokenNode` | src/importer/ptb.rs:205-227 | appends the token node, its `annis::tok` value, its `default_layer` layer label and its part-of edge to the text node |
| `Ptb.AddPreceding` | src/importer/ptb.rs:236-250 | with a previous token, appends the whitespace-before label and the ordering edge from it; without one, nothing |
| `Ptb.EmitToken` | src/importer/ptb.rs:201-250 | appends the whole token step: node events, parent edges with the edge label, the `pos` label, and the link to the previous token |
| `Ptb.EmitNodeHead` | src/importer/ptb.rs:148-179 | appends the node, its `syntax::cat` label with the node label, its layer label, its part-of edge to the document and the parent edges |
| `Ptb.DocumentMapper.constructor` | src/importer/ptb.rs:27-34 | a fresh mapper has the `doc#text` text node name, no last token and both counters at 0 |
| `Ptb.DocumentMapper.ConsumeToken` | src/importer/ptb.rs:194-254 | returns, counts and appends exactly what the token walk does: fails on a bad value, else `doc#t<n+1>` becomes the last token |
| `Ptb.DocumentMapper.ConsumePhrase` | src/importer/ptb.rs:130-192 | returns, counts and appends exactly what the recursive phrase walk does, failing on an empty phrase or a first child that is not a label |
| `Ptb.DocumentMapper.ConsumeChildren` | src/importer/ptb.rs:184-187 | the loop over the children agrees with the children walk and returns the node name when all succeed |
| `Ptb.DocumentMapper.Map` | src/importer/ptb.rs:37-62 | appends the text node and its part-of edge, then walks every root phrase; succeeds exactly when the walk does and leaves the counters where the walk does |
| `PtbProperties.OrderEdgesAppend` | src/importer/ptb.rs:243-249 | the ordering edges of two logs one after the other are those of each, in order |
| `PtbProperties.LinksAppend` | src/importer/ptb.rs:243-249 | links from token a to b, then b to c, are the links from a to c |
| `PtbProperties.LinksChain` | src/importer/ptb.rs:243-249 | the links of the first n tokens are the ordering chain over `doc#t1 … doc#tn` |
| `PtbProperties.AnnotateEdgeNoOrder` | src/importer/ptb.rs:64-116 | parent edges contain no ordering edge |
| `PtbProperties.NodeHeadNoOrder` | src/importer/ptb.rs:148-179 | a syntax node's events contain no ordering edge |
| `PtbProperties.TokenStepOrder` | src/importer/ptb.rs:236-252 | a token step contributes exactly one ordering link, from the previous token, or none for the first token |
| `PtbProperties.TokenAdvances` | src/importer/ptb.rs:194-254 | a token walk keeps the last token consistent with the count and links exactly the token it adds |
| `PtbProperties.PhraseAdvances` | src/importer/ptb.rs:130-192 | a phrase walk only counts up, keeps the last token consistent, and its ordering edges link exactly the tokens it creates, in order |
| `PtbProperties.ChildrenAdvances` | src/importer/ptb.rs:184-186 | the same for the loop over a node's children |
| `PtbProperties.RootsAdvances` | src/importer/ptb.rs:54-58 | the same for the loop over the root phrases |
| `PtbProperties.DocumentOrder` | src/importer/ptb.rs:37-252 | from a fresh mapper, the ordering edges of a document are exactly the chain `doc#t1 → doc#t2 → …` and the last token is the one with the final number |
| `PtbProperties.TokenWhitespace` | src/importer/ptb.rs:236-242 | a token gets the whitespace-before " " label exactly when it is not the first token |
| `PtbProperties.AnnotateEdgeContents` | src/importer/ptb.rs:71-113 | the unnamed and the `edge` dominance edge from p to t are each present exactly when p is the parent and t the target; a `func` label with value v is present exactly when additionally the edge label is v and v is non-empty |
| `PtbProperties.AnnotateEdgeShaped` | src/importer/ptb.rs:76-112 | parent edges come in twins across both dominance components and no `func` label is empty |
| `PtbProperties.TokenStepShaped` | src/importer/ptb.rs:201-250 | a token step's dominance edges are twinned and its `func` labels non-empty |
| `PtbProperties.NodeHeadShaped` | src/importer/ptb.rs:148-179 | a syntax node's head events are twinned and have non-empty `func` labels |
| `PtbProperties.PhraseShaped` | src/importer/ptb.rs:130-192 | every edge of a phrase walk is twinned across the unnamed and the `edge` component, and every `func` label is non-empty |
| `PtbProperties.ChildrenShaped` | src/importer/ptb.rs:184-186 | the same for the loop over children |
| `PtbProperties.RootsShaped` | src/importer/ptb.rs:37-62 | the same for a whole document |
| `PtbProperties.PhraseOkIff` | src/importer/ptb.rs:130-285 | a phrase walk succeeds exactly when the phrase starts with a label and is a well-formed token or a node whose children are all well-shaped phrases |
| `PtbProperties.ChildrenOkIff` | src/importer/ptb.rs:184-186 | the children loop succeeds exactly when every child is a well-shaped phrase |
| `PtbProperties.RootsOkIff` | src/importer/ptb.rs:54-58 | a document maps without error exactly when each of its root phrases is well shaped |
| `PtbProperties.PhraseResult` | src/importer/ptb.rs:139-187 | a successful phrase returns `doc#t<n+1>` when it is a token phrase and `doc#n<k+1>` otherwise |
| `ConllImporter.ReadAsWrittenOneSentence` | py/CoNLLImporter.py:30-33 | as written, `split` never returns an empty list, so no line starts a new sentence: everything lands in one sentence |
| `ConllImporter.ReadBlankLine` | py/CoNLLImporter.py:31-33 | a single blank line: as written still one sentence, as intended two |
| `ConllImporter.ReadSound` | py/CoNLLImporter.py:29-36 | reading as intended gives one sentence more than there are blank lines, and the sentences one after the other hold exactly the ten-column lines, in file order, as entries of their first eight fields |
| `ConllImporter.ReadData` | py/CoNLLImporter.py:26-36 | the reading loop produces exactly the sentences of the intended reading |
| `ConllImporter.IsNoneIsStrippedUnderscore` | py/CoNLLImporter.py:44-51 | a field counts as absent exactly when it strips to `_` |
| `ConllImporter.ParseFeature` | py/CoNLLImporter.py:49 | unpacking `k, v = kv.split('=')` succeeds exactly when the piece contains one `=` |
| `ConllImporter.Prefixed` | py/CoNLLImporter.py:39-54 | prefixing events to a result keeps its success or failure and puts the events in front |
| `ConllImporter.PrefixedStep` | py/CoNLLImporter.py:39-54 | prefixing in two steps is prefixing the two blocks at once |
| `ConllImporter.FeatureEventsOk` | py/CoNLLImporter.py:47-50 | the feature loop succeeds exactly when every piece has one `=`, and then adds one label per piece |
| `ConllImporter.ParseFeaturePiece` | py/CoNLLImporter.py:49-50 | a piece `k=v` with plain parts parses back to (k, v) |
| `ConllImporter.FeaturePiecesPlain` | py/CoNLLImporter.py:47 | a written piece `k=v` of plain parts contains no `\|` |
| `ConllImporter.FeatureEventsOfPieces` | py/CoNLLImporter.py:47-50 | the labels of the written pieces are exactly the labels `ns::k = v` of the pairs, in order |
| `ConllImporter.FeatureRoundTrip` | py/CoNLLImporter.py:46-50 | splitting `k1=v1\|k2=v2\|…` on `\|` and then `=` recovers every pair as a label, in order; an empty list does not parse |
| `ConllImporter.MapEntry` | py/CoNLLImporter.py:39-54 | succeeds exactly when the entry's features parse; appends the token, then lemma/upos/xpos unless `_`, the features, and `func` for a deprel unless `_`; returns the token id with the raw head and deprel |
| `ConllImporter.AddFields` | py/CoNLLImporter.py:42-45 | appends a label for each of lemma, upos and xpos whose value is present and not `_` |
| `ConllImporter.AddDeprel` | py/CoNLLImporter.py:51-53 | appends the stripped deprel as the `func` label unless it is `_` |
| `ConllImporter.AddFeats` | py/CoNLLImporter.py:46-50 | unless feats is `_`, appends one label per `k=v` piece, stripped; fails exactly when some piece does not have one `=` |
| `ConllImporter.HeadIndex` | py/CoNLLImporter.py:70 | `nodes[h]` with the leading `None`: a head 1..n names entry h − 1; a head beyond the sentence fails; any result is an entry of the sentence |
| `ConllImporter.DependencyEventsOk` | py/CoNLLImporter.py:67-71 | the dependency loop succeeds exactly when every head parses and resolves, and then emits two events (edge and label) per entry whose head is not 0 |
| `ConllImporter.DependencyStepOk` | py/CoNLLImporter.py:68-71 | one entry: succeeds exactly when its head resolves; a head 0 emits nothing, others an edge with its label |
| `ConllImporter.DependencyEdge` | py/CoNLLImporter.py:69-71 | an entry with head h in 1..n gets a `dep` pointing edge from entry h to it, labelled with its deprel under the text name |
| `ConllImporter.MapDependencies` | py/CoNLLImporter.py:67-71 | the loop appends exactly the dependency events and fails exactly when they do |
| `ConllImporter.DependencyErrSticks` | py/CoNLLImporter.py:67-71 | after a failing head the sentence's loop stays failed |
| `ConllImporter.SentenceNodesAt` | py/CoNLLImporter.py:64-65 | entry i of a sentence starting at token number `start` is `doc#t<start+i>` with its head and deprel |
| `ConllImporter.NumberedNodes` | py/CoNLLImporter.py:62-66 | when each item adds the tokens of its own number range, consecutive numbering adds the tokens of the whole range in order |
| `ConllImporter.TokenRangeAppend` | py/CoNLLImporter.py:64-66 | consecutive number ranges join into one |
| `ConllImporter.TokenEventsNodes` | py/graphupdate_util.py:68-80 | a token's events add exactly one node, the token |
| `ConllImporter.EntryNodes` | py/CoNLLImporter.py:39-54 | an entry adds exactly one node, its token |
| `ConllImporter.EntriesNodes` | py/CoNLLImporter.py:64-65 | the entries of a sentence add their tokens, numbered consecutively from `start` |
| `ConllImporter.DependencyNoNodes` | py/CoNLLImporter.py:67-71 | dependency events add no node |
| `ConllImporter.SentenceAddedNodes` | py/CoNLLImporter.py:63-71 | a sentence adds exactly its tokens, consecutively numbered |
| `ConllImporter.DocumentNodes` | py/CoNLLImporter.py:61-66 | token numbers run on across sentences: the document adds tokens `start … start + count − 1` |
| `ConllImporter.EntryCountFlatten` | py/CoNLLImporter.py:62-66 | the number of tokens counted over sentences is the number of entries |
| `ConllImporter.MapEntries` | py/CoNLLImporter.py:64-66 | the entry loop succeeds exactly when every entry maps, appends their events, and returns the nodes numbered from `start` |
| `ConllImporter.MapNextEntry` | py/CoNLLImporter.py:65 | one entry of the loop: its failure fails the rest, its success adds its node and its events in front of the rest |
| `ConllImporter.EntriesStep` | py/CoNLLImporter.py:64-65 | the entries' events are the first entry's events in front of the rest's, and a failing entry fails them all |
| `ConllImporter.SentenceNodesStep` | py/CoNLLImporter.py:65 | each entry appends its node to the list of nodes |
| `ConllImporter.MapSentence` | py/CoNLLImporter.py:63-71 | a sentence: the entries then the dependency edges; fails exactly when either does |
| `ConllImporter.DocumentEventsNext` | py/CoNLLImporter.py:62-66 | the document's events are the first sentence's followed by the rest numbered after it; a failing sentence fails the document |
| `ConllImporter.MapConllDocument` | py/CoNLLImporter.py:57-71 | the document: the subcorpus node, then every sentence of the intended reading with token numbers from 1; fails exactly when a sentence does |
| `ConllImporter.MapSentences` | py/CoNLLImporter.py:61-71 | the loop over sentences appends exactly the document's events, numbering from 1 |
| `ConllImporter.DocumentTokens` | py/CoNLLImporter.py:61-66 | a document adds exactly the tokens `doc#t1 … doc#tN`, N its number of ten-column lines |
| `SpreadsheetImporter.ColumnOfLast` | py/import_spreadsheet.py:30-76 | a name is missing from the header exactly when no header cell holds it; otherwise its column holds the name and no later column does (the dictionary keeps the last one) |
| `SpreadsheetImporter.RangeMembers` | py/import_spreadsheet.py:32-35 | `range(lo, hi)` holds exactly the integers from lo up to hi, exclusive |
| `SpreadsheetImporter.ValidRowsIff` | py/import_spreadsheet.py:32-35 | a row is valid for a column exactly when it lies in 2..max_row+1 and no merged range starting in that column hides it below its first row |
| `SpreadsheetImporter.RowIndices` | py/import_spreadsheet.py:32-35 | the loop builds, for every known column, its valid rows; a merged range in an unknown column is the `KeyError` |
| `SpreadsheetImporter.RowsFromMembers` | py/import_spreadsheet.py:51-77 | sorting a row set gives exactly its members in the bounds, strictly increasing |
| `SpreadsheetImporter.ValidRowsWithin` | py/import_spreadsheet.py:32 | every valid row lies between 2 and max_row + 1 |
| `SpreadsheetImporter.BoundariesConsecutive` | py/import_spreadsheet.py:51-82 | consecutive boundaries are a valid row and the next one: no valid row lies between them, and the last boundary is one past the largest valid row |
| `SpreadsheetImporter.BoundariesIncreasing` | py/import_spreadsheet.py:51-77 | the boundaries are strictly increasing and at least 2 |
| `SpreadsheetImporter.AnnoQName` | py/import_spreadsheet.py:74-75 | a name containing `::` splits at its first occurrence into namespace and name; otherwise the tokenization name is the namespace |
| `SpreadsheetImporter.TrimAll` | py/import_spreadsheet.py:99 | every name of the list is stripped, and no name is lost |
| `SpreadsheetImporter.ParseConfig` | py/import_spreadsheet.py:95-100 | the loop over the `;`-separated groups computes exactly the configuration of the groups, failing as the unpacking does |
| `SpreadsheetImporter.TrimTrimmed` | py/import_spreadsheet.py:98-99 | a stripped value has no outer whitespace and only characters of the original |
| `SpreadsheetImporter.SplitChars` | py/import_spreadsheet.py:97-99 | split pieces hold only characters of the split string |
| `SpreadsheetImporter.ReplaceDropChars` | py/import_spreadsheet.py:99 | removing a brace keeps only characters of the original other than the brace |
| `SpreadsheetImporter.ConfigNamesClean` | py/import_spreadsheet.py:95-100 | every parsed tokenization name and annotation name is stripped, and no annotation name holds a brace, comma or `;` |
| `SpreadsheetImporter.ConfigErrSticks` | py/import_spreadsheet.py:97-98 | once a group fails to unpack, the whole parse fails with that error |
| `SpreadsheetImporter.ConfigErrIff` | py/import_spreadsheet.py:97-98 | the parse fails exactly when some group does not split on `=` into two parts |
| `SpreadsheetImporter.Groups` | py/import_spreadsheet.py:97-99 | the k-th parsed group is the stripped left part of the k-th `;`-group and the stripped, brace-free `,`-split of its right part |
| `SpreadsheetImporter.ConfigKeys` | py/import_spreadsheet.py:96-100 | the tokenizations of a parsed configuration are exactly the names of its groups, each once, in the order of the first group naming it |
| `SpreadsheetImporter.ConfigValues` | py/import_spreadsheet.py:96-100 | each tokenization maps to the annotation list of the last group naming it |
| `SpreadsheetImporter.ColumnRows` | py/import_spreadsheet.py:50-77 | a found column comes with at least two boundaries, strictly increasing and at least 2 |
| `SpreadsheetImporter.SliceIds` | py/import_spreadsheet.py:63 | `empty_toks[start:end]` in range are the empty tokens `t<start+1> … t<end>` |
| `SpreadsheetImporter.TokenCellsRowOrdered` | py/import_spreadsheet.py:54-71 | tokens are entered in the order of their rows |
| `SpreadsheetImporter.TokensInRowOrder` | py/import_spreadsheet.py:72 | sorting tokens entered in row order by row leaves them in that order |
| `SpreadsheetImporter.TokenChainInRowOrder` | py/import_spreadsheet.py:54-72 | the ordering chain of a tokenization lists its tokens in the order of their rows |
| `SpreadsheetImporter.EntriesInMembers` | py/import_spreadsheet.py:83 | the selected entries are exactly the tokens whose row lies in `[start, end)` |
| `SpreadsheetImporter.CoveredIff` | py/import_spreadsheet.py:83 | an annotation covers a token exactly when the token's row lies in `[start, end)` |
| `SpreadsheetImporter.AnnoCellsShareSpan` | py/import_spreadsheet.py:86-92 | two filled annotation cells on the same rows and tokenization share one span: the second only adds its label to it |
| `SpreadsheetImporter.AnnoOnTokenSpan` | py/import_spreadsheet.py:63-92 | in multi-token mode an annotation on the rows of a token span adds its label to that span |
| `SpreadsheetImporter.MapEmptyTokens` | py/import_spreadsheet.py:39-44 | appends the empty tokens `t1 … tn` with text " " and their unnamed ordering chain, and returns their ids |
| `SpreadsheetImporter.SetLastRow` | py/import_spreadsheet.py:64-71 | the inner loop leaves the token at the last row of its range, and at none when the range is empty |
| `SpreadsheetImporter.MapTokenCell` | py/import_spreadsheet.py:57-71 | one token cell: nothing when blank; else a token span over its empty tokens (multi-token) or a plain token, as the fold computes |
| `SpreadsheetImporter.MapTokenColumn` | py/import_spreadsheet.py:54-71 | the loop over a token column's row ranges agrees with the fold and stops when a start row lies past the sheet |
| `SpreadsheetImporter.MapAnnoCell` | py/import_spreadsheet.py:80-92 | one annotation cell: nothing when blank; a label on the existing span of its rows; else a new span over the covered tokens |
| `SpreadsheetImporter.MapAnnoColumn` | py/import_spreadsheet.py:78-92 | the loop over an annotation column's row ranges agrees with the fold |
| `SpreadsheetImporter.MapAnnoColumns` | py/import_spreadsheet.py:73-92 | the loop over a tokenization's annotation names agrees with the fold, failing on an unknown column |
| `SpreadsheetImporter.MapTokenization` | py/import_spreadsheet.py:48-92 | one tokenization: its tokens, their ordering chain named after it, then its annotations |
| `SpreadsheetImporter.MapSpreadsheet` | py/import_spreadsheet.py:27-92 | multi-token mode iff more than one tokenization; succeeds exactly when the fold does and appends exactly its events |
| `ExmaraldaImporter.TimelineErr` | py/EXMARaLDAImporter.py:114-115 | reading the timeline fails exactly when some timed `tli` has no id |
| `ExmaraldaImporter.TimelineKeys` | py/EXMARaLDAImporter.py:114-115 | the timeline holds exactly the ids of the `tli` elements that have a time |
| `ExmaraldaImporter.TimelineKept` | py/EXMARaLDAImporter.py:115 | an id that no later timed `tli` repeats keeps its time |
| `ExmaraldaImporter.TimelineLast` | py/EXMARaLDAImporter.py:115 | the time of an id is the one of its last timed `tli`, as the dictionary comprehension keeps |
| `ExmaraldaImporter.BaseName` | py/EXMARaLDAImporter.py:69 | `os.path.basename` contains no `/` |
| `ExmaraldaImporter.AudioSourceRaises` | py/EXMARaLDAImporter.py:54-61 | mapping the media fails exactly when none is mapped yet and more than one file is referenced, and then emits nothing |
| `ExmaraldaImporter.AudioSourceOnce` | py/EXMARaLDAImporter.py:55-72 | once the media is mapped a second call changes nothing |
| `ExmaraldaImporter.AudioSourceMapped` | py/EXMARaLDAImporter.py:62-72 | one existing referenced file becomes the media node `dirname(path)/basename(file)`, with its audio events appended |
| `ExmaraldaImporter.TokLeTotal` | py/EXMARaLDAImporter.py:89 | the order of the token triples (start, end, text) is a total preorder |
| `ExmaraldaImporter.TokenTierMapped` | py/EXMARaLDAImporter.py:79-93 | a token tier with category and a new speaker maps its sorted tokens, records them for the speaker, continues the token count, and on success appends their ordering chain named by the category, sorted by (start, end) |
| `ExmaraldaImporter.SortedTokens` | py/EXMARaLDAImporter.py:89 | the tokens are mapped sorted by (start, end, text), a permutation of the tier's tokens |
| `ExmaraldaImporter.MapTokensOk` | py/EXMARaLDAImporter.py:89-92 | mapping the sorted tokens succeeds exactly when every token has start < end |
| `ExmaraldaImporter.MapTokensEntries` | py/EXMARaLDAImporter.py:92 | the speaker's token dictionary is the token id onto (start, end) for each token mapped |
| `ExmaraldaImporter.TokEntriesNumbered` | py/EXMARaLDAImporter.py:90-92 | tokens are numbered consecutively after the running count, in sorted order; entries already present are kept |
| `ExmaraldaImporter.TierOrdering` | py/EXMARaLDAImporter.py:89-93 | for sorted tokens the ordering chain is `t<c+1>, t<c+2>, …` in the tokens' order: sorting the dictionary by (start, end) keeps it as it is |
| `ExmaraldaImporter.TierEntriesSorted` | py/EXMARaLDAImporter.py:92-93 | the same for the dictionary built from well-ordered sorted tokens |
| `ExmaraldaImporter.TokenizationSpeakers` | py/EXMARaLDAImporter.py:80-86 | when the tokenizations succeed, every token tier has a category and a speaker, and no two token tiers share a speaker |
| `ExmaraldaImporter.KeyLeTotal` | py/EXMARaLDAImporter.py:104 | the order of events by start time is a total preorder |
| `ExmaraldaImporter.SortedEvents` | py/EXMARaLDAImporter.py:104 | annotation events are visited sorted by start time, a permutation of the tier's events |
| `ExmaraldaImporter.SpeakerTokens` | py/EXMARaLDAImporter.py:103 | the speaker's tokens as (start, end, id) triples, one per dictionary entry |
| `ExmaraldaImporter.CoveredIff` | py/EXMARaLDAImporter.py:110 | a span covers a token exactly when the token starts at or after the span's start and ends at or before its end |
| `ExmaraldaImporter.SpanCount` | py/EXMARaLDAImporter.py:104-112 | the annotation loop succeeds exactly when every event's end is in the timeline, and then creates one span per event with text |
| `ExmaraldaImporter.SpansPrefix` | py/EXMARaLDAImporter.py:104-112 | the annotation loop only appends events |
| `ExmaraldaImporter.SpanMapped` | py/EXMARaLDAImporter.py:107-112 | each event with text gets the next span number, its stripped value as label `speaker::category` when the category is non-empty, and a coverage edge to every covered token |
| `ExmaraldaImporter.AddAudioSource` | py/graphupdate_util.py:60-65 | appends the media node, its node type `file`, its file label and its part-of edge to the document |
| `ExmaraldaImporter.Import.constructor` | py/EXMARaLDAImporter.py:33-40 | a new import has no media node, no speaker tokens and an empty timeline |
| `ExmaraldaImporter.Import.ReadTimeline` | py/EXMARaLDAImporter.py:114-115 | sets the timeline to the one read, or fails with its error leaving the timeline unchanged; other fields are kept |
| `ExmaraldaImporter.Import.MapAudioSource` | py/EXMARaLDAImporter.py:54-72 | updates events, media node and result exactly as the media step does; other fields are kept |
| `ExmaraldaImporter.Import.MapTierTokens` | py/EXMARaLDAImporter.py:89-92 | the token loop of one tier: events, the speaker's dictionary, the count and the result are those of the token fold |
| `ExmaraldaImporter.Import.MapTokenTier` | py/EXMARaLDAImporter.py:79-93 | one token tier, exactly as the tier step computes |
| `ExmaraldaImporter.Import.MapTokenizations` | py/EXMARaLDAImporter.py:74-93 | all token tiers in document order, with one running token count, exactly as the fold over tiers computes |
| `ExmaraldaImporter.Import.MapSpans` | py/EXMARaLDAImporter.py:104-112 | the event loop of one annotation tier, exactly as the span fold computes |
| `ExmaraldaImporter.Import.MapAnnotationTier` | py/EXMARaLDAImporter.py:100-112 | one annotation tier, exactly as the tier step computes, failing for a speaker without tokens |
| `ExmaraldaImporter.Import.MapAnnotations` | py/EXMARaLDAImporter.py:95-112 | all annotation tiers with one running span count, exactly as the fold computes |
| `ExmaraldaImporter.Import.Map` | py/EXMARaLDAImporter.py:117-121 | timeline, media, tokenizations, annotations in that order, stopping at the first error, exactly as the model of `map` computes |
| `Exmaralda.Position` | src/importer/exmaralda/mod.rs:337-360 | a found position holds the id and no earlier position does; `None` exactly when the id is not among the ordered tli ids |
| `Exmaralda.NodesOf` | src/importer/exmaralda/mod.rs:236-242 | when every id is in the timeline, one empty token per ordered id |
| `Exmaralda.CoverageOf` | src/importer/exmaralda/mod.rs:401-411 | when every covered id is in the timeline, one coverage edge per covered id |
| `Exmaralda.StrPutGet` | src/importer/exmaralda/mod.rs:215-218 | after an insertion into a string-keyed ordered map the key holds the new value and every other key keeps its old one |
| `Exmaralda.TimePutGet` | src/importer/exmaralda/mod.rs:147-150 | after an insertion into the time-keyed map the time holds the new value and every other time keeps its old one |
| `Exmaralda.TimePutSorted` | src/importer/exmaralda/mod.rs:147-200 | insertion keeps the times strictly increasing, so the groups are visited in time order |
| `Exmaralda.TimePutKeys` | src/importer/exmaralda/mod.rs:147-150 | every time after an insertion is the inserted time or an old one |
| `Exmaralda.GroupPushGet` | src/importer/exmaralda/mod.rs:147-150 | a tli id is appended to the ids of its own time, created empty when missing; every other time keeps its ids |
| `Exmaralda.OrderPushGet` | src/importer/exmaralda/mod.rs:450-456 | a token event is appended to the ordering of its category, created empty when missing; every other ordering is unchanged |
| `Exmaralda.PutIdsGet` | src/importer/exmaralda/mod.rs:214-219 | each id of a group gets the group's time and empty token; an id outside the group keeps its entry |
| `Exmaralda.GroupsTimeline` | src/importer/exmaralda/mod.rs:199-219 | after the common timeline, an id holds the time and token of the last group listing it |
| `Exmaralda.GroupsKeep` | src/importer/exmaralda/mod.rs:199-219 | an id that no remaining group lists keeps its timeline entry |
| `Exmaralda.GroupsEvents` | src/importer/exmaralda/mod.rs:202-226 | every time group gets a node named after its joined ids and a part-of edge to the document |
| `Exmaralda.GroupsPrefix` | src/importer/exmaralda/mod.rs:199-227 | the group loop only appends to the log |
| `Exmaralda.TimeOfEntryLeTotal` | src/importer/exmaralda/mod.rs:232 | comparing timeline entries by time is a total preorder |
| `Exmaralda.OrderedByTime` | src/importer/exmaralda/mod.rs:229-235 | the ordered tli ids are sorted by time and are a permutation of the timeline's entries |
| `Exmaralda.NodesOfSome` | src/importer/exmaralda/mod.rs:236-242 | with every ordered id in the timeline the lookups never panic, and the k-th token is that of the k-th id |
| `Exmaralda.GroupsKeepSome` | src/importer/exmaralda/mod.rs:214-219 | the group loop never removes an id from the timeline |
| `Exmaralda.CommonTimelineKeeps` | src/importer/exmaralda/mod.rs:197-251 | the end of the common timeline never panics and leaves every ordered id, old and new, in the timeline |
| `Exmaralda.DedupNodes` | src/importer/exmaralda/mod.rs:236-250 | dropping repeated neighbouring tokens keeps the last token |
| `Exmaralda.TimelineOrderingAsWrittenIsChain` | src/importer/exmaralda/mod.rs:236-250 | as written, the base ordering is the chain through the tokens of all ordered ids, repeats included |
| `Exmaralda.SelfLoopAsWritten` | src/importer/exmaralda/mod.rs:147-250 | two tlis with one time give one empty token, and the base ordering as written adds an edge from that token to itself |
| `Exmaralda.SelfLoopGroups` | src/importer/exmaralda/mod.rs:199-219 | in that example both ids are put in the timeline with the shared token |
| `Exmaralda.SelfLoopNodes` | src/importer/exmaralda/mod.rs:229-242 | in that example the two ordered ids look up the same token |
| `Exmaralda.TimelineOrderingIsChain` | src/importer/exmaralda/mod.rs:236-250 | the corrected base ordering is the chain through the tokens with repeated neighbours dropped |
| `Exmaralda.TimelineOrderingNoSelfLoop` | src/importer/exmaralda/mod.rs:236-250 | no corrected base ordering edge leads from a token to itself |
| `Exmaralda.TimelineOrderingLinks` | src/importer/exmaralda/mod.rs:236-250 | consecutive ids with different tokens are linked in the base ordering; ids sharing one token add no edge |
| `Exmaralda.TliStartOutcome` | src/importer/exmaralda/mod.rs:134-159 | a tli fails the document exactly when its time is missing or does not parse, or its id is missing; otherwise it appends its id to its time group and changes nothing else |
| `Exmaralda.ParseTimeWhole` | src/importer/exmaralda/mod.rs:136-137 | a tli time written as an integer, signed or not, parses as that number |
| `Exmaralda.ParseTimeDecimal` | src/importer/exmaralda/mod.rs:136-137 | a tli time written as digits, a '.' and digits parses as the whole part plus the fraction the digits after the '.' spell |
| `Exmaralda.ParseNegativeExponent` | src/importer/exmaralda/mod.rs:136-137 | a mantissa followed by `e-` and digits parses to the mantissa's value divided by ten to the power of those digits |
| `Exmaralda.MantissaDecimal` | src/importer/exmaralda/mod.rs:136-137 | digits, a '.' and digits form a mantissa worth the whole part plus the fraction |
| `Exmaralda.TimeStringWhole` | src/importer/exmaralda/mod.rs:430-431 | a whole time is displayed in a time label as its integer, without a fraction |
| `Exmaralda.TimeStringHalf` | src/importer/exmaralda/mod.rs:430-431 | a fractional time is displayed with its decimal digits after a '.' (`1.5`) |
| `Exmaralda.TimeRoundTripWhole` | src/importer/exmaralda/mod.rs:430-431 | the display of a whole time parses back as that time |
| `Exmaralda.TimeRoundTripHalf` | src/importer/exmaralda/mod.rs:430-431 | the display of `1.5` parses back as 1.5 |
| `Exmaralda.CoverageOfSome` | src/importer/exmaralda/mod.rs:401-411 | with every covered id in the timeline the lookups never panic, and the k-th coverage edge targets the token of the k-th id |
| `Exmaralda.EventSpanOutcome` | src/importer/exmaralda/mod.rs:369-463 | a non-empty span defines its event node once (node and one coverage edge per covered id on first sight, labels only after), records a `t` event in its category's ordering at its start time |
| `Exmaralda.EventEndOutcome` | src/importer/exmaralda/mod.rs:337-368 | an event aborts exactly when its start or end id is not an ordered tli id, or its start is not before its end; an unknown id reports the start id; otherwise it maps the span between them |
| `Exmaralda.EventEndMissing` | src/importer/exmaralda/mod.rs:303-336 | an event without a start or end id is skipped, its message collected, and nothing is emitted |
| `Exmaralda.EventEndGrows` | src/importer/exmaralda/mod.rs:252-464 | mapping an event only adds defined nodes, collected errors and ordering entries |
| `Exmaralda.EventIdsGrows` | src/importer/exmaralda/mod.rs:303-368 | the same for an event once its tier is known |
| `Exmaralda.EventSpanGrows` | src/importer/exmaralda/mod.rs:369-463 | mapping a span keeps the timeline and the ordered ids and only adds defined nodes and ordering entries |
| `Exmaralda.EndBodyGrows` | src/importer/exmaralda/mod.rs:174-489 | every end tag only adds to the collected state |
| `Exmaralda.StepGrows` | src/importer/exmaralda/mod.rs:99-500 | every reader event that goes on only adds to the collected state |
| `Exmaralda.RunCollectedFails` | src/importer/exmaralda/mod.rs:522-526 | once an error is collected the document never ends as imported |
| `Exmaralda.FinishIff` | src/importer/exmaralda/mod.rs:522-526 | the document is imported exactly when no error was collected, and otherwise fails with the collected errors |
| `Exmaralda.RunKeepsTimeline` | src/importer/exmaralda/mod.rs:99-500 | every state the loop reaches keeps all ordered ids in the timeline, so no timeline lookup panics |
| `Exmaralda.StartLeTotal` | src/importer/exmaralda/mod.rs:507 | comparing ordering entries by start time is a total preorder |
| `Exmaralda.NamedOrderingSorted` | src/importer/exmaralda/mod.rs:505-507 | each named ordering is sorted by start time and is a permutation of its entries |
| `Exmaralda.OrderingsChains` | src/importer/exmaralda/mod.rs:503-520 | an ordering edge is emitted exactly when it belongs to the chain, named after its category, through that category's nodes sorted by start time |
| `Exmaralda.ImportDocument` | src/importer/exmaralda/mod.rs:73-527 | the log and the outcome are those of the reader run from empty buffers |
| `Exmaralda.Advance` | src/importer/exmaralda/mod.rs:99-500 | one reader event either continues the run with the new state, breaks to the named orderings, or returns the fatal error |
| `Exmaralda.RunNext` | src/importer/exmaralda/mod.rs:99-500 | the run from one event is the step of that event followed by the run from the next, a stop or a fatal error |
| `Exmaralda.ReadEvent` | src/importer/exmaralda/mod.rs:99-173 | the outcome and the appended events mirror the step of that reader event |
| `Exmaralda.EndTag` | src/importer/exmaralda/mod.rs:174-491 | the outcome and the appended events mirror the end-tag step; a normal end drops the element's attributes |
| `Exmaralda.SpeakerInfo` | src/importer/exmaralda/mod.rs:177-196 | a non-blank speaker-table text labels the document in the speaker's namespace, and an abbreviation also names the speaker |
| `Exmaralda.UdInformation` | src/importer/exmaralda/mod.rs:465-487 | a ud-information with an attribute name labels the document, in the enclosing speaker's namespace or the empty one |
| `Exmaralda.AddTliNode` | src/importer/exmaralda/mod.rs:202-226 | appends the empty token, its `tok` label and its part-of edge |
| `Exmaralda.AddGroups` | src/importer/exmaralda/mod.rs:199-227 | the new timeline and the appended events are those of the group fold |
| `Exmaralda.AddTimelineOrdering` | src/importer/exmaralda/mod.rs:236-250 | with every ordered id in the timeline the lookups succeed, and the appended events are the base ordering of their tokens |
| `Exmaralda.CommonTimeline` | src/importer/exmaralda/mod.rs:197-251 | the outcome and the appended events mirror the end of the common timeline |
| `Exmaralda.AddEventLabels` | src/importer/exmaralda/mod.rs:435-463 | appends the layer label, the `tok` label on a `t` tier and the annotation label |
| `Exmaralda.MapEvent` | src/importer/exmaralda/mod.rs:252-302 | the outcome and the appended events mirror the event step; a tier without speaker, known speaker or category fails the document |
| `Exmaralda.MapEventIds` | src/importer/exmaralda/mod.rs:303-368 | the outcome and the appended events mirror the event step once its tier is known |
| `Exmaralda.MapSpan` | src/importer/exmaralda/mod.rs:369-463 | the outcome and the appended events mirror the span step |
| `Exmaralda.CreateEventNode` | src/importer/exmaralda/mod.rs:395-434 | appends the event node, one coverage edge per covered id and the time label from start to end time |
| `Exmaralda.BuildOrders` | src/importer/exmaralda/mod.rs:502-526 | appends the named orderings and returns the outcome of the collected errors |
| `Xlsx.MarkStartsAt` | src/importer/xlsx.rs:482-487 | the rows from a merged range's first row up to (not including) its last point to its first row; every other row keeps its mark |
| `Xlsx.HelperErrIff` | src/importer/xlsx.rs:443-446 | building the merged-cell helper fails exactly when some merged range spans several columns |
| `Xlsx.PrefillInv` | src/importer/xlsx.rs:412-418 | before any merged range, every header column has the valid rows `2..=highest + 1` and no marks |
| `Xlsx.MergeStepInv` | src/importer/xlsx.rs:421-488 | each merged range keeps the helper invariant: a row is valid exactly when no range so far hides it, and a valid row carries no mark but itself |
| `Xlsx.HelperFromInv` | src/importer/xlsx.rs:421-488 | the invariant holds after all remaining merged ranges |
| `Xlsx.NewHelperValid` | src/importer/xlsx.rs:403-494 | the finished helper's valid rows of a column are the data rows below no merged range's first row |
| `Xlsx.ApplyMerge` | src/importer/xlsx.rs:421-488 | one merged range fails exactly when its specification does, and otherwise yields its valid rows and marks |
| `Xlsx.NewHelper` | src/importer/xlsx.rs:403-494 | the helper is the one specified for the header's columns, the highest row and the merged ranges |
| `Xlsx.BaseTokens` | src/importer/xlsx.rs:141-167 | one base token per data row, `highest - 1` of them |
| `Xlsx.WindowsShift` | src/importer/xlsx.rs:208-313 | the windows of a column only append to the log they start from |
| `Xlsx.SetInsertMembers` | src/importer/xlsx.rs:127 | inserting a name into a group adds exactly that name |
| `Xlsx.WithFallbackKeys` | src/importer/xlsx.rs:120-135 | the header never adds a key to the column map |
| `Xlsx.WithFallbackNoGroup` | src/importer/xlsx.rs:124-131 | without a fallback, or with a fallback that is not a key, the column map is unchanged |
| `Xlsx.FallbackCollects` | src/importer/xlsx.rs:120-135 | the fallback group ends with exactly its configured names and the header names that are neither configured nor keys |
| `Xlsx.FallbackStep` | src/importer/xlsx.rs:121-127 | each header cell adds its trimmed name to the fallback group exactly when that name is unknown |
| `Xlsx.FallbackOthers` | src/importer/xlsx.rs:124-131 | every group other than the fallback keeps its names |
| `Xlsx.BaseEventsAt` | src/importer/xlsx.rs:141-167 | the i-th block of four events is the i-th base token: node, empty text, default layer, part of the document |
| `Xlsx.BaseTokensOrdered` | src/importer/xlsx.rs:168-180 | the base ordering has one edge fewer than there are tokens, from each base token to the next |
| `Xlsx.RowsFromFirst` | src/importer/xlsx.rs:198-206 | sorting a column's valid rows starts at the smallest row of the range |
| `Xlsx.WindowInBounds` | src/importer/xlsx.rs:208-221 | every window of sorted valid rows lies in the data rows, so the base-token slice is in range and covers the tokens of its rows |
| `Xlsx.SegEndNext` | src/importer/xlsx.rs:258-274 | the corrected segmentation end of a window's first row is the next valid row of the segmentation column |
| `Xlsx.SegEndAsWrittenIsStart` | src/importer/xlsx.rs:263-266 | as written, the end row looked up for a valid segmentation row is that row itself |
| `Xlsx.NodeNameInjective` | src/importer/xlsx.rs:222-223 | two window nodes of one tokenization have the same name only for the same rows |
| `Xlsx.SegTargetAsWrittenMissing` | src/importer/xlsx.rs:258-284 | as written, the coverage target `tok_r-r` is never the name of a segmentation window node |
| `Xlsx.SegTargetIsWindow` | src/importer/xlsx.rs:258-284 | with the corrected end, the coverage target is the node of the segmentation window starting at that row |
| `Xlsx.DatasheetErrIff` | src/importer/xlsx.rs:443-446 | importing a data sheet fails exactly when a merged range spans several columns |
| `Xlsx.CollectKnown` | src/importer/xlsx.rs:107-111 | the known names are all annotation names of the configuration |
| `Xlsx.ReadHeader` | src/importer/xlsx.rs:112-137 | the column of each non-blank header name (the later cell winning) and the column map completed by the fallback |
| `Xlsx.AddBaseTokens` | src/importer/xlsx.rs:140-180 | appends every base token and then the base ordering between them |
| `Xlsx.MapSegEdges` | src/importer/xlsx.rs:253-288 | appends one coverage edge to each segmentation node starting at a valid segmentation row of the window |
| `Xlsx.MapWindowEvents` | src/importer/xlsx.rs:222-309 | appends the window node, its part-of edge, its tokenization labels, its annotation in the name's namespace or the tokenization's, and coverage of its base tokens |
| `Xlsx.MapLayer` | src/importer/xlsx.rs:235-290 | a tokenization window gets its layer and either its text (the token column) or its segmentation coverage |
| `Xlsx.MapWindow` | src/importer/xlsx.rs:208-313 | an absent or blank cell adds nothing; a filled one adds its window and, in the token column, records its node |
| `Xlsx.MapColumn` | src/importer/xlsx.rs:189-332 | an unknown column adds nothing; otherwise the windows of its sorted valid rows, then the tokenization's ordering through its nodes |
| `Xlsx.MapGroup` | src/importer/xlsx.rs:181-333 | a group maps its tokenization (unless empty) and then its annotation names, in order |
| `Xlsx.MapGroups` | src/importer/xlsx.rs:181-334 | every group of the column map, in key order |
| `Xlsx.ImportDatasheet` | src/importer/xlsx.rs:99-336 | succeeds exactly when the specification does and then appends its events; on failure the log is unchanged |
| `ConlluImporter.ParseUsize` | src/importer/conllu/mod.rs:284-333 | a parsed id or head is a `usize`: below 2^64 |
| `ConlluImporter.ParseUsizeOfNat` | src/importer/conllu/mod.rs:284-333 | every `usize` parses back from its decimal digits |
| `ConlluImporter.TokScanOk` | src/importer/conllu/mod.rs:280-344 | the columns succeed exactly when every id and every first head id parses; the id is then known exactly when some column is an id |
| `ConlluImporter.MapTokenOk` | src/importer/conllu/mod.rs:277-356 | a token maps exactly when all its ids and heads parse and it has an id column |
| `ConlluImporter.FeatureOnNode` | src/importer/conllu/mod.rs:306-323 | a feature labels only its token |
| `ConlluImporter.ItemsOnNode` | src/importer/conllu/mod.rs:303-328 | a FEATS or MISC column labels only its token |
| `ConlluImporter.MemberStepOnNode` | src/importer/conllu/mod.rs:282-343 | each column appends only events about its token |
| `ConlluImporter.TokScanOnNode` | src/importer/conllu/mod.rs:280-344 | all columns of a token append only events about that token |
| `ConlluImporter.MapTokenOnNode` | src/importer/conllu/mod.rs:264-344 | a token opens with its node and its default layer, and every event it appends is about its node |
| `ConlluImporter.MapInsertGet` | src/importer/conllu/mod.rs:161 | after inserting a token id it names the new token; every other id keeps its token |
| `ConlluImporter.KeysOfInsert` | src/importer/conllu/mod.rs:161 | the ids after an insertion are the old ids with the new one put in order |
| `ConlluImporter.InsertKeySorted` | src/importer/conllu/mod.rs:161 | putting an id in order keeps the ids strictly increasing and adds exactly that id |
| `ConlluImporter.MapInsertSorted` | src/importer/conllu/mod.rs:152-161 | the id map stays strictly increasing and gains exactly the inserted id |
| `ConlluImporter.SentScanIds` | src/importer/conllu/mod.rs:156-195 | the ids of a sentence stay strictly increasing, are never lost, and are empty exactly when it has no token |
| `ConlluImporter.SentScanNoTokens` | src/importer/conllu/mod.rs:156-195 | a sentence without tokens never fails, appends nothing and gathers no ids |
| `ConlluImporter.MapSentenceNoTokens` | src/importer/conllu/mod.rs:196-254 | a sentence without tokens adds no sentence node and yields no token names |
| `ConlluImporter.SentenceEventsCover` | src/importer/conllu/mod.rs:196-218 | a sentence with tokens opens with its node and covers each of its tokens |
| `ConlluImporter.MapSentenceCovers` | src/importer/conllu/mod.rs:145-255 | the tokens returned are those of the ids in increasing id order; the sentence node exists and covers each of them whenever there is one |
| `ConlluImporter.DepOneEdge` | src/importer/conllu/mod.rs:219-228 | a dependency edge runs from head to dependent exactly when the head is not the root and names a token of the sentence |
| `ConlluImporter.DepEdgeIff` | src/importer/conllu/mod.rs:219-252 | the sentence has a `dep` edge exactly when some dependency with a known, non-root head gives it |
| `ConlluImporter.DepOneDeprel` | src/importer/conllu/mod.rs:229-240 | a `deprel` label sits on a dependency edge exactly when that edge exists and the line gives the relation |
| `ConlluImporter.DeprelIff` | src/importer/conllu/mod.rs:219-252 | the same for all dependencies of a sentence |
| `ConlluImporter.UnknownHeadsIff` | src/importer/conllu/mod.rs:241-250 | a head is reported exactly when it is not the root and names no token of the sentence |
| `ConlluImporter.MapDocumentOrders` | src/importer/conllu/mod.rs:133-141 | every pair of consecutive tokens of the document, across sentences, is linked in the base ordering |
| `ConlluImporter.MapFeature` | src/importer/conllu/mod.rs:306-323 | appends the label of one feature once name and value are seen |
| `ConlluImporter.MapItems` | src/importer/conllu/mod.rs:303-328 | appends the labels of a FEATS or MISC column up to its first `_` |
| `ConlluImporter.FindHead` | src/importer/conllu/mod.rs:330-337 | the head is the first id of the column, parsed |
| `ConlluImporter.MapMember` | src/importer/conllu/mod.rs:281-343 | one column does what its step specifies; on failure nothing is appended |
| `ConlluImporter.MapToken` | src/importer/conllu/mod.rs:257-357 | the log and the result are those of the token specification |
| `ConlluImporter.FindSAnno` | src/importer/conllu/mod.rs:172-192 | a sentence comment yields its trimmed name and value once both are seen |
| `ConlluImporter.AddDependency` | src/importer/conllu/mod.rs:219-251 | appends the edges of one dependency, and reports whether its head is known |
| `ConlluImporter.MapDependencies` | src/importer/conllu/mod.rs:219-252 | appends the edges of every dependency and collects the unknown heads |
| `ConlluImporter.AddSentence` | src/importer/conllu/mod.rs:196-253 | appends the sentence node, its annotations, its coverage and its dependencies |
| `ConlluImporter.MapSentence` | src/importer/conllu/mod.rs:145-255 | the log and the result are those of the sentence specification |
| `ConlluImporter.MapDocument` | src/importer/conllu/mod.rs:102-143 | the log and the result are those of the document specification |
| `ConlluExport.MapDependencyData` | src/exporter/conllu.rs:515-538 | fails exactly when the head or the dependent has no order index; no dependency gives `_` twice; the label column is the edge's label or `_` |
| `ConlluExport.HeadColumnIsHeadId` | src/exporter/conllu.rs:529 | for a head in the dependent's sentence the relative head column equals the head's own CoNLL id |
| `ConlluExport.HeadColumnsDistinct` | src/exporter/conllu.rs:529 | distinct head positions give distinct head columns |
| `ConlluExport.DependencySources` | src/exporter/conllu.rs:451-475 | a configured dependency component the graph lacks is an error; on success there is one source per existing component and one per label key |
| `ConlluExport.DependencySourcesErr` | src/exporter/conllu.rs:451-475 | the sources fail exactly when the configured component is missing or the numbers of components and label keys differ |
| `ConlluExport.ColumnProperties` | src/exporter/conllu.rs:357-404 | a feature column is `_` without entries, and otherwise its entries sorted (a permutation of them) and joined by `\|` |
| `ConlluExport.EntriesMembers` | src/exporter/conllu.rs:357-362 | every configured key with a value contributes its `name=value` entry, and there are none exactly when no key has a value |
| `ConlluExport.Enhanced` | src/exporter/conllu.rs:379-390 | the enhanced dependencies fail exactly when some head or the dependent is unknown; otherwise one entry per dependency |
| `ConlluExport.Fields` | src/exporter/conllu.rs:342-404 | a line fails exactly when the form is missing or a dependency cannot be mapped; otherwise it has ten columns, starting with the CoNLL id and the form |
| `ConlluExport.LineColumns` | src/exporter/conllu.rs:407 | splitting a written line at tabs gives back its ten columns when no column holds a tab |
| `ConlluExport.SentenceStart` | src/exporter/conllu.rs:333-341 | the sentence of a node starts at or before it |
| `ConlluExport.ExportIds` | src/exporter/conllu.rs:319-409 | the CoNLL id of each node counts the nodes of its sentence up to it, from 1 |
| `ConlluExport.ExportStep` | src/exporter/conllu.rs:330-410 | the export goes on after a node exactly when that node's line can be written with its id |
| `ConlluExport.HeadInSentence` | src/exporter/conllu.rs:371-377 | the head column of an exported node is its head's CoNLL id in the same sentence |
| `ConlluExport.ExportDocument` | src/exporter/conllu.rs:319-413 | succeeds exactly when the specification does, and then writes its text; on failure it returns the specification's message |
| `ConlluExport.ExportErrSticks` | src/exporter/conllu.rs:332-383 | once a node fails, the whole document fails with that node's message |
| `RelAnnis.CreateStrKey` | src/importer/relannis.rs:97-106 | the key is the UTF-8 bytes of the string followed by one `0` byte |
| `RelAnnis.StrKeyTerminated` | src/importer/relannis.rs:97-106 | the key of a string without NUL ends with its only `0` byte |
| `RelAnnis.U32Bytes` | src/importer/relannis.rs:120-122 | a `u32` is written as four bytes |
| `RelAnnis.U64Bytes` | src/importer/relannis.rs:200 | a node id is written as eight bytes |
| `RelAnnis.ReadU32Bytes` | src/importer/relannis.rs:120-140 | reading four big-endian bytes gives back the `u32` written |
| `RelAnnis.ReadU64Bytes` | src/importer/relannis.rs:200-214 | reading eight big-endian bytes gives back the node id written |
| `RelAnnis.TextPropertyKey` | src/importer/relannis.rs:117-124 | the key of a text position is its segmentation key followed by twelve id bytes |
| `RelAnnis.ParseTextProperty` | src/importer/relannis.rs:126-154 | parsing fails exactly when the key is shorter than the twelve id bytes (the length subtraction underflows) |
| `RelAnnis.ParseTextPropertyKey` | src/importer/relannis.rs:126-154 | parsing a created key gives back the three ids and the segmentation up to its first NUL |
| `RelAnnis.TextPropertyKeyText` | src/importer/relannis.rs:131-146 | the lossy text of a key, cut at its first NUL, is the segmentation cut at its first NUL |
| `RelAnnis.TextPropertyKeyIds` | src/importer/relannis.rs:120-140 | the last twelve bytes of the key are the corpus id, the text id and the value, big-endian |
| `RelAnnis.TextPropertyRoundTrip` | src/importer/relannis.rs:116-155 | a text position whose segmentation has no NUL parses back to itself |
| `RelAnnis.TextKeyBytes` | src/importer/relannis.rs:164-171 | the key of a text has four bytes, eight with a corpus reference |
| `RelAnnis.ParseTextKey` | src/importer/relannis.rs:173-185 | parsing fails exactly on keys shorter than four bytes, and finds a corpus reference exactly in an eight-byte key |
| `RelAnnis.TextKeyRoundTrip` | src/importer/relannis.rs:163-186 | every text key parses back to itself |
| `RelAnnis.NodeByTextEntryKey` | src/importer/relannis.rs:196-202 | the key of a node-by-text entry has sixteen bytes |
| `RelAnnis.ParseNodeByTextEntry` | src/importer/relannis.rs:204-221 | parsing fails exactly on keys that are not sixteen bytes long |
| `RelAnnis.NodeByTextEntryRoundTrip` | src/importer/relannis.rs:195-222 | every node-by-text entry parses back to itself |
| `RelAnnis.EscapeField` | src/importer/relannis.rs:441-484 | the loop over the characters computes the unescaped field |
| `RelAnnis.UnescapedEscaped` | src/importer/relannis.rs:441-484 | unescaping undoes backslash escaping of every character that has an escape |
| `RelAnnis.UnescapedShorter` | src/importer/relannis.rs:441-484 | unescaping never lengthens a field, and a field without backslash is unchanged |
| `RelAnnis.UnescapedBackslashes` | src/importer/relannis/tests.rs:191-210 | escaped backslashes become single backslashes |
| `RelAnnis.UnescapedControls` | src/importer/relannis/tests.rs:191-210 | `\n`, `\r` and `\t` become control characters, and other characters pass through |
| `RelAnnis.GetField` | src/importer/relannis.rs:420-439 | a missing position is an error naming column and file; `NULL` is no value; anything else is unescaped |
| `RelAnnis.GetFieldNotNull` | src/importer/relannis.rs:486-503 | fails exactly on a missing position or `NULL`, and otherwise gives the unescaped field; a `NULL` reports column, file and the record's line, or `<unknown>` when the record has no position |
| `RelAnnis.MissingColumnMessage` | src/importer/relannis/tests.rs:214-222 | the message for position 12 of `node.annis` is the one the test expects |
| `RelAnnis.Enclosing` | src/importer/relannis.rs:1606-1610 | the enclosing corpora are exactly those with a smaller pre-order rank and a larger post-order rank |
| `RelAnnis.EnclosingSorted` | src/importer/relannis.rs:1606-1609 | they come in ascending pre-order |
| `RelAnnis.Names` | src/importer/relannis.rs:1611 | one normalized name per enclosing corpus, in the same order |
| `RelAnnis.ParentPath` | src/importer/relannis.rs:1598-1602 | the path fails exactly for an unknown corpus id |
| `RelAnnis.ParentPathParts` | src/importer/relannis.rs:1598-1613 | the path of a known corpus joins with `/` the normalized names of exactly its enclosing corpora, in pre-order |
| `RelAnnis.RowNames` | src/importer/relannis.rs:536-551 | one final name per corpus row |
| `RelAnnis.RenameDocuments` | src/importer/relannis.rs:527-551 | the counting map renames each row as specified |
| `RelAnnis.DocumentCountGrows` | src/importer/relannis.rs:540-543 | each document of a name raises the count of that name |
| `RelAnnis.DocumentCountMonotone` | src/importer/relannis.rs:540-543 | counts never decrease along the table |
| `RelAnnis.DuplicatesRenamedApart` | src/importer/relannis.rs:536-551 | two documents with the same name end up with different names |
| `RelAnnis.FirstKeepsName` | src/importer/relannis.rs:536-551 | a corpus, or the first document of its name, keeps its name |
| `RelAnnis.TokenOrderEdges` | src/importer/relannis.rs:639-689 | the ordering fails exactly when a linked token has no node name; otherwise its edges are exactly those from each token to its predecessor in the same text and segmentation |
| `RelAnnis.AddTokenOrder` | src/importer/relannis.rs:639-689 | succeeds exactly when the specification does, and then appends its edges; on failure it returns the specification's message and the log holds the edges of the longest prefix that still succeeded |
| `RelAnnis.TokenOrderErrSticks` | src/importer/relannis.rs:670-675 | a missing node name fails the whole ordering, with that first message |
| `Bytes.EncodeChar` | src/importer/relannis.rs:100-101 | a character has one to four UTF-8 bytes, and a `0` byte only for NUL |
| `Bytes.Accepted` | src/importer/relannis.rs:131 | the lossy decoder consumes fewer bytes of an invalid sequence than its announced length |
| `Bytes.SequenceValue` | src/importer/relannis.rs:131 | a well-formed multi-byte sequence denotes a scalar value, never a surrogate |
| `Bytes.DecodeOne` | src/importer/relannis.rs:131 | each decoding step consumes at least one and at most the remaining bytes |
| `Bytes.DecodeTwo` | src/importer/relannis.rs:100-131 | a two-byte character decodes back to itself |
| `Bytes.DecodeThree` | src/importer/relannis.rs:100-131 | a three-byte character decodes back to itself |
| `Bytes.DecodeFour` | src/importer/relannis.rs:100-131 | a four-byte character decodes back to itself |
| `Bytes.DecodeOneEncodeChar` | src/importer/relannis.rs:100-131 | every character decodes back from its encoding, consuming exactly its bytes |
| `Bytes.DecodeEncodeAppend` | src/importer/relannis.rs:100-131 | decoding an encoded string followed by more bytes gives the string followed by the decoding of the rest |
| `Bytes.DecodeEncode` | src/importer/relannis.rs:100-131 | lossy decoding undoes UTF-8 encoding |
| `Bytes.EncodeNul` | src/importer/relannis.rs:99-103 | an encoded string holds a `0` byte exactly when it holds NUL |
| `Bytes.BeforeNul` | src/importer/relannis.rs:132-146 | the first piece of `split_terminator('\0')` is the longest NUL-free prefix, ending at the first NUL |
| `Bytes.BeforeNulAppend` | src/importer/relannis.rs:132-146 | text after a NUL does not change the first piece |
| `Bytes.BeforeNulNone` | src/importer/relannis.rs:132-146 | a string without NUL is its own first piece |
| `Bytes.Pow256Widths` | src/importer/relannis.rs:120-200 | the bounds of `u32` and `u64` are 256 to the power of their byte widths |
| `Bytes.ToBigEndian` | src/importer/relannis.rs:120-122 | a number below 256^n is written as n bytes |
| `Bytes.FromBigEndian` | src/importer/relannis.rs:134-140 | n bytes read as a number below 256^n |
| `Bytes.FromToBigEndian` | src/importer/relannis.rs:120-140 | reading big-endian bytes undoes writing them |
| `RelAnnis.ComponentTypeFromShortName` | src/importer/relannis.rs:1796-1804 | a code is accepted exactly when it is `c`, `d`, `p` or `o`; any other fails with the source's message |
| `RelAnnis.ShortNameOfParsed` | src/importer/relannis.rs:1796-1804 | an accepted code is the code of the type it yields |
| `RelAnnis.ParsedShortName` | src/importer/relannis.rs:1796-1804 | coverage, dominance, pointing and ordering are read back from their codes; the other types have no code |
| `Collapse.MembersAppend` | src/manipulator/collapse.rs:256-263 | the members of the hyperedges grow by exactly the new hyperedge |
| `Collapse.MembersCover` | src/manipulator/collapse.rs:256-263 | every hyperedge lies within the members |
| `Collapse.MembersBounded` | src/manipulator/collapse.rs:256-263 | hyperedges inside a set keep their members inside it |
| `Collapse.SeededMembers` | src/manipulator/collapse.rs:248-265 | every source node and every node reached from it is a member |
| `Collapse.InitialHyperedges` | src/manipulator/collapse.rs:247-265 | one hyperedge per source node: the nodes reached from it together with the source |
| `Collapse.Absorb` | src/manipulator/collapse.rs:279-285 | the joint edge contains the query edge and only members; every newly skipped edge is inside it; an edge that absorbed nothing is disjoint from every later edge |
| `Collapse.MergePass` | src/manipulator/collapse.rs:272-289 | one pass keeps the members, never adds an edge or an empty edge, and a pass that keeps the count returns the edges unchanged and pairwise disjoint; every input hyperedge lies inside some output hyperedge |
| `Collapse.CollectHyperedges` | src/manipulator/collapse.rs:238-294 | the hyperedges keep the members and are non-empty; with `disjoint` they are the seeded ones, otherwise they end pairwise disjoint; every seeded hyperedge lies inside one of the results |
| `Collapse.RelevantSuffix` | src/manipulator/collapse.rs:139-143 | the suffix is the part of the node name after its last `#` |
| `Collapse.FirstParentsDistinct` | src/manipulator/collapse.rs:129-147 | each parent occurs once among the keys |
| `Collapse.FirstParentsMembers` | src/manipulator/collapse.rs:144-147 | a parent is a key exactly when some member has it, and then it has suffixes |
| `Collapse.SuffixesOfMember` | src/manipulator/collapse.rs:144-147 | every member's suffix is grouped under its parent |
| `Collapse.SuffixesOfOnly` | src/manipulator/collapse.rs:144-147 | every grouped suffix comes from a member with that parent |
| `Collapse.GroupByParent` | src/manipulator/collapse.rs:129-148 | the groups have exactly the members' parents as keys, each with the suffixes of its members in order |
| `Collapse.GroupsAt` | src/manipulator/collapse.rs:149-150 | one entry per key, holding that key's suffixes |
| `Collapse.EntriesSorted` | src/manipulator/collapse.rs:149-150 | the entries come in strictly increasing key order |
| `Collapse.LabelPieces` | src/manipulator/collapse.rs:149-160 | one parent gives its own name; more parents give all pieces joined by `_`, with nothing left over |
| `Collapse.FirstTerminal` | src/manipulator/collapse.rs:163-167 | the first member without outgoing edges, if any |
| `Collapse.HypernodeName` | src/manipulator/collapse.rs:149-181 | the trace name is the one specified |
| `Collapse.KeptName` | src/manipulator/collapse.rs:161-178 | with `keep_name`, naming succeeds exactly when the first terminal member has a name, and the trace is that name |
| `Collapse.StemNamesDistinct` | src/manipulator/collapse.rs:180 | generated names of different ids differ |
| `Collapse.NodeEventsErrSticks` | src/manipulator/collapse.rs:198-205 | a member without a name fails the whole hypernode |
| `Collapse.AssignLookup` | src/manipulator/collapse.rs:186-187 | every member is mapped to the trace; other nodes keep their mapping |
| `Collapse.AddHypernode` | src/manipulator/collapse.rs:182-206 | succeeds exactly when the specification does, then appends its events and maps the members to the trace |
| `Collapse.NodeEventsContents` | src/manipulator/collapse.rs:182-206 | succeeds exactly when every member has a name; the trace node comes first; every member is deleted except the one that gave its kept name; only members are deleted |
| `Collapse.LabelsContents` | src/manipulator/collapse.rs:356-371 | a label is moved exactly when its key is transferable, onto the hypernode, with its value |
| `Collapse.TransferFilter` | src/manipulator/collapse.rs:357-370 | only node labels of the hypernode; never the node name; no `annis` label from a non-terminal; every label outside `annis` moves |
| `Collapse.TransferNodeAnnos` | src/manipulator/collapse.rs:334-376 | succeeds exactly when the specification does and then appends its events; on failure nothing is appended |
| `Collapse.TransfersErrSticks` | src/manipulator/collapse.rs:320-321 | a member whose labels cannot be moved fails the hyperedge |
| `Collapse.CollapseHyperedge` | src/manipulator/collapse.rs:296-332 | succeeds exactly when the specification does and then appends its events |
| `Collapse.Offset` | src/manipulator/collapse.rs:115-123 | the offset counts node names containing the hypernode stem |
| `Collapse.StemNameCounted` | src/manipulator/collapse.rs:115-180 | every generated name contains the stem, so a later run counts it |
| `Collapse.Names` | src/manipulator/collapse.rs:127-181 | one name per hyperedge |
| `Collapse.NamesAt` | src/manipulator/collapse.rs:127-181 | the i-th name is the trace of the i-th hyperedge with id `i + offset` |
| `Collapse.NamingErrSticks` | src/manipulator/collapse.rs:127-208 | a failing hypernode fails the whole naming |
| `Collapse.JoiningErrSticks` | src/manipulator/collapse.rs:213-222 | a failing hyperedge fails the whole joining |
| `Collapse.NameOne` | src/manipulator/collapse.rs:128-206 | on success, one hyperedge gets its trace name, the events of its hypernode and its mapping |
| `Collapse.NameAll` | src/manipulator/collapse.rs:127-208 | on success, all hyperedges get their names, their hypernode events, and the map of every member to its trace |
| `Collapse.NamingSame` | src/manipulator/collapse.rs:127-208 | naming depends only on the traces of the hyperedges seen so far |
| `Collapse.Collapse` | src/manipulator/collapse.rs:104-236 | on success, the hypernode events of all hyperedges followed by the joining events over the complete hypernode map |
| `Collapse.HypernodeMapAt` | src/manipulator/collapse.rs:186-187 | a member not in any later hyperedge is mapped to its own hyperedge's trace |
| `Collapse.GeneratedNamesDistinct` | src/manipulator/collapse.rs:127-180 | without `keep_name`, the hypernodes get pairwise distinct names |
| `Merge.ParsePolicyIff` | src/manipulator/merge.rs:68-78 | a policy parses exactly when the trimmed, lower-cased value is `fail`, `drop` or `forward`, and then it is that policy |
| `Merge.ReadPolicyNames` | src/manipulator/merge.rs:51-78 | an absent policy is `fail`; every policy's own name reads back as that policy |
| `Merge.CleanValue` | src/manipulator/merge.rs:80-88 | the loop computes the cleaned value |
| `Merge.CleanedMembers` | src/manipulator/merge.rs:80-88 | a character survives cleaning exactly when it is in the value and not to be removed |
| `Merge.CleanedAppend` | src/manipulator/merge.rs:80-88 | cleaning distributes over concatenation |
| `Merge.CleanedUntouched` | src/manipulator/merge.rs:80-88 | a value without removable characters is unchanged |
| `Merge.CleanedIdempotent` | src/manipulator/merge.rs:80-88 | cleaning twice is cleaning once |
| `Merge.ValuesMatchIff` | src/manipulator/merge.rs:490-495 | without optional characters values match exactly when equal; otherwise exactly when their cleaned forms are equal |
| `Merge.Matches` | src/manipulator/merge.rs:490-495 | the method decides the match |
| `Merge.DecideCases` | src/manipulator/merge.rs:490-560 | merge exactly on a match; keep the other node exactly when only the reference is optional; skip it exactly when only the other is optional; a mismatch exactly when neither is |
| `Merge.InnerMapsOffered` | src/manipulator/merge.rs:461-543 | a mapped node is the unused one or one the cursor passed, and the cursor never goes back |
| `Merge.InnerEvents` | src/manipulator/merge.rs:496-523 | events are emitted only by a merge, which maps the node, ends in its deletion and raises no flag |
| `Merge.InnerFlag` | src/manipulator/merge.rs:536-559 | an optional reference never flags the document; a required one that finds no node flags it when reporting |
| `Merge.InnerMissing` | src/manipulator/merge.rs:484-490 | an offered node without the ordering's value ends the alignment (the `unwrap` panics) with nothing emitted or mapped; such a node lies among those not yet passed, an ordering whose nodes all have values never ends so, and an offered first node without one always does |
| `Merge.InnerKeepsOther` | src/manipulator/merge.rs:527-531 | an other node kept for later is held as unused and the reference is not mapped |
| `Merge.InnerMergesEqual` | src/manipulator/merge.rs:490-523 | an equal value merges: its labels move to the reference, the node is deleted and mapped, and the cursor advances |
| `Merge.InnerSkip` | src/manipulator/merge.rs:532-534 | skipping an optional other node continues with the next one |
| `Merge.TransferLabels` | src/manipulator/merge.rs:498-512 | appends one label per label outside `annis` and the ordering names, onto the reference node |
| `Merge.AlignOne` | src/manipulator/merge.rs:459-563 | cursor, mapping, flag and events of one ordering's alignment are those specified |
| `Merge.NamesMapToRef` | src/manipulator/merge.rs:459-563 | aligning one reference adds no mapping except onto the reference |
| `Merge.NamesKeepFlag` | src/manipulator/merge.rs:542-558 | a flagged document stays flagged |
| `Merge.NamesFailSticks` | src/manipulator/merge.rs:459-490 | once an `unwrap` has failed, no later ordering is aligned and the loop stays failed |
| `Merge.NamesValued` | src/manipulator/merge.rs:459-490 | when every node of the other orderings has its value, the middle loop never fails |
| `Merge.NamesNext` | src/manipulator/merge.rs:459-563 | the orderings are aligned one after the other, each from its own cursor |
| `Merge.AlignRef` | src/manipulator/merge.rs:459-564 | aligning every ordering against one reference gives the specified cursors, mapping, flag and events |
| `Merge.RefsErr` | src/manipulator/merge.rs:448-490 | a kept node without a value fails the document; when every node of the other orderings has its value, the document fails exactly then |
| `Merge.RefsErrSticks` | src/manipulator/merge.rs:448-490 | once a kept node fails, the whole document fails |
| `Merge.RefsOtherUnvalued` | src/manipulator/merge.rs:484-490 | a first node of another ordering without its value, offered to the first kept node, fails the document |
| `Merge.RefsMapToKept` | src/manipulator/merge.rs:448-565 | every new mapping points to a kept node |
| `Merge.RefsNext` | src/manipulator/merge.rs:448-565 | the kept nodes are processed in order |
| `Merge.AlignKept` | src/manipulator/merge.rs:448-565 | one more kept node extends the specified state |
| `Merge.MapDoc` | src/manipulator/merge.rs:446-565 | succeeds exactly when the specification does, with its mapping, flag and events |
| `Merge.NamesShift` | src/manipulator/merge.rs:459-563 | alignment does not depend on the events already emitted |
| `Merge.MissingKeepFlagged` | src/manipulator/merge.rs:433-445 | a document without the kept ordering is recorded as erroneous |
| `Merge.ErrorsGrow` | src/manipulator/merge.rs:542-558 | the erroneous documents only grow from one document to the next |
| `Merge.TextNodeMapper.constructor` | src/manipulator/merge.rs:600-606 | a new mapper has the configuration and no erroneous documents |
| `Merge.TextNodeMapper.MapTextNodes` | src/manipulator/merge.rs:423-568 | succeeds exactly when the specification does, with its mapping, events and newly erroneous documents |
| `Merge.DocsErrBeyond` | src/manipulator/merge.rs:456-470 | an error ends the mapping of all later documents |
| `SortMatches.SplitPathAndNodename` | src/util/sort_matches.rs:156-160 | with a `#`, path and node name rejoin to the full name and the node name has no `#` (the split is at the last one); without, the path is the whole name and the node name empty |
| `SortMatches.NonEmpty` | src/util/sort_matches.rs:163-164 | no empty segment is kept |
| `SortMatches.CompareSegmentsEqual` | src/util/sort_matches.rs:162-179 | two segment lists are equal exactly when their comparison is `Equal` |
| `SortMatches.CompareSegmentsAntisymmetric` | src/util/sort_matches.rs:162-179 | swapping the paths reverses the comparison |
| `SortMatches.CompareSegmentsPrefix` | src/util/sort_matches.rs:165-178 | a path that is a proper prefix of another comes first |
| `SortMatches.CompareDocumentPathProperties` | src/util/sort_matches.rs:162-179 | paths compare equal exactly when their non-empty segments agree; the comparison is antisymmetric |
| `SortMatches.CompareSegmentsCommon` | src/util/sort_matches.rs:165-172 | a common leading segment does not change the comparison |
| `SortMatches.CompareStringsSuffix` | src/util/sort_matches.rs:167 | a common prefix does not change the comparison of two strings |
| `SortMatches.CompareLastSegments` | src/util/sort_matches.rs:165-172 | paths that differ only in the last segment compare like that segment |
| `SortMatches.TigerSegmentOrder` | src/util/sort_matches.rs:192-196 | `tiger_release_dec05_110` comes before `tiger_release_dec05_1_1` |
| `SortMatches.SegmentsOfThree` | src/util/sort_matches.rs:163-164 | a path of three non-empty names joined by `/` splits into exactly those names |
| `SortMatches.TigerDocumentOrder` | src/util/sort_matches.rs:192-196 | `compare_document_path("tiger2/tiger2/tiger_release_dec05_110", "tiger2/tiger2/tiger_release_dec05_1_1")` is `Less`, as the source's test asserts |
| `SortMatches.CompareKeysProperties` | src/util/sort_matches.rs:59-61 | annotation keys compare equal exactly when equal, and antisymmetrically |
| `SortMatches.CompareMatchEqual` | src/util/sort_matches.rs:52-153 | two matches compare equal exactly when they are the same node with the same key |
| `SortMatches.CompareNamedAntisymmetric` | src/util/sort_matches.rs:85-151 | on an acyclic token order, swapping two named nodes reverses their comparison |
| `SortMatches.CompareMatchAntisymmetric` | src/util/sort_matches.rs:52-153 | on an acyclic token order, swapping two matches reverses their comparison |
| `SortMatches.CompareGroupsEqual` | src/util/sort_matches.rs:31-50 | two match groups compare equal exactly when they are the same |
| `SortMatches.CompareGroupsLongerFirst` | src/util/sort_matches.rs:38-49 | a group that extends another comes before it |
| `SortMatches.CompareGroupsAntisymmetric` | src/util/sort_matches.rs:31-50 | on an acyclic token order, swapping two groups reverses their comparison |
| `Documentation.UnescapeBackslash` | src/util/documentation.rs:16-58 | the loop computes the specified unescaping |
| `Documentation.UnescapeStep` | src/util/documentation.rs:21-53 | one character, or an escape and the character it consumes, is processed at a time |
| `Documentation.UnescapeShorter` | src/util/documentation.rs:16-58 | unescaping never lengthens a string |
| `Documentation.UnescapeNoBackslash` | src/util/documentation.rs:24-52 | a string without a backslash is unchanged |
| `Documentation.UnescapeKeepsOther` | src/util/documentation.rs:38-52 | a backslash before a character that is not an escape, or at the end, is kept |
| `Documentation.UnescapeEscape` | src/util/documentation.rs:16-58 | unescaping inverts escaping |
| `Documentation.UnescapeDollar` | src/util/documentation.rs:103 | `ab\$c` becomes `ab$c` |
| `Documentation.UnescapeBackslashes` | src/util/documentation.rs:104 | escaped backslashes become single ones |
| `Documentation.UnescapeQuoteTab` | src/util/documentation.rs:105 | `\'` and `\t` become a quote and a tab |
| `Documentation.UnescapeNewline` | src/util/documentation.rs:106 | `\n` becomes a newline |
| `Documentation.CleanLinesAt` | src/util/documentation.rs:7-10 | every line is trimmed at the start and unescaped |
| `Documentation.CleanStringCons` | src/util/documentation.rs:7-12 | the cleaned lines are joined by newlines |
| `UpdateEvent.NodesExpansion` | src/estarde/update_event.rs:153-165 | a node instruction adds one node of its type per listed name, in order |
| `UpdateEvent.DefaultNodes` | src/estarde/update_event.rs:284-315 | without a type the nodes get type `node` |
| `UpdateEvent.ProductLength` | src/estarde/update_event.rs:221-244 | the cartesian product has the product of the lengths |
| `UpdateEvent.ProductSingle` | src/estarde/update_event.rs:221-244 | the product of two singletons is one pair |
| `UpdateEvent.ProductAt` | src/estarde/update_event.rs:221-244 | the pairs come in row-major order |
| `UpdateEvent.ProductMember` | src/estarde/update_event.rs:221-244 | a pair is in the product exactly when its parts are in the factors |
| `UpdateEvent.RemoveNodeLabelsExpansion` | src/estarde/update_event.rs:219-227 | removing labels from nodes deletes every key from every node, node by node |
| `UpdateEvent.RemoveEdgeLabelsExpansion` | src/estarde/update_event.rs:238-253 | removing labels from edges deletes every key from every edge, edge by edge, in the instruction's component |
| `UpdateEvent.RemoveNodeLabelsMember` | src/estarde/update_event.rs:219-227 | a node label is deleted exactly when its node and key are listed |
| `UpdateEvent.FromEventErr` | src/estarde/update_event.rs:13-137 | conversion fails exactly for an edge event with an unknown component type |
| `UpdateEvent.FromEventIntoInner` | src/estarde/update_event.rs:13-258 | a converted event expands back to itself |
| `UpdateEvent.DeserializeAppend` | src/estarde/update_event.rs:259-267 | reading concatenated instructions gives the concatenated events |
| `UpdateEvent.SerializeRoundTrip` | src/estarde/update_event.rs:259-275 | writing and reading back gives the events that can be written, in order |
| `UpdateEvent.SerialisableAll` | src/estarde/update_event.rs:269-275 | when every event can be written, the round trip gives back all of them |
| `SplitValues.AllTo` | src/manipulator/split.rs:44-48 | every value of one layer is mapped to that layer and nothing else is mapped |
| `SplitValues.ValueMapIff` | src/manipulator/split.rs:44-48 | a value is mapped exactly when some layer lists it, and then to the last layer that lists it |
| `SplitValues.ValueMapHas` | src/manipulator/split.rs:44-48 | a value is mapped exactly when some layer lists it |
| `SplitValues.ValueMapLast` | src/manipulator/split.rs:44-48 | a mapped value names a layer that lists it and no later layer lists it |
| `SplitValues.IndexKeysIff` | src/manipulator/split.rs:49-62 | a position has a key exactly when some index entry names it, and then it is that entry's qualified key |
| `SplitValues.IndexKeysHas` | src/manipulator/split.rs:49-62 | a position has a key exactly when some index entry names it |
| `SplitValues.IndexKeysLast` | src/manipulator/split.rs:49-62 | a position's key comes from the last entry naming it |
| `SplitValues.Map` | src/manipulator/split.rs:96-125 | appends the labels specified for the split parts of the value |
| `SplitValues.PartLabelsSound` | src/manipulator/split.rs:104-123 | at most one label per part, each on the node and holding one of the parts |
| `SplitValues.PartLabelsComplete` | src/manipulator/split.rs:104-123 | a part at a position with a key gets a label under that key; otherwise a part listed in a layer gets a label under that layer |
| `SplitValues.PartLabelsCount` | src/manipulator/split.rs:104-123 | exactly one label per part that has an index key or a layer |
| `SplitValues.MapFound` | src/manipulator/split.rs:72-84 | appends the specified events for one found node |
| `SplitValues.ManipulateCorpus` | src/manipulator/split.rs:34-92 | appends the specified events for every found node, in order |
| `SplitValues.DeletedUnlessKept` | src/manipulator/split.rs:73-80 | without `keep`, the conflated label of every named found node is deleted |
| `SplitValues.KeptNeverDeleted` | src/manipulator/split.rs:71-86 | with `keep`, the manipulator only adds labels |
| `SplitValues.FoundKept` | src/manipulator/split.rs:72-84 | with `keep`, one found node only gets labels |
| `Check.Expand` | src/manipulator/check.rs:216-270 | the loop produces the specified AQL tests of one test |
| `Check.InterleaveShape` | src/manipulator/check.rs:241-266 | two entries per layer, the first and second of each in turn |
| `Check.LayerTestsShape` | src/manipulator/check.rs:241-266 | every layer gives an existence test followed by a value test |
| `Check.LayerQueries` | src/manipulator/check.rs:242-253 | with an edge both queries are wrapped around it; without, the existence query is the annotation and the value query the negated value list |
| `Check.InvalidValueQueryLists` | src/manipulator/check.rs:243-244 | the value query is the annotation, `!=/`, the values joined by `\|`, and `/`; the values can be read back from it |
| `Check.RunTest` | src/manipulator/check.rs:158-193 | an error exactly when the query fails; a failure carries the query and its matches |
| `Check.PassCriteria` | src/manipulator/check.rs:162-183 | a test passes exactly when the match count meets the expectation: equal, equal to another query's count, inside the closed interval, or inside the half-open interval |
| `Check.LayerTestsPass` | src/manipulator/check.rs:254-263 | an existence test passes exactly when there is a match; a value test exactly when there is none |
| `Check.RunAll` | src/manipulator/check.rs:146-154 | one result per AQL test, in order |
| `Check.RunTests` | src/manipulator/check.rs:137-156 | the results of every test's AQL tests, test by test |
| `Check.ResultsOfShape` | src/manipulator/check.rs:146-154 | each result is the description and outcome of the matching AQL test |
| `Check.FailedChecksIff` | src/manipulator/check.rs:62-66 | no failed checks exactly when all pass; a description is listed exactly when a test with it did not pass |
| `Check.VerdictIff` | src/manipulator/check.rs:62-81 | nothing is reported exactly when all tests pass; under `fail` the report lists the failed checks |
| `Events.ParseTypeName` | src/estarde/update_event.rs:63-67 | every component type's name parses back to that type |
| `Events.ParseType` | src/estarde/update_event.rs:63-67 | a parsed component type has the given name |
| `Events.ChainAt` | py/graphupdate_util.py:118-120 | a chain over n nodes has n - 1 edges, edge i joining node i to node i + 1 |
| `Events.AddChain` | py/graphupdate_util.py:118-120 | appends the chain of edges over the nodes, in order |
| `Sorting.SortedDistinctProperties` | py/TextgridImporter.py:41 | `sorted(set(...))` is strictly increasing and holds exactly the given values |
| `Sorting.SortByPermutes` | src/importer/exmaralda/mod.rs:229-235 | sorting is a permutation |
| `Sorting.SortBySorted` | src/importer/exmaralda/mod.rs:229-235 | sorting by a total preorder gives a sorted sequence |
| `Sorting.SortByIdentity` | src/importer/exmaralda/mod.rs:229-235 | a sequence that is already sorted is kept as it is, because the sort is stable |
| `Strings.SplitQName` | src/manipulator/split.rs:43-53 | a qualified name is split into namespace and name around `::`; without one there is no namespace |
| `Strings.ToLower` | src/manipulator/merge.rs:71 | same length, each character lower-cased |

## Left out

- File, directory, XML, pest grammar, CSV and workbook parsing, and all other I/O: every importer starts from the tuples its parser yields. The Rust EXMARaLDA XML reader and its text trimming are not part of this model; the importer starts from the reader's events.
- The graphannis graph store, AQL execution and graph storages: the store is the event sequence; check's corpus is a function from query to result; merge and sort_matches read node labels, left tokens and the token order from plain data.
- Progress reporting, status messages and warnings sent over channels, and logging: they do not change the events emitted.
- In the Python importers, times arrive already parsed and are modelled as integers. Only their order and equality are used there, and a time label is the decimal rendering of the integer.
- Strings.ParseInt: reads an optional sign and ASCII digits only. Python's `int()` also skips surrounding whitespace and accepts `_` between digits and non-ASCII decimal digits. The callers strip the text first, so only the `_` and non-ASCII forms are rejected here although Python reads them.
- Strings.IsFloatLiteral: the same holds for Python's `float()`, which also reads `inf`, `infinity` and `nan` in any case; the TextGrid importer rejects them here. Rust's `f64` parse takes no `_` and no whitespace, so for the EXMARaLDA importer only the `inf`/`nan` words differ.
- GraphUpdateUtil.MapToken: the tokenization name is always a string here. Python also accepts `None`, which skips the text label and reads `None` in the time error message. The PTB importer does pass `None` when no layer is configured (py/PTBImporter.py:31, :55, :90). `PtbImporter.Layer` turns that into the empty name, and `map_token` treats an empty name exactly like `None` (both skip the text label). The PTB importer gives no times, so the error message cannot arise, and the events are the same.
- ConlluExport.MapDependencyData: the head column is computed on unbounded integers. Rust casts the positions to `i32` first, which changes the result only for documents with more than 2^31 nodes.
- ConlluExport.ExportDocument: Rust writes each line to the output as it goes, so a failing document leaves the lines before the failure written. The model collects the text and returns only the error message, so that partial output is not modelled.
- PtbImporter.Squeeze: whitespace means space, tab, newline and carriage return. Python's `\s` also matches form feed, vertical tab and the Unicode whitespace characters, and the model leaves those in the text.
- Collapse.HypernodeName: the members of a hyperedge come in the order the caller lists them. The manipulator iterates a `BTreeSet` of node ids, which lists them in ascending id order. The model takes that order from the caller and does not require it; the generated name and the order of the moved annotations follow it.
- Check.LayerTests: the layers of a layer test are a sequence of name and value-list pairs in the given order. The source reads them from a `BTreeMap` (src/manipulator/check.rs:280), whose names are distinct and ascending. The model does not require that; given such a sequence, it builds the source's tests in the source's order.
- SplitValues.ValueMap: the layer map and the index map are sequences of pairs, where the source has `BTreeMap`s (src/manipulator/split.rs:26-28) with distinct, ascending keys. The model does not require distinct or ordered keys. When a value is listed under two layers, the later one wins, as in the source's collected map.
- Exmaralda.ParseTime: a tli time is the exact rational value of its decimal literal. Rounding to the nearest `f64` is not modelled, and neither are `inf`, `infinity` and `nan`, which Rust also parses; such a tli is rejected here.
- Exmaralda.TimeString: the time label shows the exact decimal digits of the time, cut after 17 fractional digits. Rust prints the shortest digits that round-trip through `f64`; the two agree on the short decimals EXMARaLDA files carry.
- check's `SemiOpenInterval` with a floating-point upper bound: an infinite or NaN bound is modelled as no bound, and a finite one as its ceiling, so the float arithmetic is not modelled.
- ASCII and a small set of whitespace characters only: `strip`, `trim` and `lower` are modelled on ASCII, with no Unicode case folding or Unicode whitespace.
- Python importers that cannot run as written are modelled as evidently intended:
  - the spreadsheet importer passes `add_annis_layer` to `map_token`, which takes no such argument;
  - it compares `None >= None` when it calls `map_token_as_span` without times;
  - it calls an undefined `map_annotation_to_existing_node`; this is modelled as adding the label to the existing span.
  - The TextGrid findings below are other cases of this.
- In the Python EXMARaLDA importer, a token event without text is taken as the empty string. The timeline before `_read_timeline` (Python's `None`) is modelled as an empty map.
- The Rust EXMARaLDA importer's referenced files and audio linking are not part of this model.
- Panics of the Rust code are modelled as an error result that ends the operation: an `unwrap` on nothing, a slice out of range, a `usize` underflow.
- Branches that the preceding code makes unreachable are not modelled as reachable, for example the `with_context` error of the xlsx segmentation lookup.
- The xlsx metasheet (`import_metasheet`) is not part of this model; only the data sheet is.
- The collapse manipulator's `reconnect_components` and the graph traversal that finds the reachable nodes are not part of this model: the reachable set of each source node is an input.
- Merge's `handle_document_errors`, which deletes or reports erroneous documents through the graph store, and its rewiring of the other components through the node map, are not part of this model.
- Merge flags a document whose other ordering ran out of nodes only when a status sender exists. The model keeps this as `Config.reporting`.
- The relANNIS importer's `get_corpus_path`, and everything else that reads the relANNIS tables from disk, is not part of this model.
- The LRU caches of `SortCache` are not modelled: they only remember lookups and never change a comparison's result.
- The documentation module's `ModuleInfo` conversion over reflected type shapes is not part of this model; only the string cleaning is.
- Module discovery, `start_import`, workflow execution and path structure are not part of this model.
- The textual syntax of the edit instructions (the `do` tag and field names) is not modelled; only their expansion into events is.
- Collapse.NameOne: states the result of a successful naming only; when it fails, the appended events are not characterised.
- Collapse.NameAll: states the result of a successful naming only; when it fails, the appended events are not characterised.
- Collapse.Collapse: states the events of a successful collapse only; which inputs make it fail is not characterised.
- ConlluImporter.ParseUsize: states only that an accepted number is below the `usize` limit, together with `ParseUsizeOfNat`; it does not characterise every string Rust's parser rejects.

## Findings

| source | as written | input that shows it | evidently intended | confidence | as-written member | corrected member |
|---|---|---|---|---|---|---|
| py/TextgridImporter.py:42-43 | the window loop runs to the last index of the timeline, whose slice has one element, so the unpacking into `start, end` fails | any timeline with at least one point | one empty token per pair of consecutive points | not executed | `TextgridImporter.UnpackWindowsAsWrittenFails` | `TextgridImporter.WindowsTile` |
| py/TextgridImporter.py:46-50 | in multi-token mode the tier token counter starts at the number of empty tokens, so the first tier token reuses the last empty token's id | a multi-token document with at least one empty token | tier tokens numbered after the empty tokens | not executed | `TextgridImporter.FirstTierTokenIdAsWrittenCollides` | `TextgridImporter.TierTokenIdsFresh` |
| py/TextgridImporter.py:36 | the tier names are collected into a set of lists, which raises `unhashable type: 'list'` | any non-empty tier map | the set of all configured tier names | not executed | `TextgridImporter.TierNamesAsWrittenFails` | `TextgridImporter.TierNamesComplete` |
| py/TextgridImporter.py:44-55 | in multi-token mode the ordering pass unpacks every key of the shared dictionary into three parts, but the empty tokens' keys have two, so it fails | a multi-token document with one empty token | each tier's ordering over that tier's own tokens | not executed | `TextgridImporter.MultiTokOrderingAsWrittenFails` | `TextgridImporter.TierIdsOfTier` |
| py/PTBImporter.py:57-64 | the argument meant as the edge layer is passed positionally, so it becomes an extra dominance target; without a layer name every leaf structure dominates a node named `''` | any tree imported without a layer | structures dominate only their children | not executed | `PtbImporter.LeafAsWrittenDominatesNameless` | `PtbImporter.LeafEventsContents` |
| py/PTBImporter.py:64 | the same extra target in phrase structures: without a layer name each one dominates a node named `''` | any phrase imported without a layer | phrase structures dominate only their children | not executed | `PtbImporter.PhraseAsWrittenDominatesNameless` | `PtbImporter.PhraseEventsContents` |
| py/CoNLLImporter.py:30-33 | `not l` tests the list of split columns, which is never empty, so blank lines never end a sentence | a file with two sentences separated by a blank line | a blank line ends the sentence | not executed | `ConllImporter.ReadAsWrittenOneSentence` | `ConllImporter.ReadSound` |
| py/graphupdate_util.py:54-57 | `add_subnode` replaces `os.pathsep` (':' on POSIX) rather than the path separator, so a document path containing ':' gets a corpus node of another name | the path `a:b/doc` | the corpus node is named by the path itself | not executed | `GraphUpdateUtil.SubnodeAsWrittenRenames` | `GraphUpdateUtil.AddSubnode` |
| src/importer/xlsx.rs:263-266 | the end row of a segmentation node is looked up at its own start row, so the coverage target is `tok_r-r`, which names no node | any valid segmentation row r | the target is the node from r to the next valid row | not executed | `Xlsx.SegTargetAsWrittenMissing` | `Xlsx.SegTargetIsWindow` |
| src/importer/exmaralda/mod.rs:229-250 | tli ids with the same time share one empty token, and the base ordering is built over the ids, so it links that token to itself | two tlis `a` and `b` with the same time | one ordering edge between consecutive distinct tokens | not executed | `Exmaralda.SelfLoopAsWritten` | `Exmaralda.TimelineOrderingNoSelfLoop` |
