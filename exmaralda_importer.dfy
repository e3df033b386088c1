/**
 * The Python EXMARaLDA importer. Reading the XML is outside the model: the importer
 * starts from the parts of the transcription it looks at (the timeline items, the urls
 * of the referenced files and the tiers with their events). The timeline maps tli ids
 * to times; every token tier of a speaker becomes a run of tokens ordered by time, and
 * every annotation tier a run of spans over the speaker's tokens.
 */
module ExmaraldaImporter {
  import opened Wrappers
  import opened Strings
  import opened Events
  import opened Dicts
  import opened Sorting
  import opened GraphUpdateUtil

  const TypeTok := "t"
  const TypeAnnotation := "a"
  const NodeTypeKey := "node_type"
  const FileNodeType := "file"
  const FileKey := "file"

  /** A timeline item: its `id` and its `time` attribute, when present. */
  datatype Tli = Tli(id: Option<string>, time: Option<int>)

  /** An event of a tier: its `start` and `end` attributes and its text, when present. */
  datatype ExEvent = ExEvent(start: Option<string>, end: Option<string>, text: Option<string>)

  /** A tier: its `type`, `category` and `speaker` attributes and its events. */
  datatype Tier = Tier(tierType: Option<string>, category: Option<string>, speaker: Option<string>, events: seq<ExEvent>)

  /** What the importer reads of a transcription, in document order. */
  datatype Transcription = Transcription(tlis: seq<Tli>, referencedUrls: seq<string>, tiers: seq<Tier>)

  /** The message of the `KeyError` a missing attribute or an unknown tli raises. */
  function KeyErrorMsg(key: string): string
  {
    "KeyError: " + key
  }

  // ---------------------------------------------------------------- _read_timeline

  /** The times of the tlis from the `k`-th on, added to `tl`; a timed tli without id raises. */
  function TimelineFrom(tlis: seq<Tli>, k: nat, tl: map<string, int>): Result<map<string, int>>
    decreases |tlis| - k
  {
    if k >= |tlis| then Ok(tl)
    else if tlis[k].time.None? then TimelineFrom(tlis, k + 1, tl)
    else if tlis[k].id.None? then Err(KeyErrorMsg("id"))
    else TimelineFrom(tlis, k + 1, tl[tlis[k].id.value := tlis[k].time.value])
  }

  /** A timed tli with id `id` at or after `k`. */
  predicate TimedAt(tlis: seq<Tli>, j: nat, id: string)
  {
    j < |tlis| && tlis[j].id == Some(id) && tlis[j].time.Some?
  }

  /** Reading the timeline fails exactly when a timed tli has no id. */
  lemma {:induction false} TimelineErr(tlis: seq<Tli>, k: nat, tl: map<string, int>)
    ensures TimelineFrom(tlis, k, tl).Err? <==> exists j :: k <= j < |tlis| && tlis[j].time.Some? && tlis[j].id.None?
    decreases |tlis| - k
  {
    if k < |tlis| {
      if tlis[k].time.None? {
        TimelineErr(tlis, k + 1, tl);
      } else if tlis[k].id.Some? {
        TimelineErr(tlis, k + 1, tl[tlis[k].id.value := tlis[k].time.value]);
      }
    }
  }

  /** The timeline holds exactly the ids of the timed tlis. */
  lemma {:induction false} TimelineKeys(tlis: seq<Tli>, k: nat, tl: map<string, int>)
    ensures TimelineFrom(tlis, k, tl).Ok? ==>
      forall id :: id in TimelineFrom(tlis, k, tl).value <==> id in tl || exists j :: k <= j < |tlis| && TimedAt(tlis, j, id)
    decreases |tlis| - k
  {
    if k < |tlis| {
      if tlis[k].time.None? {
        TimelineKeys(tlis, k + 1, tl);
      } else if tlis[k].id.Some? {
        TimelineKeys(tlis, k + 1, tl[tlis[k].id.value := tlis[k].time.value]);
        assert TimedAt(tlis, k, tlis[k].id.value);
        forall id | TimedAt(tlis, k, id) ensures id == tlis[k].id.value {
        }
      }
    }
  }

  /** An id no later timed tli has keeps its time. */
  lemma {:induction false} TimelineKept(tlis: seq<Tli>, k: nat, tl: map<string, int>, id: string)
    requires id in tl && forall j :: k <= j < |tlis| ==> !TimedAt(tlis, j, id)
    ensures TimelineFrom(tlis, k, tl).Ok? ==> id in TimelineFrom(tlis, k, tl).value && TimelineFrom(tlis, k, tl).value[id] == tl[id]
    decreases |tlis| - k
  {
    if k < |tlis| {
      if tlis[k].time.None? {
        TimelineKept(tlis, k + 1, tl, id);
      } else if tlis[k].id.Some? {
        assert !TimedAt(tlis, k, id);
        TimelineKept(tlis, k + 1, tl[tlis[k].id.value := tlis[k].time.value], id);
      }
    }
  }

  /** Each id gets the time of the last timed tli with that id. */
  lemma {:induction false} TimelineLast(tlis: seq<Tli>, k: nat, tl: map<string, int>, j: nat)
    requires k <= j < |tlis| && tlis[j].id.Some? && tlis[j].time.Some?
    requires forall j' :: j < j' < |tlis| ==> !TimedAt(tlis, j', tlis[j].id.value)
    ensures TimelineFrom(tlis, k, tl).Ok? ==>
      tlis[j].id.value in TimelineFrom(tlis, k, tl).value && TimelineFrom(tlis, k, tl).value[tlis[j].id.value] == tlis[j].time.value
    decreases |tlis| - k
  {
    if tlis[k].time.None? {
      TimelineLast(tlis, k + 1, tl, j);
    } else if tlis[k].id.Some? {
      var tl' := tl[tlis[k].id.value := tlis[k].time.value];
      if j == k {
        TimelineKept(tlis, k + 1, tl', tlis[k].id.value);
      } else {
        TimelineLast(tlis, k + 1, tl', j);
      }
    }
  }

  // ---------------------------------------------------------------- _map_audio_source

  function IsAbs(p: string): bool
  {
    |p| > 0 && p[0] == '/'
  }

  /** `os.path.join` of two parts: an absolute second part replaces the first. */
  function PathJoin(a: string, b: string): string
  {
    if IsAbs(b) || a == [] then b
    else if a[|a| - 1] == '/' then a + b
    else a + "/" + b
  }

  /** `os.path.basename`: what follows the last slash. */
  function BaseName(p: string): (r: string)
    ensures '/' !in r
  {
    match LastIndexOf(p, '/')
    case None => p
    case Some(i) => p[i + 1..]
  }

  /** `map_audio_source`: the file node, its type and path, and its part-of edge to the document. */
  function AudioEvents(audio: string, docPath: string): seq<Event>
  {
    [Node(audio), AddNodeLabel(audio, AnnisNs, NodeTypeKey, FileNodeType), AddNodeLabel(audio, AnnisNs, FileKey, audio),
     Edge(audio, docPath, AnnisNs, PartOf, "")]
  }

  /** The log, the media node and the outcome after mapping the referenced media file. */
  datatype MediaRun = MediaRun(events: seq<Event>, mediaNode: Option<string>, result: Result<()>)

  /**
   * `_map_audio_source`: nothing once a media node is mapped or when no file is referenced;
   * more than one referenced file raises; a missing file is only logged; otherwise the file,
   * named after the document's directory and the file's name, becomes the media node.
   */
  function AudioSourceOf(events: seq<Event>, mediaNode: Option<string>, urls: seq<string>, sourceDir: string,
                         path: string, fileExists: string -> bool): MediaRun
  {
    if mediaNode.Some? || urls == [] then MediaRun(events, mediaNode, Ok(()))
    else if |urls| > 1 then MediaRun(events, mediaNode, Err("More than one referenced file in " + BaseName(path) + "."))
    else
      var file := PathJoin(sourceDir, urls[0]);
      if !fileExists(file) then MediaRun(events, mediaNode, Ok(()))
      else
        var audio := PathJoin(DirName(path), BaseName(file));
        MediaRun(events + AudioEvents(audio, path), Some(audio), Ok(()))
  }

  /** Mapping the media raises exactly when it is not yet mapped and more than one file is referenced; a failure changes nothing. */
  lemma AudioSourceRaises(events: seq<Event>, mediaNode: Option<string>, urls: seq<string>, sourceDir: string,
                          path: string, fileExists: string -> bool)
    ensures AudioSourceOf(events, mediaNode, urls, sourceDir, path, fileExists).result.Err? <==> mediaNode.None? && |urls| > 1
    ensures AudioSourceOf(events, mediaNode, urls, sourceDir, path, fileExists).result.Err? ==>
      AudioSourceOf(events, mediaNode, urls, sourceDir, path, fileExists).events == events
  {
  }

  /** After a mapping that succeeds, mapping the media again changes nothing. */
  lemma AudioSourceOnce(events: seq<Event>, mediaNode: Option<string>, urls: seq<string>, sourceDir: string,
                        path: string, fileExists: string -> bool)
    requires AudioSourceOf(events, mediaNode, urls, sourceDir, path, fileExists).result.Ok?
    ensures var m := AudioSourceOf(events, mediaNode, urls, sourceDir, path, fileExists);
      AudioSourceOf(m.events, m.mediaNode, urls, sourceDir, path, fileExists) == MediaRun(m.events, m.mediaNode, Ok(()))
  {
  }

  /** A mapped media file lies in the document's directory, as the document's media node, and is part of the document. */
  lemma AudioSourceMapped(events: seq<Event>, urls: seq<string>, sourceDir: string, path: string, fileExists: string -> bool)
    requires |urls| == 1 && fileExists(PathJoin(sourceDir, urls[0]))
    ensures var m := AudioSourceOf(events, None, urls, sourceDir, path, fileExists);
      && m.result.Ok? && m.mediaNode.Some?
      && m.mediaNode.value == PathJoin(DirName(path), BaseName(PathJoin(sourceDir, urls[0])))
      && m.events == events + AudioEvents(m.mediaNode.value, path)
  {
  }

  // ---------------------------------------------------------------- _map_tokenizations

  /** A token as the tier lists it: start time, end time and text. */
  type Tok = (int, int, string)

  /** Python's order on `(start, end, text)` tuples. */
  function TokLe(a: Tok, b: Tok): bool
  {
    a.0 < b.0 || (a.0 == b.0 && (a.1 < b.1 || (a.1 == b.1 && StringLe(a.2, b.2))))
  }

  lemma TokLeTotal()
    ensures TotalPreorder(TokLe)
  {
    StringLeTotal();
    forall a: Tok, b: Tok, c: Tok | TokLe(a, b) && TokLe(b, c) ensures TokLe(a, c) {
      if a.0 == b.0 == c.0 && a.1 == b.1 == c.1 {
        CompareStringsTransitive(a.2, b.2, c.2);
      }
    }
  }

  /** The time of the tli an attribute names; a missing attribute or an unknown tli raises. */
  function Lookup(tl: map<string, int>, key: Option<string>, attr: string): Result<int>
  {
    if key.None? then Err(KeyErrorMsg(attr))
    else if key.value !in tl then Err(KeyErrorMsg(key.value))
    else Ok(tl[key.value])
  }

  /** The text of an event; a token event without text is taken as empty. */
  function TextOf(e: ExEvent): string
  {
    if e.text.Some? then e.text.value else ""
  }

  /** The tokens of the events from the `k`-th on, after `toks`; the first unknown time raises. */
  function TierTokens(tl: map<string, int>, evs: seq<ExEvent>, k: nat, toks: seq<Tok>): Result<seq<Tok>>
    decreases |evs| - k
  {
    if k >= |evs| then Ok(toks)
    else match Lookup(tl, evs[k].start, "start")
      case Err(e) => Err(e)
      case Ok(s) =>
        match Lookup(tl, evs[k].end, "end")
        case Err(e) => Err(e)
        case Ok(t) => TierTokens(tl, evs, k + 1, toks + [(s, t, TextOf(evs[k]))])
  }

  /** An entry of `_spk2tok[speaker]`: a token id and its start and end. */
  type TokEntry = (string, (int, int))

  /** The log, the token entries, the token count and the outcome of a run of `map_token` calls. */
  datatype TokRun = TokRun(events: seq<Event>, entries: seq<TokEntry>, count: nat, result: Result<()>)

  /**
   * The sorted tokens from the `i`-th on, numbered after `count`; a token whose start is
   * not before its end raises after its events, as `map_token` does.
   */
  function MapTokensOf(path: string, category: string, toks: seq<Tok>, i: nat, events: seq<Event>,
                       entries: seq<TokEntry>, count: nat): TokRun
    decreases |toks| - i
  {
    if i >= |toks| then TokRun(events, entries, count, Ok(()))
    else
      var t := toks[i];
      var events' := events + TokenEvents(path, count + 1, category, t.2, Some(t.0), Some(t.1));
      if t.0 >= t.1 then TokRun(events', entries, count + 1, Err(TimeErrorMsg(count + 1, t.2, category)))
      else MapTokensOf(path, category, toks, i + 1, events', entries + [(TokenId(path, count + 1), (t.0, t.1))], count + 1)
  }

  /** The order of `_spk2tok` entries by `(start, end)`. */
  function StartEndLe(a: TokEntry, b: TokEntry): bool
  {
    a.1.0 < b.1.0 || (a.1.0 == b.1.0 && a.1.1 <= b.1.1)
  }

  /** What the token tiers change: the log, `_spk2tok` and the token count. */
  datatype TokState = TokState(events: seq<Event>, spk2tok: map<string, seq<TokEntry>>, count: nat)

  datatype TokTierRun = TokTierRun(state: TokState, result: Result<()>)

  /**
   * One token tier: it needs a category and a speaker that has no tokenization yet; its
   * tokens are sorted by `(start, end, text)`, numbered on, and ordered by `(start, end)`
   * in an ordering named after the category.
   */
  function TokenTierOf(path: string, tl: map<string, int>, tier: Tier, st: TokState): TokTierRun
  {
    if tier.category.None? then TokTierRun(st, Err(KeyErrorMsg("category")))
    else if tier.speaker.None? then TokTierRun(st, Err("Tier " + tier.category.value + " has no speaker assigned."))
    else if tier.speaker.value in st.spk2tok then
      TokTierRun(st, Err("Speaker " + tier.speaker.value + " has more than one tokenization."))
    else match TierTokens(tl, tier.events, 0, [])
      case Err(e) => TokTierRun(st, Err(e))
      case Ok(toks) =>
        var run := MapTokensOf(path, tier.category.value, SortBy(toks, TokLe), 0, st.events, [], st.count);
        var spk := st.spk2tok[tier.speaker.value := run.entries];
        if run.result.Err? then TokTierRun(TokState(run.events, spk, run.count), run.result)
        else TokTierRun(TokState(run.events + Chain(Keys(SortBy(run.entries, StartEndLe)), AnnisNs, Ordering, tier.category.value),
                                 spk, run.count), run.result)
  }

  /** The outcome of a token tier whose category, speaker and times are in order, field by field. */
  lemma TokenTierMapped(path: string, tl: map<string, int>, tier: Tier, st: TokState, toks: seq<Tok>)
    requires tier.category.Some? && tier.speaker.Some? && tier.speaker.value !in st.spk2tok
    requires TierTokens(tl, tier.events, 0, []) == Ok(toks)
    ensures TokenTierOf(path, tl, tier, st).state.spk2tok
         == st.spk2tok[tier.speaker.value := MapTokensOf(path, tier.category.value, SortBy(toks, TokLe), 0, st.events, [], st.count).entries]
    ensures TokenTierOf(path, tl, tier, st).state.count == MapTokensOf(path, tier.category.value, SortBy(toks, TokLe), 0, st.events, [], st.count).count
    ensures TokenTierOf(path, tl, tier, st).result == MapTokensOf(path, tier.category.value, SortBy(toks, TokLe), 0, st.events, [], st.count).result
    ensures MapTokensOf(path, tier.category.value, SortBy(toks, TokLe), 0, st.events, [], st.count).result.Err? ==>
      TokenTierOf(path, tl, tier, st).state.events == MapTokensOf(path, tier.category.value, SortBy(toks, TokLe), 0, st.events, [], st.count).events
    ensures MapTokensOf(path, tier.category.value, SortBy(toks, TokLe), 0, st.events, [], st.count).result.Ok? ==>
      TokenTierOf(path, tl, tier, st).state.events == MapTokensOf(path, tier.category.value, SortBy(toks, TokLe), 0, st.events, [], st.count).events
        + Chain(Keys(SortBy(MapTokensOf(path, tier.category.value, SortBy(toks, TokLe), 0, st.events, [], st.count).entries, StartEndLe)),
                AnnisNs, Ordering, tier.category.value)
  {
  }

  predicate IsTokenTier(t: Tier)
  {
    t.tierType == Some(TypeTok)
  }

  /** `_map_tokenizations`: the token tiers from the `i`-th tier on, in document order; the first failure stops it. */
  function TokenizationsFrom(path: string, tl: map<string, int>, tiers: seq<Tier>, i: nat, st: TokState): TokTierRun
    decreases |tiers| - i
  {
    if i >= |tiers| then TokTierRun(st, Ok(()))
    else if !IsTokenTier(tiers[i]) then TokenizationsFrom(path, tl, tiers, i + 1, st)
    else
      var r := TokenTierOf(path, tl, tiers[i], st);
      if r.result.Err? then r else TokenizationsFrom(path, tl, tiers, i + 1, r.state)
  }

  /** The tokens of a tier are put in `(start, end, text)` order, none lost or added. */
  lemma SortedTokens(toks: seq<Tok>)
    ensures SortedBy(SortBy(toks, TokLe), TokLe)
    ensures multiset(SortBy(toks, TokLe)) == multiset(toks)
  {
    TokLeTotal();
    SortBySorted(toks, TokLe);
    SortByPermutes(toks, TokLe);
  }

  /** The run maps every token exactly when each starts before it ends. */
  lemma {:induction false} MapTokensOk(path: string, category: string, toks: seq<Tok>, i: nat, events: seq<Event>,
                                       entries: seq<TokEntry>, count: nat)
    ensures MapTokensOf(path, category, toks, i, events, entries, count).result.Ok? <==>
      forall j :: i <= j < |toks| ==> toks[j].0 < toks[j].1
    decreases |toks| - i
  {
    MapTokensTimed(path, category, toks, i, events, entries, count);
    TimedFromAll(toks, i);
  }

  /** Every token from the `i`-th on starts before it ends, stated one token at a time. */
  predicate TimedFrom(toks: seq<Tok>, i: nat)
    decreases |toks| - i
  {
    i >= |toks| || (toks[i].0 < toks[i].1 && TimedFrom(toks, i + 1))
  }

  lemma {:induction false} MapTokensTimed(path: string, category: string, toks: seq<Tok>, i: nat, events: seq<Event>,
                                          entries: seq<TokEntry>, count: nat)
    ensures MapTokensOf(path, category, toks, i, events, entries, count).result.Ok? <==> TimedFrom(toks, i)
    decreases |toks| - i
  {
    if i < |toks| && toks[i].0 < toks[i].1 {
      var t := toks[i];
      var events' := events + TokenEvents(path, count + 1, category, t.2, Some(t.0), Some(t.1));
      var entries' := entries + [(TokenId(path, count + 1), (t.0, t.1))];
      MapTokensTimed(path, category, toks, i + 1, events', entries', count + 1);
    }
  }

  lemma {:induction false} TimedFromAll(toks: seq<Tok>, i: nat)
    ensures TimedFrom(toks, i) <==> forall j :: i <= j < |toks| ==> toks[j].0 < toks[j].1
    decreases |toks| - i
  {
    if i < |toks| {
      TimedFromAll(toks, i + 1);
    }
  }

  /** The entries a run of `map_token` calls adds: one per token up to the first that does not start before it ends. */
  function TokEntriesOf(path: string, toks: seq<Tok>, i: nat, entries: seq<TokEntry>, count: nat): seq<TokEntry>
    decreases |toks| - i
  {
    if i >= |toks| || toks[i].0 >= toks[i].1 then entries
    else TokEntriesOf(path, toks, i + 1, entries + [(TokenId(path, count + 1), (toks[i].0, toks[i].1))], count + 1)
  }

  /** The entries of a run do not depend on the log it appends to. */
  lemma {:induction false} MapTokensEntries(path: string, category: string, toks: seq<Tok>, i: nat, events: seq<Event>,
                                            entries: seq<TokEntry>, count: nat)
    ensures MapTokensOf(path, category, toks, i, events, entries, count).entries == TokEntriesOf(path, toks, i, entries, count)
    decreases |toks| - i
  {
    if i < |toks| && toks[i].0 < toks[i].1 {
      var t := toks[i];
      MapTokensEntries(path, category, toks, i + 1, events + TokenEvents(path, count + 1, category, t.2, Some(t.0), Some(t.1)),
                       entries + [(TokenId(path, count + 1), (t.0, t.1))], count + 1);
    }
  }

  /** Tokens that all start before they end are numbered consecutively after `count`, each entry holding its id, start and end. */
  lemma {:induction false} TokEntriesNumbered(path: string, toks: seq<Tok>, i: nat, entries: seq<TokEntry>, count: nat)
    requires i <= |toks|
    requires forall j :: i <= j < |toks| ==> toks[j].0 < toks[j].1
    ensures |TokEntriesOf(path, toks, i, entries, count)| == |entries| + |toks| - i
    ensures forall j :: 0 <= j < |entries| ==> TokEntriesOf(path, toks, i, entries, count)[j] == entries[j]
    ensures forall k :: |entries| <= k < |TokEntriesOf(path, toks, i, entries, count)| ==>
      TokEntriesOf(path, toks, i, entries, count)[k].0 == TokenId(path, count + 1 + k - |entries|)
      && TokEntriesOf(path, toks, i, entries, count)[k].1 == (toks[i + k - |entries|].0, toks[i + k - |entries|].1)
    decreases |toks| - i
  {
    if i < |toks| {
      var entries' := entries + [(TokenId(path, count + 1), (toks[i].0, toks[i].1))];
      TokEntriesNumbered(path, toks, i + 1, entries', count + 1);
      var es := TokEntriesOf(path, toks, i + 1, entries', count + 1);
      assert es[|entries|] == entries'[|entries|];
    }
  }

  /**
   * For tokens in `(start, end, text)` order, sorting the entries by `(start, end)` keeps
   * them as numbered: the ordering chain runs through the tokens in their sorted order.
   */
  lemma TierOrdering(path: string, category: string, toks: seq<Tok>, events: seq<Event>, count: nat)
    requires SortedBy(toks, TokLe)
    ensures MapTokensOf(path, category, toks, 0, events, [], count).result.Ok? ==>
      var es := MapTokensOf(path, category, toks, 0, events, [], count).entries;
      SortBy(es, StartEndLe) == es
      && |Keys(es)| == |toks| && forall j :: 0 <= j < |toks| ==> Keys(es)[j] == TokenId(path, count + 1 + j)
  {
    if MapTokensOf(path, category, toks, 0, events, [], count).result.Ok? {
      MapTokensOk(path, category, toks, 0, events, [], count);
      MapTokensEntries(path, category, toks, 0, events, [], count);
      TierEntriesSorted(path, toks, count);
    }
  }

  /** The entries of tokens in `(start, end, text)` order are already sorted by `(start, end)`, and numbered in that order. */
  lemma TierEntriesSorted(path: string, toks: seq<Tok>, count: nat)
    requires SortedBy(toks, TokLe)
    requires forall j :: 0 <= j < |toks| ==> toks[j].0 < toks[j].1
    ensures var es := TokEntriesOf(path, toks, 0, [], count);
      SortBy(es, StartEndLe) == es
      && |Keys(es)| == |toks| && forall j :: 0 <= j < |toks| ==> Keys(es)[j] == TokenId(path, count + 1 + j)
  {
    TokEntriesNumbered(path, toks, 0, [], count);
    var es := TokEntriesOf(path, toks, 0, [], count);
    assert SortedBy(es, StartEndLe) by {
      forall a, b | 0 <= a < b < |es| ensures StartEndLe(es[a], es[b]) {
        assert TokLe(toks[a], toks[b]);
        assert es[a].1 == (toks[a].0, toks[a].1) && es[b].1 == (toks[b].0, toks[b].1);
      }
    }
    SortByIdentity(es, StartEndLe);
    forall j | 0 <= j < |toks| ensures Keys(es)[j] == TokenId(path, count + 1 + j) {
      assert es[j].0 == TokenId(path, count + 1 + j);
    }
  }

  /**
   * When the token tiers map, every token tier has a category and a speaker, and no two
   * token tiers, nor a tier and an earlier tokenization, share a speaker.
   */
  lemma {:induction false} TokenizationSpeakers(path: string, tl: map<string, int>, tiers: seq<Tier>, i: nat, st: TokState)
    ensures TokenizationsFrom(path, tl, tiers, i, st).result.Ok? ==>
      forall j :: i <= j < |tiers| && IsTokenTier(tiers[j]) ==>
        && tiers[j].category.Some? && tiers[j].speaker.Some?
        && tiers[j].speaker.value !in st.spk2tok
        && forall j' :: j < j' < |tiers| && IsTokenTier(tiers[j']) ==> tiers[j'].speaker != tiers[j].speaker
    decreases |tiers| - i
  {
    if i < |tiers| {
      if !IsTokenTier(tiers[i]) {
        TokenizationSpeakers(path, tl, tiers, i + 1, st);
      } else {
        var r := TokenTierOf(path, tl, tiers[i], st);
        if r.result.Ok? {
          TokenizationSpeakers(path, tl, tiers, i + 1, r.state);
          assert tiers[i].speaker.value in r.state.spk2tok;
          assert forall x :: x in st.spk2tok ==> x in r.state.spk2tok;
        }
      }
    }
  }

  // ---------------------------------------------------------------- _map_annotations

  /** An event with the time of its start, the key the events of a tier are sorted by. */
  type Keyed = (int, ExEvent)

  function KeyLe(a: Keyed, b: Keyed): bool
  {
    a.0 <= b.0
  }

  lemma KeyLeTotal()
    ensures TotalPreorder(KeyLe)
  {
  }

  /** The start times of the events from the `k`-th on, after `keyed`; an unknown start raises. */
  function StartKeys(tl: map<string, int>, evs: seq<ExEvent>, k: nat, keyed: seq<Keyed>): Result<seq<Keyed>>
    decreases |evs| - k
  {
    if k >= |evs| then Ok(keyed)
    else match Lookup(tl, evs[k].start, "start")
      case Err(e) => Err(e)
      case Ok(s) => StartKeys(tl, evs, k + 1, keyed + [(s, evs[k])])
  }

  /** The events of an annotation tier are put in order of their start times, none lost or added. */
  lemma SortedEvents(keyed: seq<Keyed>)
    ensures SortedBy(SortBy(keyed, KeyLe), KeyLe)
    ensures multiset(SortBy(keyed, KeyLe)) == multiset(keyed)
  {
    KeyLeTotal();
    SortBySorted(keyed, KeyLe);
    SortByPermutes(keyed, KeyLe);
  }

  /** `(start, end, id)` for each entry of a speaker's tokens. */
  function SpeakerTokens(entries: seq<TokEntry>): (r: seq<Tok>)
    ensures |r| == |entries|
    ensures forall j :: 0 <= j < |entries| ==> r[j] == (entries[j].1.0, entries[j].1.1, entries[j].0)
  {
    if entries == [] then []
    else SpeakerTokens(entries[..|entries| - 1]) + [(entries[|entries| - 1].1.0, entries[|entries| - 1].1.1, entries[|entries| - 1].0)]
  }

  /** The ids of the tokens that lie inside `[start, end]`, in their order. */
  function Covered(tokens: seq<Tok>, start: int, end: int): seq<string>
  {
    if tokens == [] then []
    else
      var t := tokens[|tokens| - 1];
      Covered(tokens[..|tokens| - 1], start, end) + (if t.0 >= start && t.1 <= end then [t.2] else [])
  }

  /** An id is covered exactly when a token with that id starts at or after `start` and ends at or before `end`. */
  lemma {:induction false} CoveredIff(tokens: seq<Tok>, start: int, end: int, id: string)
    ensures id in Covered(tokens, start, end) <==> exists k :: 0 <= k < |tokens| && tokens[k].2 == id && tokens[k].0 >= start && tokens[k].1 <= end
  {
    if tokens != [] {
      var init := tokens[..|tokens| - 1];
      CoveredIff(init, start, end, id);
      if exists k :: 0 <= k < |init| && init[k].2 == id && init[k].0 >= start && init[k].1 <= end {
        var k :| 0 <= k < |init| && init[k].2 == id && init[k].0 >= start && init[k].1 <= end;
        assert tokens[k] == init[k];
      }
      if exists k :: 0 <= k < |tokens| && tokens[k].2 == id && tokens[k].0 >= start && tokens[k].1 <= end {
        var k :| 0 <= k < |tokens| && tokens[k].2 == id && tokens[k].0 >= start && tokens[k].1 <= end;
        if k < |init| {
          assert init[k] == tokens[k];
        }
      }
    }
  }

  /** The log and the span count of a run of `map_annotation` calls. */
  datatype SpanRun = SpanRun(events: seq<Event>, count: nat, result: Result<()>)

  /**
   * The sorted events from the `i`-th on: an unknown end raises; an event without text is
   * skipped; any other becomes the next span, labelled with its stripped text in the
   * speaker's namespace and covering the speaker's tokens inside it.
   */
  function MapSpansOf(path: string, speaker: string, category: string, tl: map<string, int>, tokens: seq<Tok>,
                      evs: seq<Keyed>, i: nat, events: seq<Event>, count: nat): SpanRun
    decreases |evs| - i
  {
    if i >= |evs| then SpanRun(events, count, Ok(()))
    else match Lookup(tl, evs[i].1.end, "end")
      case Err(e) => SpanRun(events, count, Err(e))
      case Ok(end) =>
        if evs[i].1.text.None? then MapSpansOf(path, speaker, category, tl, tokens, evs, i + 1, events, count)
        else
          var span := LabelledNodeEvents(SpanId(path, count + 1), speaker, category, Trim(evs[i].1.text.value),
                                         Covered(tokens, evs[i].0, end), Coverage, "");
          MapSpansOf(path, speaker, category, tl, tokens, evs, i + 1, events + span, count + 1)
  }

  /** The number of events from the `i`-th on that have a text. */
  function TextCount(evs: seq<Keyed>, i: nat): nat
    decreases |evs| - i
  {
    if i >= |evs| then 0 else (if evs[i].1.text.Some? then 1 else 0) + TextCount(evs, i + 1)
  }

  /** Every event with a text, and only those, becomes a span: the spans are numbered on without gaps. */
  lemma {:induction false} SpanCount(path: string, speaker: string, category: string, tl: map<string, int>, tokens: seq<Tok>,
                                     evs: seq<Keyed>, i: nat, events: seq<Event>, count: nat)
    ensures MapSpansOf(path, speaker, category, tl, tokens, evs, i, events, count).result.Ok? ==>
      MapSpansOf(path, speaker, category, tl, tokens, evs, i, events, count).count == count + TextCount(evs, i)
    ensures MapSpansOf(path, speaker, category, tl, tokens, evs, i, events, count).result.Ok? <==>
      forall j :: i <= j < |evs| ==> Lookup(tl, evs[j].1.end, "end").Ok?
    decreases |evs| - i
  {
    if i < |evs| && Lookup(tl, evs[i].1.end, "end").Ok? {
      var end := Lookup(tl, evs[i].1.end, "end").value;
      if evs[i].1.text.None? {
        SpanCount(path, speaker, category, tl, tokens, evs, i + 1, events, count);
      } else {
        var span := LabelledNodeEvents(SpanId(path, count + 1), speaker, category, Trim(evs[i].1.text.value),
                                       Covered(tokens, evs[i].0, end), Coverage, "");
        SpanCount(path, speaker, category, tl, tokens, evs, i + 1, events + span, count + 1);
      }
    }
  }

  /** The number of events in `[i, j)` that have a text. */
  function TextsBetween(evs: seq<Keyed>, i: nat, j: nat): nat
    requires j <= |evs|
    decreases j - i
  {
    if i >= j then 0 else (if evs[i].1.text.Some? then 1 else 0) + TextsBetween(evs, i + 1, j)
  }

  /** A run of spans only appends to the log. */
  lemma {:induction false} SpansPrefix(path: string, speaker: string, category: string, tl: map<string, int>, tokens: seq<Tok>,
                                       evs: seq<Keyed>, i: nat, events: seq<Event>, count: nat)
    ensures events <= MapSpansOf(path, speaker, category, tl, tokens, evs, i, events, count).events
    decreases |evs| - i
  {
    if i < |evs| && Lookup(tl, evs[i].1.end, "end").Ok? {
      var end := Lookup(tl, evs[i].1.end, "end").value;
      if evs[i].1.text.None? {
        SpansPrefix(path, speaker, category, tl, tokens, evs, i + 1, events, count);
      } else {
        var span := LabelledNodeEvents(SpanId(path, count + 1), speaker, category, Trim(evs[i].1.text.value),
                                       Covered(tokens, evs[i].0, end), Coverage, "");
        SpansPrefix(path, speaker, category, tl, tokens, evs, i + 1, events + span, count + 1);
      }
    }
  }

  /**
   * An event with a text, in a run that maps every event, becomes the span numbered after
   * the texts before it: the span node, its label holding the stripped text (for a named
   * tier), and a coverage edge to each token inside the event's times.
   */
  lemma {:induction false} SpanMapped(path: string, speaker: string, category: string, tl: map<string, int>, tokens: seq<Tok>,
                                      evs: seq<Keyed>, i: nat, events: seq<Event>, count: nat, j: nat)
    requires i <= j < |evs| && evs[j].1.text.Some? && Lookup(tl, evs[j].1.end, "end").Ok?
    requires MapSpansOf(path, speaker, category, tl, tokens, evs, i, events, count).result.Ok?
    ensures Node(SpanId(path, count + TextsBetween(evs, i, j) + 1)) in MapSpansOf(path, speaker, category, tl, tokens, evs, i, events, count).events
    ensures category != "" ==>
      AddNodeLabel(SpanId(path, count + TextsBetween(evs, i, j) + 1), speaker, category, Trim(evs[j].1.text.value))
        in MapSpansOf(path, speaker, category, tl, tokens, evs, i, events, count).events
    ensures forall t :: t in Covered(tokens, evs[j].0, Lookup(tl, evs[j].1.end, "end").value) ==>
      Edge(SpanId(path, count + TextsBetween(evs, i, j) + 1), t, AnnisNs, Coverage, "")
        in MapSpansOf(path, speaker, category, tl, tokens, evs, i, events, count).events
    decreases |evs| - i
  {
    var end := Lookup(tl, evs[i].1.end, "end").value;
    if i == j {
      var id := SpanId(path, count + 1);
      var targets := Covered(tokens, evs[i].0, end);
      var span := LabelledNodeEvents(id, speaker, category, Trim(evs[i].1.text.value), targets, Coverage, "");
      SpansPrefix(path, speaker, category, tl, tokens, evs, i + 1, events + span, count + 1);
      var final := MapSpansOf(path, speaker, category, tl, tokens, evs, i, events, count).events;
      assert TextsBetween(evs, i, j) == 0;
      LabelledNodeEventsContents(id, speaker, category, Trim(evs[i].1.text.value), targets, Coverage, "");
      forall e | e in span ensures e in final {
        var k :| 0 <= k < |span| && span[k] == e;
        assert (events + span)[|events| + k] == e;
      }
      forall t | t in targets ensures Edge(id, t, AnnisNs, Coverage, "") in final {
        LabelledNodeTargets(id, speaker, category, Trim(evs[i].1.text.value), targets, Coverage, "", t);
      }
    } else if evs[i].1.text.None? {
      SpanMapped(path, speaker, category, tl, tokens, evs, i + 1, events, count, j);
    } else {
      var span := LabelledNodeEvents(SpanId(path, count + 1), speaker, category, Trim(evs[i].1.text.value),
                                     Covered(tokens, evs[i].0, end), Coverage, "");
      SpanMapped(path, speaker, category, tl, tokens, evs, i + 1, events + span, count + 1, j);
    }
  }

  predicate IsAnnotationTier(t: Tier)
  {
    t.tierType == Some(TypeAnnotation)
  }

  /**
   * One annotation tier: it needs a speaker with a tokenization and a category; its events,
   * sorted by start time, become spans over that speaker's tokens sorted by `(start, end, id)`.
   */
  function AnnotationTierOf(path: string, tl: map<string, int>, spk2tok: map<string, seq<TokEntry>>, tier: Tier,
                            events: seq<Event>, count: nat): SpanRun
  {
    if tier.speaker.None? then SpanRun(events, count, Err(KeyErrorMsg("speaker")))
    else if tier.category.None? then SpanRun(events, count, Err(KeyErrorMsg("category")))
    else if tier.speaker.value !in spk2tok then SpanRun(events, count, Err(KeyErrorMsg(tier.speaker.value)))
    else match StartKeys(tl, tier.events, 0, [])
      case Err(e) => SpanRun(events, count, Err(e))
      case Ok(keyed) =>
        MapSpansOf(path, tier.speaker.value, tier.category.value, tl, SortBy(SpeakerTokens(spk2tok[tier.speaker.value]), TokLe),
                   SortBy(keyed, KeyLe), 0, events, count)
  }

  /** `_map_annotations`: the annotation tiers from the `i`-th tier on; the first failure stops it. */
  function AnnotationsFrom(path: string, tl: map<string, int>, spk2tok: map<string, seq<TokEntry>>, tiers: seq<Tier>, i: nat,
                           events: seq<Event>, count: nat): SpanRun
    decreases |tiers| - i
  {
    if i >= |tiers| then SpanRun(events, count, Ok(()))
    else if !IsAnnotationTier(tiers[i]) then AnnotationsFrom(path, tl, spk2tok, tiers, i + 1, events, count)
    else
      var r := AnnotationTierOf(path, tl, spk2tok, tiers[i], events, count);
      if r.result.Err? then r else AnnotationsFrom(path, tl, spk2tok, tiers, i + 1, r.events, r.count)
  }

  // ---------------------------------------------------------------- map

  /** What the importer changes: the log, the media node, the tokenizations and the timeline. */
  datatype ImportState = ImportState(events: seq<Event>, mediaNode: Option<string>, spk2tok: map<string, seq<TokEntry>>,
                                     timeline: map<string, int>)

  datatype ImportRun = ImportRun(state: ImportState, result: Result<()>)

  /** `map`: the timeline, the media file, the token tiers and the annotation tiers, in that order; the first failure stops it. */
  function MapOf(tr: Transcription, sourceDir: string, path: string, fileExists: string -> bool, st: ImportState): ImportRun
  {
    match TimelineFrom(tr.tlis, 0, map[])
    case Err(e) => ImportRun(st, Err(e))
    case Ok(tl) =>
      var m := AudioSourceOf(st.events, st.mediaNode, tr.referencedUrls, sourceDir, path, fileExists);
      if m.result.Err? then ImportRun(ImportState(m.events, m.mediaNode, st.spk2tok, tl), m.result)
      else
        var t := TokenizationsFrom(path, tl, tr.tiers, 0, TokState(m.events, st.spk2tok, 0));
        if t.result.Err? then ImportRun(ImportState(t.state.events, m.mediaNode, t.state.spk2tok, tl), t.result)
        else
          var a := AnnotationsFrom(path, tl, t.state.spk2tok, tr.tiers, 0, t.state.events, 0);
          ImportRun(ImportState(a.events, m.mediaNode, t.state.spk2tok, tl), a.result)
  }

  /** `map_audio_source`: appends the media file's events. */
  method AddAudioSource(u: Update, audio: string, docPath: string)
    modifies u
    ensures u.events == old(u.events) + AudioEvents(audio, docPath)
  {
    u.Add(Node(audio));
    u.Add(AddNodeLabel(audio, AnnisNs, NodeTypeKey, FileNodeType));
    u.Add(AddNodeLabel(audio, AnnisNs, FileKey, audio));
    u.Add(Edge(audio, docPath, AnnisNs, PartOf, ""));
  }

  /** The import of one transcription into the graph update `u`. */
  class Import {
    const transcription: Transcription
    const sourceDir: string
    const path: string
    const u: Update
    var mediaNode: Option<string>
    var spk2tok: map<string, seq<TokEntry>>
    var timeline: map<string, int>

    constructor (transcription: Transcription, sourceDir: string, path: string, u: Update)
      ensures this.transcription == transcription && this.sourceDir == sourceDir && this.path == path && this.u == u
      ensures mediaNode == None && spk2tok == map[] && timeline == map[]
    {
      this.transcription := transcription;
      this.sourceDir := sourceDir;
      this.path := path;
      this.u := u;
      mediaNode := None;
      spk2tok := map[];
      timeline := map[];
    }

    /** `_read_timeline`: the times of the timed tlis; a failure leaves the timeline as it was. */
    method ReadTimeline() returns (r: Result<()>)
      modifies this
      ensures r.Ok? <==> TimelineFrom(transcription.tlis, 0, map[]).Ok?
      ensures r.Ok? ==> timeline == TimelineFrom(transcription.tlis, 0, map[]).value
      ensures r.Err? ==> r.msg == TimelineFrom(transcription.tlis, 0, map[]).msg && timeline == old(timeline)
      ensures mediaNode == old(mediaNode) && spk2tok == old(spk2tok)
    {
      var tlis := transcription.tlis;
      var tl: map<string, int> := map[];
      var k := 0;
      while k < |tlis|
        invariant k <= |tlis|
        invariant TimelineFrom(tlis, 0, map[]) == TimelineFrom(tlis, k, tl)
      {
        if tlis[k].time.Some? {
          if tlis[k].id.None? {
            return Err(KeyErrorMsg("id"));
          }
          tl := tl[tlis[k].id.value := tlis[k].time.value];
        }
        k := k + 1;
      }
      timeline := tl;
      return Ok(());
    }

    /** `_map_audio_source`, with `fileExists` standing for the file system. */
    method MapAudioSource(fileExists: string -> bool) returns (r: Result<()>)
      modifies this, u
      ensures u.events == AudioSourceOf(old(u.events), old(mediaNode), transcription.referencedUrls, sourceDir, path, fileExists).events
      ensures mediaNode == AudioSourceOf(old(u.events), old(mediaNode), transcription.referencedUrls, sourceDir, path, fileExists).mediaNode
      ensures r == AudioSourceOf(old(u.events), old(mediaNode), transcription.referencedUrls, sourceDir, path, fileExists).result
      ensures spk2tok == old(spk2tok) && timeline == old(timeline)
    {
      if mediaNode.Some? {
        return Ok(());
      }
      var urls := transcription.referencedUrls;
      if urls == [] {
        return Ok(());
      }
      if |urls| > 1 {
        return Err("More than one referenced file in " + BaseName(path) + ".");
      }
      var file := urls[0];
      if !IsAbs(file) {
        file := PathJoin(sourceDir, file);
      }
      if !fileExists(file) {
        return Ok(());
      }
      var audio := PathJoin(DirName(path), BaseName(file));
      AddAudioSource(u, audio, path);
      mediaNode := Some(audio);
      return Ok(());
    }

    /** The tokens of one token tier, numbered after `count`, as entries of the speaker's tokenization. */
    method MapTierTokens(category: string, speaker: string, toks: seq<Tok>, count: nat) returns (r: Result<()>, count': nat)
      requires speaker in spk2tok && spk2tok[speaker] == []
      modifies this, u
      ensures u.events == MapTokensOf(path, category, toks, 0, old(u.events), [], count).events
      ensures spk2tok == old(spk2tok)[speaker := MapTokensOf(path, category, toks, 0, old(u.events), [], count).entries]
      ensures count' == MapTokensOf(path, category, toks, 0, old(u.events), [], count).count
      ensures r == MapTokensOf(path, category, toks, 0, old(u.events), [], count).result
      ensures mediaNode == old(mediaNode) && timeline == old(timeline)
    {
      var i := 0;
      count' := count;
      while i < |toks|
        invariant i <= |toks|
        invariant speaker in spk2tok && spk2tok == old(spk2tok)[speaker := spk2tok[speaker]]
        invariant MapTokensOf(path, category, toks, 0, old(u.events), [], count)
               == MapTokensOf(path, category, toks, i, u.events, spk2tok[speaker], count')
        invariant mediaNode == old(mediaNode) && timeline == old(timeline)
      {
        var t := toks[i];
        count' := count' + 1;
        var id := MapToken(u, path, count', category, t.2, Some(t.0), Some(t.1));
        if id.Err? {
          return Err(id.msg), count';
        }
        spk2tok := spk2tok[speaker := spk2tok[speaker] + [(id.value, (t.0, t.1))]];
        i := i + 1;
      }
      return Ok(()), count';
    }

    /** One token tier of `_map_tokenizations`. */
    method MapTokenTier(tier: Tier, count: nat) returns (r: Result<()>, count': nat)
      modifies this, u
      ensures u.events == TokenTierOf(path, timeline, tier, TokState(old(u.events), old(spk2tok), count)).state.events
      ensures spk2tok == TokenTierOf(path, timeline, tier, TokState(old(u.events), old(spk2tok), count)).state.spk2tok
      ensures count' == TokenTierOf(path, timeline, tier, TokState(old(u.events), old(spk2tok), count)).state.count
      ensures r == TokenTierOf(path, timeline, tier, TokState(old(u.events), old(spk2tok), count)).result
      ensures mediaNode == old(mediaNode) && timeline == old(timeline)
    {
      if tier.category.None? {
        return Err(KeyErrorMsg("category")), count;
      }
      var category := tier.category.value;
      if tier.speaker.None? {
        return Err("Tier " + category + " has no speaker assigned."), count;
      }
      var speaker := tier.speaker.value;
      if speaker in spk2tok {
        return Err("Speaker " + speaker + " has more than one tokenization."), count;
      }
      var toks := TierTokens(timeline, tier.events, 0, []);
      if toks.Err? {
        return Err(toks.msg), count;
      }
      TokenTierMapped(path, timeline, tier, TokState(u.events, spk2tok, count), toks.value);
      ghost var spk0 := spk2tok;
      ghost var run := MapTokensOf(path, category, SortBy(toks.value, TokLe), 0, u.events, [], count);
      spk2tok := spk2tok[speaker := []];
      r, count' := MapTierTokens(category, speaker, SortBy(toks.value, TokLe), count);
      assert spk2tok == spk0[speaker := run.entries];
      if r.Err? {
        return;
      }
      AddOrderRelations(u, Keys(SortBy(spk2tok[speaker], StartEndLe)), category);
    }

    /** `_map_tokenizations`: the token tiers in document order, counting tokens from zero. */
    method MapTokenizations() returns (r: Result<()>)
      modifies this, u
      ensures u.events == TokenizationsFrom(path, timeline, transcription.tiers, 0, TokState(old(u.events), old(spk2tok), 0)).state.events
      ensures spk2tok == TokenizationsFrom(path, timeline, transcription.tiers, 0, TokState(old(u.events), old(spk2tok), 0)).state.spk2tok
      ensures r == TokenizationsFrom(path, timeline, transcription.tiers, 0, TokState(old(u.events), old(spk2tok), 0)).result
      ensures mediaNode == old(mediaNode) && timeline == old(timeline)
    {
      var tiers := transcription.tiers;
      var i := 0;
      var count := 0;
      while i < |tiers|
        invariant i <= |tiers|
        invariant mediaNode == old(mediaNode) && timeline == old(timeline)
        invariant TokenizationsFrom(path, timeline, tiers, 0, TokState(old(u.events), old(spk2tok), 0))
               == TokenizationsFrom(path, timeline, tiers, i, TokState(u.events, spk2tok, count))
      {
        if IsTokenTier(tiers[i]) {
          r, count := MapTokenTier(tiers[i], count);
          if r.Err? {
            return;
          }
        }
        i := i + 1;
      }
      return Ok(());
    }

    /** The sorted events of one annotation tier, as spans over the speaker's sorted tokens. */
    method MapSpans(speaker: string, category: string, tokens: seq<Tok>, evs: seq<Keyed>, count: nat)
      returns (r: Result<()>, count': nat)
      modifies u
      ensures u.events == MapSpansOf(path, speaker, category, timeline, tokens, evs, 0, old(u.events), count).events
      ensures count' == MapSpansOf(path, speaker, category, timeline, tokens, evs, 0, old(u.events), count).count
      ensures r == MapSpansOf(path, speaker, category, timeline, tokens, evs, 0, old(u.events), count).result
    {
      var i := 0;
      count' := count;
      while i < |evs|
        invariant i <= |evs|
        invariant MapSpansOf(path, speaker, category, timeline, tokens, evs, 0, old(u.events), count)
               == MapSpansOf(path, speaker, category, timeline, tokens, evs, i, u.events, count')
      {
        var end := Lookup(timeline, evs[i].1.end, "end");
        if end.Err? {
          return Err(end.msg), count';
        }
        if evs[i].1.text.Some? {
          var value := Trim(evs[i].1.text.value);
          count' := count' + 1;
          var _ := MapAnnotation(u, path, count', speaker, category, value, Covered(tokens, evs[i].0, end.value));
        }
        i := i + 1;
      }
      return Ok(()), count';
    }

    /** One annotation tier of `_map_annotations`. */
    method MapAnnotationTier(tier: Tier, count: nat) returns (r: Result<()>, count': nat)
      modifies u
      ensures u.events == AnnotationTierOf(path, timeline, spk2tok, tier, old(u.events), count).events
      ensures count' == AnnotationTierOf(path, timeline, spk2tok, tier, old(u.events), count).count
      ensures r == AnnotationTierOf(path, timeline, spk2tok, tier, old(u.events), count).result
    {
      if tier.speaker.None? {
        return Err(KeyErrorMsg("speaker")), count;
      }
      var speaker := tier.speaker.value;
      if tier.category.None? {
        return Err(KeyErrorMsg("category")), count;
      }
      var category := tier.category.value;
      if speaker !in spk2tok {
        return Err(KeyErrorMsg(speaker)), count;
      }
      var tokens := SortBy(SpeakerTokens(spk2tok[speaker]), TokLe);
      var keyed := StartKeys(timeline, tier.events, 0, []);
      if keyed.Err? {
        return Err(keyed.msg), count;
      }
      r, count' := MapSpans(speaker, category, tokens, SortBy(keyed.value, KeyLe), count);
    }

    /** `_map_annotations`: the annotation tiers in document order, counting spans from zero. */
    method MapAnnotations() returns (r: Result<()>)
      modifies u
      ensures u.events == AnnotationsFrom(path, timeline, spk2tok, transcription.tiers, 0, old(u.events), 0).events
      ensures r == AnnotationsFrom(path, timeline, spk2tok, transcription.tiers, 0, old(u.events), 0).result
    {
      var tiers := transcription.tiers;
      var i := 0;
      var count := 0;
      while i < |tiers|
        invariant i <= |tiers|
        invariant AnnotationsFrom(path, timeline, spk2tok, tiers, 0, old(u.events), 0)
               == AnnotationsFrom(path, timeline, spk2tok, tiers, i, u.events, count)
      {
        if IsAnnotationTier(tiers[i]) {
          r, count := MapAnnotationTier(tiers[i], count);
          if r.Err? {
            return;
          }
        }
        i := i + 1;
      }
      return Ok(());
    }

    /** `map`: the whole import, as `MapOf` describes it. */
    method Map(fileExists: string -> bool) returns (r: Result<()>)
      modifies this, u
      ensures u.events == MapOf(transcription, sourceDir, path, fileExists, ImportState(old(u.events), old(mediaNode), old(spk2tok), old(timeline))).state.events
      ensures mediaNode == MapOf(transcription, sourceDir, path, fileExists, ImportState(old(u.events), old(mediaNode), old(spk2tok), old(timeline))).state.mediaNode
      ensures spk2tok == MapOf(transcription, sourceDir, path, fileExists, ImportState(old(u.events), old(mediaNode), old(spk2tok), old(timeline))).state.spk2tok
      ensures timeline == MapOf(transcription, sourceDir, path, fileExists, ImportState(old(u.events), old(mediaNode), old(spk2tok), old(timeline))).state.timeline
      ensures r == MapOf(transcription, sourceDir, path, fileExists, ImportState(old(u.events), old(mediaNode), old(spk2tok), old(timeline))).result
    {
      r := ReadTimeline();
      if r.Err? {
        return;
      }
      r := MapAudioSource(fileExists);
      if r.Err? {
        return;
      }
      r := MapTokenizations();
      if r.Err? {
        return;
      }
      r := MapAnnotations();
    }
  }
}
