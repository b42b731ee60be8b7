/**
 * The knowledge-base agent `MedicalRAG`: it searches the loaded knowledge bases,
 * merges and ranks the hits, refuses when even the best hit is too far away,
 * and otherwise answers from the closest few. The vector store, the embedding
 * model and the language model are oracles.
 */
module RagAgent {
  import opened Wrappers
  import opened Text
  import opened History
  import opened Replies
  import opened Retrieval

  const AgentName := "RAG智能体"
  const Unavailable := "知识库暂时不可用。这可能是因为知识库还未初始化。请联系管理员添加文档到知识库中。"
  const Missing := "指定的知识库不存在。"
  const Unreliable := "抱歉,我在知识库中没有找到足够可靠的相关信息来回答您的问题。建议尝试使用网络搜索功能。"

  /** `RAGConfig.top_k`: hits asked of each knowledge base. */
  const TopK := 5
  /** `RAGConfig.min_retrieval_confidence`: the largest best score still answered. */
  const MinRetrievalConfidence: real := 0.40
  /** `RAGConfig.reranker_top_k`: hits used as context and as sources. */
  const RerankerTopK := 3
  const HistoryWindow := 4

  /** The base the default vector store prefers. */
  const PreferredBase := "医疗知识库"
  /** The label written by `add_documents` when it falls back to the default store. */
  const DefaultLabel := "默认知识库"
  /** The metadata key naming a hit's knowledge base, and its fallback value in a source. */
  const KbKey := "knowledge_base"
  const UnknownBase := "未知"

  /** One entry of the knowledge-base configuration. */
  datatype KbConfig = KbConfig(collectionName: string, description: string)

  /** `similarity_search_with_score` on a base's store: (base, query, k) to hits or exception. */
  type Retriever = (string, string, nat) -> Result<seq<Hit>>
  /** The language model behind the answer prompt: (query, context, history text) to answer or exception. */
  type Generator = (string, string, string) -> Result<string>
  /** `get_collection(name).vectors_count`, or the exception it raised. */
  type CollectionInfo = string -> Result<nat>

  // ---------------------------------------------------------------------------
  // Replies

  /** A reply without evidence: empty sources and confidence 0.0. */
  function Fixed(response: string, kbs: seq<string>): Reply {
    Reply(AgentName, response, Some([]), Some(0.0), Some(kbs))
  }

  function ErrorReply(e: string): Reply {
    Fixed("处理查询时出错: " + e, [])
  }

  // ---------------------------------------------------------------------------
  // Choosing the bases to search

  /** The requested names that are loaded, in request order, duplicates kept. */
  function KeepLoaded(names: seq<string>, loaded: seq<string>): (kept: seq<string>)
    ensures |kept| <= |names|
    ensures forall kb :: kb in kept <==> kb in names && kb in loaded
  {
    if names == [] then []
    else
      var last := names[|names| - 1];
      assert names == names[..|names| - 1] + [last];
      KeepLoaded(names[..|names| - 1], loaded) + (if last in loaded then [last] else [])
  }

  /** Filtering is done name by name, so it keeps the request order. */
  lemma {:induction false} KeepLoadedAppend(a: seq<string>, b: seq<string>, loaded: seq<string>)
    ensures KeepLoaded(a + b, loaded) == KeepLoaded(a, loaded) + KeepLoaded(b, loaded)
  {
    if b != [] {
      var init := b[..|b| - 1];
      assert (a + b)[..|a + b| - 1] == a + init;
      KeepLoadedAppend(a, init, loaded);
    } else {
      assert a + b == a;
    }
  }

  /** None of the names loaded: nothing is kept. */
  lemma {:induction false} NothingLoadedKept(names: seq<string>, loaded: seq<string>)
    requires forall kb | kb in names :: kb !in loaded
    ensures KeepLoaded(names, loaded) == []
  {
    if names != [] {
      NothingLoadedKept(names[..|names| - 1], loaded);
    }
  }

  /** `search_kbs`: every loaded base when no list is given, else the given names that are loaded. */
  function SearchBases(loaded: seq<string>, requested: Option<seq<string>>): (kbs: seq<string>)
    ensures requested.None? ==> kbs == loaded
    ensures requested.Some? ==> |kbs| <= |requested.value|
    ensures forall kb :: kb in kbs <==> kb in loaded && (requested.None? || kb in requested.value)
  {
    match requested
    case None => loaded
    case Some(names) => KeepLoaded(names, loaded)
  }

  // ---------------------------------------------------------------------------
  // Gathering and ranking

  /** The hit with its doc's metadata tagged with the base it came from. */
  function TagHit(h: Hit, kb: string): Hit {
    Hit(Doc(h.doc.pageContent, h.doc.metadata[KbKey := kb]), h.score)
  }

  function Tagged(hits: seq<Hit>, kb: string): (r: seq<Hit>)
    ensures |r| == |hits|
    ensures forall k | 0 <= k < |hits| :: r[k] == TagHit(hits[k], kb)
  {
    seq(|hits|, k requires 0 <= k < |hits| => TagHit(hits[k], kb))
  }

  /**
   * The tagged hits of every base in turn, or the first exception a search raised.
   */
  function Gather(query: string, kbs: seq<string>, retrieve: Retriever): Result<seq<Hit>> {
    if kbs == [] then Success([])
    else
      match Gather(query, kbs[..|kbs| - 1], retrieve)
      case Failure(e) => Failure(e)
      case Success(earlier) =>
        var kb := kbs[|kbs| - 1];
        match retrieve(kb, query, TopK)
        case Failure(e) => Failure(e)
        case Success(hits) => Success(earlier + Tagged(hits, kb))
  }

  /** Every gathered hit carries the name of one of the searched bases. */
  lemma {:induction false} GatherTags(query: string, kbs: seq<string>, retrieve: Retriever, all: seq<Hit>)
    requires Gather(query, kbs, retrieve) == Success(all)
    ensures forall h | h in all :: KbKey in h.doc.metadata && h.doc.metadata[KbKey] in kbs
  {
    if kbs != [] {
      var init := kbs[..|kbs| - 1];
      var kb := kbs[|kbs| - 1];
      var earlier := Gather(query, init, retrieve).value;
      GatherTags(query, init, retrieve, earlier);
      var hits := retrieve(kb, query, TopK).value;
      assert all == earlier + Tagged(hits, kb);
      forall h | h in all ensures KbKey in h.doc.metadata && h.doc.metadata[KbKey] in kbs {
        if h in earlier {
          assert h.doc.metadata[KbKey] in init;
        } else {
          var k :| 0 <= k < |hits| && Tagged(hits, kb)[k] == h;
        }
      }
    }
  }

  /** An exception while searching a base ends the whole gathering with it. */
  lemma {:induction false} GatherFailureSticks(query: string, kbs: seq<string>, i: nat, retrieve: Retriever)
    requires i <= |kbs|
    requires Gather(query, kbs[..i], retrieve).Failure?
    ensures Gather(query, kbs, retrieve) == Gather(query, kbs[..i], retrieve)
    decreases |kbs| - i
  {
    if i < |kbs| {
      assert kbs[..i + 1][..i] == kbs[..i];
      GatherFailureSticks(query, kbs, i + 1, retrieve);
    } else {
      assert kbs[..i] == kbs;
    }
  }

  /** The context: the page contents of the chosen hits, separated by blank lines. */
  function Context(top: seq<Hit>): string {
    Join("\n\n", seq(|top|, k requires 0 <= k < |top| => top[k].doc.pageContent))
  }

  /** The source entry for one chosen hit. */
  function KnowledgeSource(h: Hit): (s: Source)
    ensures s.KnowledgeSource? && s.score == h.score && s.metadata == h.doc.metadata
    ensures s.content == Snippet(h.doc.pageContent)
  {
    var md := h.doc.metadata;
    Source.KnowledgeSource(Snippet(h.doc.pageContent), h.score, md, if KbKey in md then md[KbKey] else UnknownBase)
  }

  function KnowledgeSources(top: seq<Hit>): (sources: seq<Source>)
    ensures |sources| == |top|
    ensures forall k | 0 <= k < |top| :: sources[k] == KnowledgeSource(top[k])
  {
    seq(|top|, k requires 0 <= k < |top| => KnowledgeSource(top[k]))
  }

  // ---------------------------------------------------------------------------
  // The answer

  /** The reply `query` gives for the loaded bases and the outcomes of the oracles. */
  function Answer(loaded: seq<string>, query: string, history: seq<Message>, requested: Option<seq<string>>,
                  retrieve: Retriever, generate: Generator): Reply
  {
    if loaded == [] then Fixed(Unavailable, [])
    else
      var kbs := SearchBases(loaded, requested);
      if kbs == [] then Fixed(Missing, [])
      else
        match Gather(query, kbs, retrieve)
        case Failure(e) => ErrorReply(e)
        case Success(all) => Rank(query, history, kbs, all, generate)
  }

  /** The reply once the hits of the bases `kbs` have been gathered: threshold, top hits, generation. */
  function Rank(query: string, history: seq<Message>, kbs: seq<string>, all: seq<Hit>, generate: Generator): Reply {
    var ranked := SortByScore(all);
    if ranked == [] || ranked[0].score > MinRetrievalConfidence then Fixed(Unreliable, kbs)
    else
      var top := Take(ranked, RerankerTopK);
      match generate(query, Context(top), PromptHistory(history, HistoryWindow))
      case Failure(e) => ErrorReply(e)
      case Success(text) => Reply(AgentName, text, Some(KnowledgeSources(top)), Some(ranked[0].score), Some(kbs))
  }

  /** No loaded base, or none of the requested ones loaded: a fixed reply without evidence. */
  lemma EarlyRefusals(loaded: seq<string>, query: string, history: seq<Message>, requested: Option<seq<string>>,
                      retrieve: Retriever, generate: Generator)
    ensures loaded == [] ==> Answer(loaded, query, history, requested, retrieve, generate) == Fixed(Unavailable, [])
    ensures loaded != [] && requested.Some? && (forall kb | kb in requested.value :: kb !in loaded) ==>
      Answer(loaded, query, history, requested, retrieve, generate) == Fixed(Missing, [])
  {
    if requested.Some? && forall kb | kb in requested.value :: kb !in loaded {
      NothingLoadedKept(requested.value, loaded);
    }
  }

  /** Once something is searched and gathered, the gathered hits alone decide the reply. */
  lemma AnswerRanksGathered(loaded: seq<string>, query: string, history: seq<Message>, requested: Option<seq<string>>,
                            retrieve: Retriever, generate: Generator, all: seq<Hit>)
    requires loaded != [] && SearchBases(loaded, requested) != []
    requires Gather(query, SearchBases(loaded, requested), retrieve) == Success(all)
    ensures Answer(loaded, query, history, requested, retrieve, generate) ==
      Rank(query, history, SearchBases(loaded, requested), all, generate)
  {
  }

  /** The query is refused as unreliable exactly when every gathered hit is farther than the threshold. */
  lemma RefusedIffNoCloseHit(query: string, history: seq<Message>, kbs: seq<string>, all: seq<Hit>, generate: Generator)
    requires kbs != []
    ensures Rank(query, history, kbs, all, generate) == Fixed(Unreliable, kbs)
      <==> forall h | h in all :: h.score > MinRetrievalConfidence
  {
    var ranked := SortByScore(all);
    if all != [] {
      SortedHeadIsMinimum(all);
    }
    if exists h | h in all :: h.score <= MinRetrievalConfidence {
      var h :| h in all && h.score <= MinRetrievalConfidence;
      assert ranked[0].score <= h.score;
      var top := Take(ranked, RerankerTopK);
      assert top != [];
      var r := Rank(query, history, kbs, all, generate);
      assert r.knowledgeBasesUsed == Some([]) || r.sources == Some(KnowledgeSources(top));
    }
  }

  /**
   * A generated answer: its confidence is the smallest score of all hits and so
   * within the threshold, it lists the closest `min(3, n)` hits as sources in
   * rank order, each tagged with one of the searched bases, and it reports the
   * searched bases.
   */
  lemma AnsweredFromClosestHits(query: string, history: seq<Message>, kbs: seq<string>, retrieve: Retriever,
                                all: seq<Hit>, generate: Generator)
    requires Gather(query, kbs, retrieve) == Success(all)
    requires exists h | h in all :: h.score <= MinRetrievalConfidence
    requires generate(query, Context(Take(SortByScore(all), RerankerTopK)), PromptHistory(history, HistoryWindow)).Success?
    ensures var r := Rank(query, history, kbs, all, generate);
      && r.agent == AgentName
      && r.response == generate(query, Context(Take(SortByScore(all), RerankerTopK)), PromptHistory(history, HistoryWindow)).value
      && r.confidence.Some? && r.confidence.value <= MinRetrievalConfidence
      && (forall h | h in all :: r.confidence.value <= h.score)
      && r.sources.Some? && |r.sources.value| == Min(RerankerTopK, |all|)
      && (forall k | 0 <= k < |r.sources.value| :: r.sources.value[k] == KnowledgeSource(SortByScore(all)[k]))
      && (forall s | s in r.sources.value :: s.knowledgeBase in kbs)
      && r.knowledgeBasesUsed == Some(kbs)
  {
    var ranked := SortByScore(all);
    var h :| h in all && h.score <= MinRetrievalConfidence;
    SortedHeadIsMinimum(all);
    assert |ranked| == |multiset(ranked)| == |multiset(all)| == |all|;
    SourcesFromSearchedBases(query, kbs, retrieve, all);
  }

  /** Every source of an answer names one of the bases searched. */
  lemma SourcesFromSearchedBases(query: string, kbs: seq<string>, retrieve: Retriever, all: seq<Hit>)
    requires Gather(query, kbs, retrieve) == Success(all)
    ensures forall s | s in KnowledgeSources(Take(SortByScore(all), RerankerTopK)) :: s.knowledgeBase in kbs
  {
    var ranked := SortByScore(all);
    GatherTags(query, kbs, retrieve, all);
    var top := Take(ranked, RerankerTopK);
    forall s | s in KnowledgeSources(top) ensures s.knowledgeBase in kbs {
      var k :| 0 <= k < |top| && KnowledgeSources(top)[k] == s;
      assert top[k] == ranked[k];
      assert ranked[k] in multiset(all);
    }
  }

  // ---------------------------------------------------------------------------
  // The default store and add_documents

  /** `self.vectorstore`: the preferred base if loaded, else the first loaded one, else none. */
  function DefaultStore(loaded: seq<string>): (store: Option<string>)
    ensures store.None? <==> loaded == []
    ensures store.Some? ==> store.value in loaded
    ensures PreferredBase in loaded ==> store == Some(PreferredBase)
    ensures PreferredBase !in loaded && loaded != [] ==> store == Some(loaded[0])
  {
    if PreferredBase in loaded then Some(PreferredBase)
    else if loaded != [] then Some(loaded[0])
    else None
  }

  /** The store `add_documents` writes to and the base name it writes into the metadata. */
  datatype Target = Target(store: string, baseName: string)

  function TargetOf(loaded: seq<string>, defaultStore: Option<string>, kb: Option<string>): Option<Target> {
    if kb.Some? && kb.value != "" && kb.value in loaded then Some(Target(kb.value, kb.value))
    else if defaultStore.Some? then Some(Target(defaultStore.value, DefaultLabel))
    else None
  }

  /** The metadata list handed to `add_texts`. */
  function LabelledMetadatas(metadatas: Option<seq<Metadata>>, name: string, count: nat): seq<Metadata> {
    if metadatas.Some? && metadatas.value != [] then
      seq(|metadatas.value|, k requires 0 <= k < |metadatas.value| => metadatas.value[k][KbKey := name])
    else seq(count, _ => map[KbKey := name])
  }

  /** One `add_texts` call: the store, the texts and their metadata. */
  datatype Batch = Batch(store: string, texts: seq<string>, metadatas: seq<Metadata>)

  // ---------------------------------------------------------------------------
  // Statistics

  datatype KbStats = KbStats(vectorsCount: nat, collectionName: string, description: Option<string>)

  /** `{"error": ...}`, or a dict from base name to its statistics. */
  datatype Stats = StatsError(error: string) | StatsTable(table: map<string, KbStats>)

  function UnknownBaseError(kb: string): string {
    "知识库 '" + kb + "' 不存在"
  }

  /** The statistics of every loaded base, or the first exception raised. */
  function AllStats(loaded: seq<string>, configs: map<string, KbConfig>, info: CollectionInfo): Stats
    requires forall kb | kb in loaded :: kb in configs
  {
    if loaded == [] then StatsTable(map[])
    else
      var kb := loaded[|loaded| - 1];
      var c := configs[kb];
      match AllStats(loaded[..|loaded| - 1], configs, info)
      case StatsError(e) => StatsError(e)
      case StatsTable(t) =>
        match info(c.collectionName)
        case Failure(e) => StatsError(e)
        case Success(n) => StatsTable(t[kb := KbStats(n, c.collectionName, Some(c.description))])
  }

  /** A table of all bases has exactly one entry per loaded base, with its configured collection and description. */
  lemma {:induction false} AllStatsCoversLoaded(loaded: seq<string>, configs: map<string, KbConfig>, info: CollectionInfo)
    requires forall kb | kb in loaded :: kb in configs
    requires AllStats(loaded, configs, info).StatsTable?
    ensures forall kb :: kb in AllStats(loaded, configs, info).table <==> kb in loaded
    ensures forall kb | kb in AllStats(loaded, configs, info).table ::
      && AllStats(loaded, configs, info).table[kb].collectionName == configs[kb].collectionName
      && AllStats(loaded, configs, info).table[kb].description == Some(configs[kb].description)
  {
    if loaded != [] {
      var init := loaded[..|loaded| - 1];
      AllStatsCoversLoaded(init, configs, info);
      assert loaded == init + [loaded[|loaded| - 1]];
    }
  }

  /** `get_knowledge_base_stats(knowledge_base)` */
  function StatsOf(kb: Option<string>, loaded: seq<string>, configs: map<string, KbConfig>, info: CollectionInfo): Stats
    requires forall b | b in loaded :: b in configs
  {
    if kb.Some? && kb.value != "" then
      if kb.value !in loaded then StatsError(UnknownBaseError(kb.value))
      else
        var c := configs[kb.value].collectionName;
        match info(c)
        case Failure(e) => StatsError(e)
        case Success(n) => StatsTable(map[kb.value := KbStats(n, c, None)])
    else AllStats(loaded, configs, info)
  }

  // ---------------------------------------------------------------------------
  // The agent

  class MedicalRag {
    /** The configured bases in configuration order, and their configuration. */
    var kbOrder: seq<string>
    var kbConfigs: map<string, KbConfig>
    /** The keys of `self.vectorstores`, in insertion order. */
    var vectorstores: seq<string>
    /** The base whose store is `self.vectorstore`, if any. */
    var defaultStore: Option<string>

    /** The configured names are distinct keys; the loaded bases are a prefix of them. */
    ghost predicate Valid()
      reads this
    {
      && (forall i, j | 0 <= i < j < |kbOrder| :: kbOrder[i] != kbOrder[j])
      && (forall kb :: kb in kbConfigs <==> kb in kbOrder)
      && |vectorstores| <= |kbOrder| && vectorstores == kbOrder[..|vectorstores|]
      && (defaultStore.Some? ==> defaultStore.value in vectorstores)
    }

    /**
     * `__init__` with `_init_all_collections`. `clientReady` is false when the
     * vector-database client could not be built; `failAt == Some(k)` says the
     * client raised after `k` bases had been registered.
     */
    constructor(kbOrder: seq<string>, kbConfigs: map<string, KbConfig>, clientReady: bool, failAt: Option<nat>)
      requires forall i, j | 0 <= i < j < |kbOrder| :: kbOrder[i] != kbOrder[j]
      requires forall kb :: kb in kbConfigs <==> kb in kbOrder
      requires failAt.Some? ==> failAt.value <= |kbOrder|
      ensures this.kbOrder == kbOrder && this.kbConfigs == kbConfigs
      ensures !clientReady ==> vectorstores == [] && defaultStore.None?
      ensures clientReady && failAt.None? ==> vectorstores == kbOrder && defaultStore == DefaultStore(kbOrder)
      ensures clientReady && failAt.Some? ==> vectorstores == kbOrder[..failAt.value] && defaultStore.None?
      ensures Valid()
    {
      var stores: seq<string> := [];
      var chosen: Option<string> := None;
      if clientReady {
        var n := if failAt.Some? then failAt.value else |kbOrder|;
        var i := 0;
        while i < n
          invariant 0 <= i <= n
          invariant stores == kbOrder[..i]
        {
          stores := stores + [kbOrder[i]];
          i := i + 1;
        }
        if failAt.None? {
          assert stores == kbOrder;
          chosen := DefaultStore(stores);
        }
      }
      this.kbOrder := kbOrder;
      this.kbConfigs := kbConfigs;
      vectorstores := stores;
      defaultStore := chosen;
    }

    /** `query`: the gathering loops, the sort, the threshold, and the sources loop. */
    method Query(query: string, history: seq<Message>, requested: Option<seq<string>>,
                 retrieve: Retriever, generate: Generator) returns (r: Reply)
      ensures r.agent == AgentName
      ensures r == Answer(vectorstores, query, history, requested, retrieve, generate)
    {
      if vectorstores == [] {
        return Fixed(Unavailable, []);
      }
      var kbs := SearchBases(vectorstores, requested);
      if kbs == [] {
        return Fixed(Missing, []);
      }
      var gathered := GatherHits(query, kbs, retrieve);
      if gathered.Failure? {
        return ErrorReply(gathered.error);
      }
      var all := gathered.value;
      var ranked := SortByScore(all);
      if ranked == [] || ranked[0].score > MinRetrievalConfidence {
        return Fixed(Unreliable, kbs);
      }
      var top := Take(ranked, RerankerTopK);
      var historyText := RenderRecent(history, HistoryWindow);
      var answer := generate(query, Context(top), if historyText == "" then NoHistory else historyText);
      if answer.Failure? {
        return ErrorReply(answer.error);
      }
      var sources := CollectSources(top);
      r := Reply(AgentName, answer.value, Some(sources), Some(ranked[0].score), Some(kbs));
    }

    /**
     * `add_documents`: the `add_texts` call it makes, if any, and whether it
     * reported success; `writeOk` says whether `add_texts` returned normally.
     */
    method AddDocuments(texts: seq<string>, metadatas: Option<seq<Metadata>>, kb: Option<string>, writeOk: bool)
      returns (ok: bool, written: Option<Batch>)
      ensures written.None? <==> TargetOf(vectorstores, defaultStore, kb).None?
      ensures written.None? <==> (kb.None? || kb.value == "" || kb.value !in vectorstores) && defaultStore.None?
      ensures ok <==> written.Some? && writeOk
      ensures written.Some? ==>
        && written.value.texts == texts
        && (kb.Some? && kb.value != "" && kb.value in vectorstores ==> written.value.store == kb.value)
        && (forall m | m in written.value.metadatas :: KbKey in m && m[KbKey] == TargetOf(vectorstores, defaultStore, kb).value.baseName)
        && (metadatas.None? || metadatas.value == [] ==> |written.value.metadatas| == |texts|)
        && (metadatas.Some? && metadatas.value != [] ==> |written.value.metadatas| == |metadatas.value|)
      ensures written.Some? ==>
        written.value == Batch(TargetOf(vectorstores, defaultStore, kb).value.store, texts,
                               LabelledMetadatas(metadatas, TargetOf(vectorstores, defaultStore, kb).value.baseName, |texts|))
    {
      var target := TargetOf(vectorstores, defaultStore, kb);
      if target.None? {
        return false, None;
      }
      var name := target.value.baseName;
      var labelled: seq<Metadata> := [];
      if metadatas.Some? && metadatas.value != [] {
        var ms := metadatas.value;
        for k := 0 to |ms|
          invariant |labelled| == k
          invariant forall m | 0 <= m < k :: labelled[m] == ms[m][KbKey := name]
        {
          labelled := labelled + [ms[k][KbKey := name]];
        }
      } else {
        labelled := seq(|texts|, _ => map[KbKey := name]);
      }
      written := Some(Batch(target.value.store, texts, labelled));
      ok := writeOk;
    }

    /** `get_all_knowledge_bases`: the description of each loaded base that is configured. */
    function GetAllKnowledgeBases(): (info: map<string, string>)
      reads this
      ensures forall kb :: kb in info <==> kb in vectorstores && kb in kbConfigs
      ensures forall kb | kb in info :: info[kb] == kbConfigs[kb].description
    {
      map kb | kb in vectorstores && kb in kbConfigs :: kbConfigs[kb].description
    }

    /** `get_knowledge_base_stats`: a loop over the loaded bases when no name is given. */
    method GetKnowledgeBaseStats(kb: Option<string>, info: CollectionInfo) returns (r: Stats)
      requires Valid()
      ensures kb.Some? && kb.value != "" && kb.value !in vectorstores ==> r == StatsError(UnknownBaseError(kb.value))
      ensures r == StatsOf(kb, vectorstores, kbConfigs, info)
    {
      if kb.Some? && kb.value != "" {
        if kb.value !in vectorstores {
          return StatsError(UnknownBaseError(kb.value));
        }
        var c := kbConfigs[kb.value].collectionName;
        var count := info(c);
        if count.Failure? {
          return StatsError(count.error);
        }
        return StatsTable(map[kb.value := KbStats(count.value, c, None)]);
      }
      var table: map<string, KbStats> := map[];
      var i := 0;
      while i < |vectorstores|
        invariant 0 <= i <= |vectorstores|
        invariant AllStats(vectorstores[..i], kbConfigs, info) == StatsTable(table)
      {
        assert vectorstores[..i + 1][..i] == vectorstores[..i];
        var name := vectorstores[i];
        var c := kbConfigs[name];
        var count := info(c.collectionName);
        if count.Failure? {
          AllStatsErrorSticks(vectorstores, i + 1, kbConfigs, info);
          return StatsError(count.error);
        }
        table := table[name := KbStats(count.value, c.collectionName, Some(c.description))];
        i := i + 1;
      }
      assert vectorstores[..i] == vectorstores;
      r := StatsTable(table);
    }
  }

  /** The loop over the searched bases and, inside it, over each base's hits. */
  method GatherHits(query: string, kbs: seq<string>, retrieve: Retriever) returns (gathered: Result<seq<Hit>>)
    ensures gathered == Gather(query, kbs, retrieve)
  {
    var all: seq<Hit> := [];
    var i := 0;
    while i < |kbs|
      invariant 0 <= i <= |kbs|
      invariant Gather(query, kbs[..i], retrieve) == Success(all)
    {
      var kb := kbs[i];
      assert kbs[..i + 1][..i] == kbs[..i];
      var found := retrieve(kb, query, TopK);
      if found.Failure? {
        GatherFailureSticks(query, kbs, i + 1, retrieve);
        return Failure(found.error);
      }
      var docs := found.value;
      ghost var before := all;
      for j := 0 to |docs|
        invariant all == before + Tagged(docs[..j], kb)
      {
        assert Tagged(docs[..j + 1], kb) == Tagged(docs[..j], kb) + [TagHit(docs[j], kb)];
        all := all + [TagHit(docs[j], kb)];
      }
      assert docs[..|docs|] == docs;
      i := i + 1;
    }
    assert kbs[..i] == kbs;
    gathered := Success(all);
  }

  /** The loop that builds one source per chosen hit. */
  method CollectSources(top: seq<Hit>) returns (sources: seq<Source>)
    ensures sources == KnowledgeSources(top)
  {
    sources := [];
    for k := 0 to |top|
      invariant sources == KnowledgeSources(top[..k])
    {
      var md := top[k].doc.metadata;
      sources := sources + [Source.KnowledgeSource(Snippet(top[k].doc.pageContent), top[k].score, md,
                                                   if KbKey in md then md[KbKey] else UnknownBase)];
    }
    assert top[..|top|] == top;
  }

  /** An exception while reading one base's collection ends the whole statistics run with it. */
  lemma {:induction false} AllStatsErrorSticks(loaded: seq<string>, i: nat, configs: map<string, KbConfig>, info: CollectionInfo)
    requires i <= |loaded|
    requires forall kb | kb in loaded :: kb in configs
    requires AllStats(loaded[..i], configs, info).StatsError?
    ensures AllStats(loaded, configs, info) == AllStats(loaded[..i], configs, info)
    decreases |loaded| - i
  {
    if i < |loaded| {
      assert loaded[..i + 1][..i] == loaded[..i];
      AllStatsErrorSticks(loaded, i + 1, configs, info);
    } else {
      assert loaded[..i] == loaded;
    }
  }

  /** With a valid configuration every loaded base is listed by `get_all_knowledge_bases`. */
  lemma AllLoadedBasesListed(rag: MedicalRag)
    requires rag.Valid()
    ensures forall kb :: kb in rag.GetAllKnowledgeBases() <==> kb in rag.vectorstores
  {
    forall kb | kb in rag.vectorstores ensures kb in rag.kbConfigs {
      assert kb in rag.kbOrder;
    }
  }
}
