/**
 * The web-search agent: searches with a medical prefix, numbers the results,
 * turns each into a source, and asks the language model to summarise.
 */
module WebSearchAgent {
  import opened Wrappers
  import opened Text
  import opened History
  import opened Replies

  const AgentName := "网络搜索智能体"
  const NoResults := "抱歉,没有找到相关的搜索结果。请尝试重新表述您的问题。"
  /** `WebSearchConfig.max_results` */
  const MaxResults := 5
  const HistoryWindow := 4

  /** One search hit: a dict whose "title", "body" and "href" keys may be missing. */
  datatype SearchHit = SearchHit(title: Option<string>, body: Option<string>, href: Option<string>)

  /** The search service: (search string, max_results) to hits or exception. */
  type SearchService = (string, nat) -> Result<seq<SearchHit>>
  /** The language model behind the search prompt: (query, formatted results, history text) to answer or exception. */
  type SearchModel = (string, string, string) -> Result<string>

  /** The search string actually issued. */
  function MedicalQuery(query: string): string {
    "医学 医疗 " + query
  }

  function TitleOf(h: SearchHit): string { h.title.GetOr("无标题") }
  function BodyOf(h: SearchHit): string { h.body.GetOr("无内容") }
  function LinkOf(h: SearchHit): string { h.href.GetOr("") }

  /** The source entry for one hit. */
  function SourceOf(h: SearchHit): (s: Source)
    ensures s.WebSource?
    ensures s.snippet == Snippet(BodyOf(h))
  {
    WebSource(TitleOf(h), Snippet(BodyOf(h)), LinkOf(h))
  }

  /** `[结果i]`, the label of the i-th result. */
  function ResultLabel(i: nat): string {
    "[结果" + NatToString(i) + "]"
  }

  /** Different positions get different labels. */
  lemma ResultLabelsDistinct(i: nat, j: nat)
    ensures ResultLabel(i) == ResultLabel(j) ==> i == j
  {
    var li, lj := ResultLabel(i), ResultLabel(j);
    assert li[3..|li| - 1] == NatToString(i);
    assert lj[3..|lj| - 1] == NatToString(j);
    NatToStringInjective(i, j);
  }

  /** The block for the hit at (1-based) position `i`. */
  function ResultBlock(i: nat, h: SearchHit): string {
    "\n" + ResultLabel(i) + "\n标题: " + TitleOf(h) + "\n内容: " + BodyOf(h) + "\n链接: " + LinkOf(h) + "\n"
  }

  /** The blocks of all hits, labelled 1, 2, ... in order. */
  function ResultBlocks(hits: seq<SearchHit>): string {
    if hits == [] then "" else ResultBlocks(hits[..|hits| - 1]) + ResultBlock(|hits|, hits[|hits| - 1])
  }

  /** The sources, one per hit, in order. */
  function SourcesOf(hits: seq<SearchHit>): (sources: seq<Source>)
    ensures |sources| == |hits|
    ensures forall k | 0 <= k < |hits| :: sources[k] == SourceOf(hits[k])
  {
    seq(|hits|, k requires 0 <= k < |hits| => SourceOf(hits[k]))
  }

  /** One more hit adds its source at the end. */
  lemma SourcesOfSnoc(hits: seq<SearchHit>, i: nat)
    requires i < |hits|
    ensures SourcesOf(hits[..i + 1]) == SourcesOf(hits[..i]) + [SourceOf(hits[i])]
  {
    var a, b := SourcesOf(hits[..i + 1]), SourcesOf(hits[..i]) + [SourceOf(hits[i])];
    assert |a| == |b|;
    forall k | 0 <= k < |a| ensures a[k] == b[k] {
      if k < i {
        assert hits[..i + 1][k] == hits[..i][k];
      }
    }
  }

  /** The reply for the outcomes of the search and of the model call. */
  function SearchReply(query: string, history: seq<Message>, search: SearchService, model: SearchModel): Reply {
    match search(MedicalQuery(query), MaxResults)
    case Failure(e) => ErrorReply(e)
    case Success(hits) =>
      if hits == [] then Reply(AgentName, NoResults, Some([]), None, None)
      else
        match model(query, ResultBlocks(hits), PromptHistory(history, HistoryWindow))
        case Failure(e) => ErrorReply(e)
        case Success(answer) => Reply(AgentName, answer, Some(SourcesOf(hits)), None, None)
  }

  function ErrorReply(e: string): Reply {
    Reply(AgentName, "搜索时出错: " + e + "。请稍后重试。", Some([]), None, None)
  }

  /** What the source promises of a search: every reply has a source list, and an answer has one source per hit. */
  lemma SearchReplyShape(query: string, history: seq<Message>, search: SearchService, model: SearchModel)
    ensures SearchReply(query, history, search, model).agent == AgentName
    ensures SearchReply(query, history, search, model).sources.Some?
    ensures search(MedicalQuery(query), MaxResults) == Success([]) ==>
      SearchReply(query, history, search, model).response == NoResults
    ensures forall hits | search(MedicalQuery(query), MaxResults) == Success(hits) && hits != [] ::
      model(query, ResultBlocks(hits), PromptHistory(history, HistoryWindow)).Success? ==>
        && |SearchReply(query, history, search, model).sources.value| == |hits|
        && forall k | 0 <= k < |hits| ::
             SearchReply(query, history, search, model).sources.value[k] == SourceOf(hits[k])
  {
  }

  /** The loop over `enumerate(search_results, 1)` that builds the formatted text and the sources. */
  method FormatResults(hits: seq<SearchHit>) returns (formatted: string, sources: seq<Source>)
    ensures formatted == ResultBlocks(hits)
    ensures sources == SourcesOf(hits)
  {
    formatted := "";
    sources := [];
    var i := 0;
    while i < |hits|
      invariant 0 <= i <= |hits|
      invariant formatted == ResultBlocks(hits[..i])
      invariant sources == SourcesOf(hits[..i])
    {
      assert hits[..i + 1][..i] == hits[..i];
      SourcesOfSnoc(hits, i);
      var h := hits[i];
      formatted := formatted + ResultBlock(i + 1, h);
      sources := sources + [WebSource(TitleOf(h), Snippet(BodyOf(h)), LinkOf(h))];
      i := i + 1;
    }
    assert hits[..|hits|] == hits;
  }

  /** `WebSearchAgent.search` */
  method Search(query: string, history: seq<Message>, search: SearchService, model: SearchModel) returns (r: Reply)
    ensures r == SearchReply(query, history, search, model)
  {
    var found := search(MedicalQuery(query), MaxResults);
    if found.Failure? {
      return ErrorReply(found.error);
    }
    var hits := found.value;
    if hits == [] {
      return Reply(AgentName, NoResults, Some([]), None, None);
    }
    var formatted, sources := FormatResults(hits);
    var historyText := RenderRecent(history, HistoryWindow);
    var answer := model(query, formatted, if historyText == "" then NoHistory else historyText);
    if answer.Failure? {
      return ErrorReply(answer.error);
    }
    r := Reply(AgentName, answer.value, Some(sources), None, None);
  }

  /** The keywords of `is_medical_query`. */
  const MedicalKeywords: seq<string> :=
    ["疾病", "症状", "治疗", "药物", "诊断", "医院", "医生", "健康", "病", "痛", "不适", "检查", "手术", "康复"]

  /** `WebSearchAgent.is_medical_query`: some keyword occurs in the query. */
  predicate IsMedicalQuery(query: string) {
    exists k | 0 <= k < |MedicalKeywords| :: Contains(query, MedicalKeywords[k])
  }

  /** A medical query stays medical with any text around it. */
  lemma MedicalInContext(before: string, query: string, after: string)
    requires IsMedicalQuery(query)
    ensures IsMedicalQuery(before + query + after)
  {
    var k :| 0 <= k < |MedicalKeywords| && Contains(query, MedicalKeywords[k]);
    ContainsInContext(before, query, after, MedicalKeywords[k]);
  }

  /** Every query that names a keyword is medical. */
  lemma KeywordIsMedical(before: string, k: nat, after: string)
    requires k < |MedicalKeywords|
    ensures IsMedicalQuery(before + MedicalKeywords[k] + after)
  {
    var w := MedicalKeywords[k];
    assert OccursAt(w, w, 0);
    ContainsInContext(before, w, after, w);
  }
}
