/** The Django view layer of the chatbot: the persona registry, the keyword filter that narrows
    retrieved chunks to a persona's topics, the dispatch of one query, and the pipeline built
    once per process. */
module Views {
  import opened Wrappers
  import opened PyText
  import opened Rag
  import opened Personas

  /** The answer given when no context survives the persona's filter. */
  const Apology: string :=
    "I'm sorry, I couldn't find relevant information in the news for your query, even with the selected agent's focus."

  // ---------------------------------------------------------------------------
  // The persona filter
  // ---------------------------------------------------------------------------

  /** `[keyword.lower() for keyword in keywords]`. */
  function LowerAll(keywords: seq<string>): (r: seq<string>)
    ensures |r| == |keywords|
    ensures forall i | 0 <= i < |r| :: r[i] == Lower(keywords[i])
    ensures forall i | 0 <= i < |r| :: |r[i]| == |keywords[i]| && forall j | 0 <= j < |r[i]| :: !('A' <= r[i][j] <= 'Z')
  {
    seq(|keywords|, i requires 0 <= i < |keywords| => Lower(keywords[i]))
  }

  /** `any(keyword in text_lower for keyword in keywords)`, tried in order. */
  predicate MatchesAny(keywords: seq<string>, textLower: string)
  {
    keywords != [] && (Contains(textLower, keywords[0]) || MatchesAny(keywords[1..], textLower))
  }

  /** `any(...)` holds exactly when some keyword occurs in the text. */
  lemma {:induction false} MatchesAnyIff(keywords: seq<string>, textLower: string)
    ensures MatchesAny(keywords, textLower) <==> exists k | 0 <= k < |keywords| :: Contains(textLower, keywords[k])
  {
    if keywords != [] {
      MatchesAnyIff(keywords[1..], textLower);
      if !Contains(textLower, keywords[0]) && MatchesAny(keywords[1..], textLower) {
        var k :| 0 <= k < |keywords| - 1 && Contains(textLower, keywords[1..][k]);
        assert Contains(textLower, keywords[k + 1]);
      }
      if exists k | 0 <= k < |keywords| :: Contains(textLower, keywords[k]) {
        var k :| 0 <= k < |keywords| && Contains(textLower, keywords[k]);
        if k > 0 {
          assert keywords[1..][k - 1] == keywords[k];
        }
      }
    }
  }

  /** A chunk is on topic when its lower-cased text contains a lower-cased keyword. */
  predicate OnTopic(keywords: seq<string>, chunk: Chunk)
  {
    MatchesAny(LowerAll(keywords), Lower(chunk.chunkText))
  }

  /** The on-topic chunks, in their original order. */
  function KeywordFilter(keywords: seq<string>, chunks: seq<Chunk>): (r: seq<Chunk>)
    ensures |r| <= |chunks|
    ensures forall c :: c in r ==> c in chunks && OnTopic(keywords, c)
  {
    if chunks == [] then []
    else (if OnTopic(keywords, chunks[0]) then [chunks[0]] else []) + KeywordFilter(keywords, chunks[1..])
  }

  /** Filtering distributes over concatenation: no on-topic chunk is skipped ahead of a kept one. */
  lemma {:induction false} KeywordFilterAppend(keywords: seq<string>, a: seq<Chunk>, b: seq<Chunk>)
    ensures KeywordFilter(keywords, a + b) == KeywordFilter(keywords, a) + KeywordFilter(keywords, b)
  {
    if a == [] {
      assert a + b == b;
    } else {
      assert (a + b)[1..] == a[1..] + b;
      KeywordFilterAppend(keywords, a[1..], b);
    }
  }

  /** Every on-topic chunk is kept as often as it occurs, every other one is dropped. */
  lemma {:induction false} KeywordFilterCounts(keywords: seq<string>, chunks: seq<Chunk>, c: Chunk)
    ensures multiset(KeywordFilter(keywords, chunks))[c] ==
              if OnTopic(keywords, c) then multiset(chunks)[c] else 0
  {
    if chunks != [] {
      KeywordFilterCounts(keywords, chunks[1..], c);
      assert chunks == [chunks[0]] + chunks[1..];
    }
  }

  /** The filter leaves a list alone exactly when every chunk of it is on topic. */
  lemma {:induction false} KeywordFilterFixpoint(keywords: seq<string>, chunks: seq<Chunk>)
    ensures KeywordFilter(keywords, chunks) == chunks <==> forall c | c in chunks :: OnTopic(keywords, c)
  {
    if chunks != [] {
      KeywordFilterFixpoint(keywords, chunks[1..]);
      if !OnTopic(keywords, chunks[0]) {
        assert |KeywordFilter(keywords, chunks)| < |chunks|;
      } else {
        assert chunks == [chunks[0]] + chunks[1..];
      }
    }
  }

  /** The context for a persona with the given keywords: the first `top_n` chunks when it has
      none, else the first `top_n` on-topic chunks. */
  function FilterContext(keywords: seq<string>, chunks: seq<Chunk>, topN: int): (r: seq<Chunk>)
    ensures topN >= 0 ==> |r| <= topN
    ensures forall c :: c in r ==> c in chunks
    ensures keywords != [] ==> forall c :: c in r ==> OnTopic(keywords, c)
  {
    if keywords == [] then PyTake(chunks, topN)
    else
      var kept := KeywordFilter(keywords, chunks);
      var r := PyTake(kept, topN);
      assert forall c :: c in r ==> c in kept;
      r
  }

  /** `AGENT_CONFIGS.get(agent_id)`. */
  function ConfigFor(configs: map<string, AgentConfig>, agentId: string): (config: Option<AgentConfig>)
    ensures config.Some? <==> agentId in configs
    ensures config.Some? ==> config.value == configs[agentId]
  {
    if agentId in configs then Some(configs[agentId]) else None
  }

  /** The keywords a persona filters on; none for an unknown persona. */
  function PersonaKeywords(configs: map<string, AgentConfig>, agentId: string): seq<string>
  {
    match ConfigFor(configs, agentId)
    case None => []
    case Some(config) => config.keywordsForFiltering
  }

  /** `get_specialized_context_for_agent` over the registry `configs`; its `query_text` is never read. */
  function SpecializedContext(configs: map<string, AgentConfig>, agentId: string, chunks: seq<Chunk>, topN: int)
    : (r: seq<Chunk>)
    ensures agentId !in configs ==> r == PyTake(chunks, topN)
    ensures agentId in configs && configs[agentId].keywordsForFiltering == [] ==> r == PyTake(chunks, topN)
    ensures agentId in configs && configs[agentId].keywordsForFiltering != [] ==>
              r == PyTake(KeywordFilter(configs[agentId].keywordsForFiltering, chunks), topN)
  {
    FilterContext(PersonaKeywords(configs, agentId), chunks, topN)
  }

  /** Filtering an already filtered context again changes nothing, for any `top_n >= 0`. */
  lemma FilterContextIdempotent(keywords: seq<string>, chunks: seq<Chunk>, topN: int)
    requires topN >= 0
    ensures FilterContext(keywords, FilterContext(keywords, chunks, topN), topN) == FilterContext(keywords, chunks, topN)
  {
    PyTakeTwice(chunks, topN);
    if keywords != [] {
      var all := KeywordFilter(keywords, chunks);
      var kept := PyTake(all, topN);
      KeywordFilterFixpoint(keywords, kept);
      PyTakeTwice(all, topN);
    }
  }

  /** An on-topic chunk always reaches the context when fewer than `top_n` chunks precede it. */
  lemma OnTopicChunkKept(keywords: seq<string>, chunks: seq<Chunk>, j: nat, topN: int)
    requires keywords != [] && j < |chunks| && j < topN
    requires OnTopic(keywords, chunks[j])
    ensures chunks[j] in FilterContext(keywords, chunks, topN)
  {
    var before := KeywordFilter(keywords, chunks[..j]);
    KeywordFilterPosition(keywords, chunks, j);
    assert PyTake(KeywordFilter(keywords, chunks), topN)[|before|] == chunks[j];
  }

  /** An on-topic chunk at position `j` lands right after the kept chunks that precede it. */
  lemma KeywordFilterPosition(keywords: seq<string>, chunks: seq<Chunk>, j: nat)
    requires j < |chunks| && OnTopic(keywords, chunks[j])
    ensures |KeywordFilter(keywords, chunks[..j])| < |KeywordFilter(keywords, chunks)|
    ensures KeywordFilter(keywords, chunks)[|KeywordFilter(keywords, chunks[..j])|] == chunks[j]
  {
    assert chunks[j..] == [chunks[j]] + chunks[j + 1..];
    assert KeywordFilter(keywords, chunks[j..]) == [chunks[j]] + KeywordFilter(keywords, chunks[j + 1..]);
    assert chunks == chunks[..j] + chunks[j..];
    KeywordFilterAppend(keywords, chunks[..j], chunks[j..]);
  }

  /** A news item on a BMTC fare revision is on topic for the public-transport persona, so it
      reaches that persona's context when it is among the first three retrieved chunks. */
  lemma BusFareChunkKept(chunks: seq<Chunk>, j: nat)
    requires j < |chunks| && j < 3 && chunks[j] == Chunk("BMTC bus fare revised")
    ensures Chunk("BMTC bus fare revised") in SpecializedContext(AgentConfigs, PublicTransport, chunks, 3)
  {
    var keywords := PersonaKeywords(AgentConfigs, PublicTransport);
    assert keywords[3] == "bmtc";
    assert LowerAll(keywords)[3] == "bmtc";
    var text := Lower("BMTC bus fare revised");
    assert text[0..4] == "bmtc";
    assert OccursAt(text, LowerAll(keywords)[3], 0);
    MatchesAnyIff(LowerAll(keywords), text);
    assert OnTopic(keywords, chunks[j]);
    OnTopicChunkKept(keywords, chunks, j, 3);
  }

  /** `any(...)` over the lower-cased keywords, stopping at the first hit. */
  method AnyKeywordIn(keywords: seq<string>, textLower: string) returns (found: bool)
    ensures found == MatchesAny(keywords, textLower)
  {
    found := false;
    var k := 0;
    while k < |keywords| && !found
      invariant 0 <= k <= |keywords|
      invariant MatchesAny(keywords, textLower) == (found || MatchesAny(keywords[k..], textLower))
    {
      found := Contains(textLower, keywords[k]);
      assert keywords[k..][1..] == keywords[k + 1..];
      k := k + 1;
    }
  }

  /** `get_specialized_context_for_agent`, building `filtered_chunks` by appending in a loop. */
  method GetSpecializedContextForAgent(configs: map<string, AgentConfig>, queryText: string, agentId: string,
                                       allChunks: seq<Chunk>, topN: int)
    returns (context: seq<Chunk>)
    ensures context == SpecializedContext(configs, agentId, allChunks, topN)
  {
    var agentConfig := ConfigFor(configs, agentId);
    if agentConfig.None? || agentConfig.value.keywordsForFiltering == [] {
      return PyTake(allChunks, topN);
    }
    var configured := agentConfig.value.keywordsForFiltering;
    var keywords := LowerAll(configured);
    var filtered: seq<Chunk> := [];
    for i := 0 to |allChunks|
      invariant filtered == KeywordFilter(configured, allChunks[..i])
    {
      var chunk := allChunks[i];
      var textLower := Lower(chunk.chunkText);
      var hit := AnyKeywordIn(keywords, textLower);
      KeywordFilterAppend(configured, allChunks[..i], [chunk]);
      assert allChunks[..i + 1] == allChunks[..i] + [chunk];
      if hit {
        filtered := filtered + [chunk];
      }
    }
    assert allChunks[..|allChunks|] == allChunks;
    context := PyTake(filtered, topN);
  }

  // ---------------------------------------------------------------------------
  // Dispatch of one query in `home_view`
  // ---------------------------------------------------------------------------

  /** `agent_config.get(...)` on the `None` that `AGENT_CONFIGS.get` returns for an unknown id. */
  datatype ViewError = NoAgentConfig(agentId: string)

  /** The context handed to the LLM and the persona's system prompt. */
  datatype Selection = Selection(context: seq<Chunk>, systemPrompt: string)

  /** Step 2 of `home_view`: `general_news` takes the first three retrieved chunks, any other
      persona goes through the keyword filter and then needs a registry entry. */
  function SelectContext(configs: map<string, AgentConfig>, agentId: string, retrieved: seq<Chunk>)
    : (r: Result<Selection, ViewError>)
    requires GeneralNews in configs
    ensures r.Success? <==> agentId in configs
    ensures r.Success? ==> |r.value.context| <= 3 && forall c :: c in r.value.context ==> c in retrieved
    ensures r.Success? ==> r.value.systemPrompt == configs[agentId].systemPrompt
    ensures agentId == GeneralNews ==> r.Success? && r.value.context == PyTake(retrieved, 3)
    ensures agentId != GeneralNews && r.Success? ==> r.value.context == SpecializedContext(configs, agentId, retrieved, 3)
  {
    if agentId != GeneralNews then
      var context := SpecializedContext(configs, agentId, retrieved, 3);
      match ConfigFor(configs, agentId)
      case None => Failure(NoAgentConfig(agentId))
      case Some(agentConfig) => Success(Selection(context, agentConfig.systemPrompt))
    else
      Success(Selection(PyTake(retrieved, 3), configs[GeneralNews].systemPrompt))
  }

  /** The answer for a selected context: a fixed apology for an empty context, otherwise the LLM's. */
  function Answer(query: string, selection: Selection, apiKey: Option<string>, llm: LlmFn): (answer: string)
    ensures selection.context == [] ==> answer == Apology
  {
    if selection.context == [] then Apology
    else GenerateAnswerWithLlm(query, selection.context, selection.systemPrompt, DefaultLlmModel, apiKey, llm)
  }

  /** With an empty context the LLM is not consulted: the answer is the same whatever it and the
      key are; with a context, the answer is the one `generate_answer_with_llm` gives. */
  lemma AnswerSkipsLlmWithoutContext(query: string, selection: Selection, apiKey: Option<string>, llm: LlmFn,
                                     otherKey: Option<string>, otherLlm: LlmFn)
    ensures selection.context == [] ==> Answer(query, selection, apiKey, llm) == Answer(query, selection, otherKey, otherLlm)
    ensures selection.context != [] ==>
              Answer(query, selection, apiKey, llm)
              == GenerateAnswerWithLlm(query, selection.context, selection.systemPrompt, DefaultLlmModel, apiKey, llm)
  {
  }

  /** A form submission, as Django's `request.method` and `request.POST`. */
  datatype Request = Request(httpMethod: string, post: map<string, string>)

  /** What `home_view` passes to the template besides the registry. */
  datatype Page = Page(answer: Option<string>, selectedAgent: string, userQuery: string)

  /** The settings `home_view` and `load_rag_components_once` read. */
  datatype Settings = Settings(csvFilePath: string, faissIndexPath: string, openAiApiKey: Option<string>)

  /** `QueryDict.get(key, default)`. */
  function PostGet(post: map<string, string>, key: string, default: string): (value: string)
    ensures key in post ==> value == post[key]
    ensures key !in post ==> value == default
  {
    if key in post then post[key] else default
  }

  /** The persona chosen in the form, `general_news` when the form names none. */
  function SelectedAgent(request: Request): (agentId: string)
    ensures "agent_persona" !in request.post ==> agentId == GeneralNews
    ensures "agent_persona" in request.post ==> agentId == request.post["agent_persona"]
  {
    PostGet(request.post, "agent_persona", GeneralNews)
  }

  /** The submitted query with its surrounding whitespace removed, empty when the form has none. */
  function UserQuery(request: Request): (query: string)
    ensures "user_query" !in request.post ==> query == ""
    ensures "user_query" in request.post ==> query == Strip(request.post["user_query"])
    ensures query == [] || (!IsSpace(query[0]) && !IsSpace(query[|query| - 1]))
  {
    Strip(PostGet(request.post, "user_query", ""))
  }

  /** The page `home_view` renders, given what the pipeline retrieves for the query. */
  function Respond(configs: map<string, AgentConfig>, request: Request, retrieved: seq<Chunk>,
                   apiKey: Option<string>, llm: LlmFn)
    : (page: Result<Page, ViewError>)
    requires GeneralNews in configs
    ensures page.Success? ==> page.value.selectedAgent == SelectedAgent(request)
                              && page.value.userQuery == UserQuery(request)
    ensures page.Success? ==> (page.value.answer.Some? <==> request.httpMethod == "POST" && UserQuery(request) != "")
    ensures page.Failure? <==> request.httpMethod == "POST" && UserQuery(request) != ""
                               && SelectedAgent(request) !in configs
  {
    var agentId := SelectedAgent(request);
    var query := UserQuery(request);
    if request.httpMethod == "POST" && query != "" then
      match SelectContext(configs, agentId, retrieved)
      case Failure(e) => Failure(e)
      case Success(selection) => Success(Page(Some(Answer(query, selection, apiKey, llm)), agentId, query))
    else Success(Page(None, agentId, query))
  }

  /** A submitted query with a registered persona is answered with the fixed apology when the
      persona's context is empty, whatever the LLM and the key; otherwise with the answer
      `generate_answer_with_llm` gives for that context and the persona's prompt. */
  lemma RespondAnswer(configs: map<string, AgentConfig>, request: Request, retrieved: seq<Chunk>,
                      apiKey: Option<string>, llm: LlmFn, otherKey: Option<string>, otherLlm: LlmFn)
    requires GeneralNews in configs
    requires request.httpMethod == "POST" && UserQuery(request) != "" && SelectedAgent(request) in configs
    ensures var selection := SelectContext(configs, SelectedAgent(request), retrieved).value;
      var page := Respond(configs, request, retrieved, apiKey, llm);
      && page.Success?
      && (selection.context == [] ==>
            page.value.answer == Some(Apology) && Respond(configs, request, retrieved, otherKey, otherLlm) == page)
      && (selection.context != [] ==>
            page.value.answer == Some(GenerateAnswerWithLlm(UserQuery(request), selection.context,
                                                            selection.systemPrompt, DefaultLlmModel, apiKey, llm)))
  {
  }

  /** A query made only of whitespace is not answered. */
  lemma BlankQueryNotAnswered(configs: map<string, AgentConfig>, request: Request, retrieved: seq<Chunk>,
                              apiKey: Option<string>, llm: LlmFn)
    requires GeneralNews in configs
    requires "user_query" in request.post
    requires forall i | 0 <= i < |request.post["user_query"]| :: IsSpace(request.post["user_query"][i])
    ensures Respond(configs, request, retrieved, apiKey, llm) == Success(Page(None, SelectedAgent(request), ""))
  {
    StripEmptyIffBlank(request.post["user_query"]);
  }

  /** Steps 1 to 3 of `home_view` for a pipeline that exists: retrieve seven chunks for a submitted
      query, select the persona's context and prompt, and answer. */
  method HandleQuery(pipeline: RagPipeline, configs: map<string, AgentConfig>, request: Request,
                     apiKey: Option<string>, search: SearchFn, llm: LlmFn) returns (page: Result<Page, ViewError>)
    requires GeneralNews in configs
    ensures page == Respond(configs, request, Retrieved(pipeline.Parts(), UserQuery(request), 7, search), apiKey, llm)
  {
    var agentId := SelectedAgent(request);
    var query := UserQuery(request);
    if request.httpMethod == "POST" && query != "" {
      var retrieved := pipeline.RetrieveRelevantChunks(query, 7, search);
      var selection: Selection;
      if agentId != GeneralNews {
        var context := GetSpecializedContextForAgent(configs, query, agentId, retrieved, 3);
        var agentConfig := ConfigFor(configs, agentId);
        if agentConfig.None? {
          return Failure(NoAgentConfig(agentId));
        }
        selection := Selection(context, agentConfig.value.systemPrompt);
      } else {
        selection := Selection(PyTake(retrieved, 3), configs[GeneralNews].systemPrompt);
      }
      var answer: string;
      if selection.context == [] {
        answer := Apology;
      } else {
        answer := GenerateAnswerWithLlm(query, selection.context, selection.systemPrompt,
                                        DefaultLlmModel, apiKey, llm);
      }
      page := Success(Page(Some(answer), agentId, query));
    } else {
      page := Success(Page(None, agentId, query));
    }
  }

  // ---------------------------------------------------------------------------
  // The module-level pipeline singleton
  // ---------------------------------------------------------------------------

  /** The module state of `views.py`: the global `_rag_pipeline`, the registry `AGENT_CONFIGS`
      and the file store the pipeline uses. */
  class AppState {
    var ragPipeline: RagPipeline?
    const agentConfigs: map<string, AgentConfig>
    const fs: FileSystem

    /** The registry names the general persona, which every request may fall back to, and a
        pipeline once built works on this module's file store. */
    ghost predicate Valid()
      reads this
    {
      GeneralNews in agentConfigs && (ragPipeline != null ==> ragPipeline.fs == fs)
    }

    /** Module import: the global is unset and the registry is `AGENT_CONFIGS`. */
    constructor (fs: FileSystem)
      ensures Valid()
      ensures ragPipeline == null && agentConfigs == AgentConfigs && this.fs == fs
    {
      ragPipeline := null;
      agentConfigs := AgentConfigs;
      this.fs := fs;
      GeneralNewsRegistered();
    }

    /** `load_rag_components_once`: build the pipeline only while the global is still unset. */
    method LoadRagComponentsOnce(settings: Settings, csv: Result<Table, CsvError>, modelLoads: bool)
      returns (pipeline: RagPipeline)
      requires Valid()
      modifies this, fs
      ensures Valid()
      ensures ragPipeline == pipeline
      ensures old(ragPipeline) != null ==> pipeline == old(ragPipeline) && fs.files == old(fs.files)
      ensures old(ragPipeline) == null ==>
        && fresh(pipeline) && pipeline.fs == fs
        && pipeline.csvFilePath == settings.csvFilePath && pipeline.indexFilePath == settings.faissIndexPath
        && var out := Initialize(csv, modelLoads, old(fs.files), settings.faissIndexPath);
           pipeline.Parts() == out.parts && fs.files == out.files
    {
      if ragPipeline == null {
        ragPipeline := new RagPipeline(settings.csvFilePath, settings.faissIndexPath, fs, csv, modelLoads);
      }
      pipeline := ragPipeline;
    }

    /** `home_view`: make sure the pipeline exists, then answer a submitted query. */
    method HomeView(request: Request, settings: Settings, csv: Result<Table, CsvError>, modelLoads: bool,
                    search: SearchFn, llm: LlmFn) returns (page: Result<Page, ViewError>)
      requires Valid()
      modifies this, fs
      ensures Valid() && ragPipeline != null
      ensures old(ragPipeline) != null ==> ragPipeline == old(ragPipeline) && fs.files == old(fs.files)
      ensures old(ragPipeline) == null ==>
        && fresh(ragPipeline)
        && ragPipeline.csvFilePath == settings.csvFilePath && ragPipeline.indexFilePath == settings.faissIndexPath
        && var out := Initialize(csv, modelLoads, old(fs.files), settings.faissIndexPath);
           ragPipeline.Parts() == out.parts && fs.files == out.files
      ensures page == Respond(agentConfigs, request, Retrieved(ragPipeline.Parts(), UserQuery(request), 7, search),
                              settings.openAiApiKey, llm)
    {
      var pipeline := LoadRagComponentsOnce(settings, csv, modelLoads);
      page := HandleQuery(pipeline, agentConfigs, request, settings.openAiApiKey, search, llm);
    }
  }
}
