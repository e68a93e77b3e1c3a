/** The retrieval pipeline of the Bangalore news chatbot: loading the news corpus, choosing
    between loading and rebuilding the FAISS index, mapping search positions back to passages,
    and building the grounded prompt for the LLM.

    The embedding model, FAISS and the OpenAI client are foreign code. They appear here only
    through what the pipeline observes of them: whether the model loads, what the index file
    store holds, the positions a search returns and the reply of the chat call. */
module Rag {
  import opened Wrappers
  import opened PyText

  /** The CSV column that holds each news passage. */
  const TextColumn: string := "DOC_DET"
  /** The SentenceTransformer model the pipeline loads. */
  const EmbeddingModelName: string := "all-MiniLM-L6-v2"

  /** One retrieved passage, the `{'chunk_text': ...}` dictionary of the source. */
  datatype Chunk = Chunk(chunkText: string)

  /** The exceptions `pd.read_csv` may raise, all caught by `_load_data`. */
  datatype CsvError = FileNotFound | EmptyData | Unexpected(message: string)

  /** A parsed CSV file, column by column; a `None` cell is one pandas reads as null. */
  datatype Table = Table(columns: map<string, seq<Option<string>>>)

  datatype EmbeddingModel = EmbeddingModel(name: string)

  /** A flat L2 index; only the number of vectors it holds is observable here. */
  datatype FaissIndex = FaissIndex(ntotal: nat)

  /** What the file at the index path holds: a file `faiss.read_index` fails on, or an index. */
  datatype IndexFile = Unreadable | Holds(index: FaissIndex)

  /** `model.encode([query])` followed by `index.search(..., top_k)`: the positions of the first
      row of the result, or `None` when either call raises. */
  type SearchFn = (FaissIndex, EmbeddingModel, string, int) -> Option<seq<int>>

  /** The files the pipeline reads its index from and writes it to, keyed by path;
      a path is absent when `os.path.exists` is false for it. */
  class FileSystem {
    var files: map<string, IndexFile>

    constructor (files: map<string, IndexFile>)
      ensures this.files == files
    {
      this.files := files;
    }
  }

  // ---------------------------------------------------------------------------
  // Corpus loading
  // ---------------------------------------------------------------------------

  /** `dropna` followed by `reset_index(drop=True)` on one column: the non-null cells in order. */
  function NonNull(cells: seq<Option<string>>): (rows: seq<string>)
    ensures |rows| <= |cells|
    ensures forall s :: s in rows <==> Some(s) in cells
  {
    if cells == [] then []
    else
      assert cells == [cells[0]] + cells[1..];
      (if cells[0].Some? then [cells[0].value] else []) + NonNull(cells[1..])
  }

  /** Dropping nulls keeps the surviving rows in their relative order. */
  lemma {:induction false} NonNullAppend(a: seq<Option<string>>, b: seq<Option<string>>)
    ensures NonNull(a + b) == NonNull(a) + NonNull(b)
  {
    if a == [] {
      assert a + b == b;
    } else {
      assert (a + b)[1..] == a[1..] + b;
      NonNullAppend(a[1..], b);
    }
  }

  /** Exactly the non-null cells survive: one row per `Some` cell. */
  lemma {:induction false} NonNullCount(cells: seq<Option<string>>)
    ensures |NonNull(cells)| == CountSome(cells)
  {
    if cells != [] {
      NonNullCount(cells[1..]);
    }
  }

  /** The number of non-null cells. */
  function CountSome(cells: seq<Option<string>>): nat
  {
    if cells == [] then 0 else (if cells[0].Some? then 1 else 0) + CountSome(cells[1..])
  }

  /** `_load_data`: the passages of the text column with null cells dropped, or no passage at
      all when the file cannot be read or has no `DOC_DET` column. */
  function LoadData(read: Result<Table, CsvError>): (rows: seq<string>)
    ensures rows != [] ==> read.Success? && TextColumn in read.value.columns
    ensures read.Success? && TextColumn in read.value.columns ==>
              |rows| <= |read.value.columns[TextColumn]|
    ensures forall s :: s in rows <==>
              read.Success? && TextColumn in read.value.columns && Some(s) in read.value.columns[TextColumn]
  {
    match read
    case Failure(_) => []
    case Success(table) =>
      if TextColumn !in table.columns then [] else NonNull(table.columns[TextColumn])
  }

  // ---------------------------------------------------------------------------
  // Initialisation and the load-or-create decision
  // ---------------------------------------------------------------------------

  /** The three fields `data`, `model` and `index` of a pipeline. */
  datatype Components = Components(data: seq<string>, model: Option<EmbeddingModel>, index: Option<FaissIndex>)
  {
    /** The negation of the "not fully initialized" test of `retrieve_relevant_chunks`. */
    predicate Ready()
    {
      index.Some? && data != [] && model.Some?
    }
  }

  datatype IndexStep = IndexStep(index: Option<FaissIndex>, files: map<string, IndexFile>)

  /** `_load_embedding_model`: the model, or `None` when loading it raised. */
  function LoadEmbeddingModel(loads: bool): (model: Option<EmbeddingModel>)
    ensures model.Some? <==> loads
    ensures model.Some? ==> model.value.name == EmbeddingModelName
  {
    if loads then Some(EmbeddingModel(EmbeddingModelName)) else None
  }

  /** `_load_faiss_index` as a function of the file store: the index returned and the files after. */
  function LoadOrCreate(files: map<string, IndexFile>, path: string, data: seq<string>,
                        model: Option<EmbeddingModel>): (step: IndexStep)
    ensures step.index.Some? ==> path in step.files && step.files[path] == Holds(step.index.value)
    ensures step.index.None? ==> step.files == files
  {
    if path in files && files[path].Holds? then IndexStep(Some(files[path].index), files)
    else if data != [] && model.Some? then
      IndexStep(Some(FaissIndex(|data|)), files[path := Holds(FaissIndex(|data|))])
    else IndexStep(None, files)
  }

  /** The three outcomes of the load-or-create decision, and that only the index path is touched. */
  lemma LoadOrCreateOutcomes(files: map<string, IndexFile>, path: string, data: seq<string>,
                             model: Option<EmbeddingModel>)
    ensures var step := LoadOrCreate(files, path, data, model);
      && (path in files && files[path].Holds? ==>
            step.index == Some(files[path].index) && step.files == files)
      && (!(path in files && files[path].Holds?) && data != [] && model.Some? ==>
            step.index == Some(FaissIndex(|data|)) && step.files == files[path := Holds(FaissIndex(|data|))])
      && (step.index.None? <==> !(path in files && files[path].Holds?) && (data == [] || model.None?))
      && (step.index.None? ==> step.files == files)
      && (forall p :: p != path ==> (p in step.files <==> p in files))
      && (forall p :: p != path && p in files ==> step.files[p] == files[p])
  {
  }

  /** Once an index was obtained, the file at the index path holds it, so deciding again
      loads that same index and writes nothing. */
  lemma LoadOrCreateStable(files: map<string, IndexFile>, path: string, data: seq<string>,
                           model: Option<EmbeddingModel>, data': seq<string>, model': Option<EmbeddingModel>)
    requires LoadOrCreate(files, path, data, model).index.Some?
    ensures var step := LoadOrCreate(files, path, data, model);
      LoadOrCreate(step.files, path, data', model') == step
  {
  }

  datatype InitOutcome = InitOutcome(parts: Components, files: map<string, IndexFile>)

  /** `_initialize_components`: each stage runs only when the previous one succeeded. */
  function Initialize(csv: Result<Table, CsvError>, modelLoads: bool,
                      files: map<string, IndexFile>, indexPath: string): (out: InitOutcome)
    ensures out.parts.data == LoadData(csv)
    ensures out.parts.index.Some? ==>
              out.parts.Ready() && indexPath in out.files && out.files[indexPath] == Holds(out.parts.index.value)
    ensures out.parts.index.None? ==> out.files == files
  {
    var data := LoadData(csv);
    if data == [] then InitOutcome(Components(data, None, None), files)
    else
      var model := LoadEmbeddingModel(modelLoads);
      if model.None? then InitOutcome(Components(data, None, None), files)
      else
        var step := LoadOrCreate(files, indexPath, data, model);
        InitOutcome(Components(data, model, step.index), step.files)
  }

  /** The short-circuits of initialisation, and that it succeeds exactly when the corpus has a
      passage and the model loads: the "no index" outcome of the load-or-create decision is
      unreachable from here. */
  lemma InitializeStages(csv: Result<Table, CsvError>, modelLoads: bool,
                         files: map<string, IndexFile>, indexPath: string)
    ensures var out := Initialize(csv, modelLoads, files, indexPath);
      && out.parts.data == LoadData(csv)
      && (out.parts.data == [] ==> out.parts.model.None? && out.parts.index.None? && out.files == files)
      && (!modelLoads ==> out.parts.model.None? && out.parts.index.None? && out.files == files)
      && (out.parts.Ready() <==> LoadData(csv) != [] && modelLoads)
      && (out.parts.index.Some? ==> out.parts.Ready())
  {
  }

  /** After a successful start the index file is readable; a restart over the same corpus loads
      that index instead of rebuilding it, and leaves the files as they are. When the start had to
      build the index, the index holds one vector per passage. */
  lemma InitializeRestart(csv: Result<Table, CsvError>, modelLoads: bool,
                          files: map<string, IndexFile>, indexPath: string)
    requires Initialize(csv, modelLoads, files, indexPath).parts.Ready()
    ensures var out := Initialize(csv, modelLoads, files, indexPath);
      && indexPath in out.files && out.files[indexPath] == Holds(out.parts.index.value)
      && Initialize(csv, modelLoads, out.files, indexPath) == out
      && (!(indexPath in files && files[indexPath].Holds?) ==>
            out.parts.index.value.ntotal == |out.parts.data|)
  {
  }

  // ---------------------------------------------------------------------------
  // Retrieval
  // ---------------------------------------------------------------------------

  /** The search positions that fall inside the corpus, mapped to their passages in search order. */
  function InBounds(data: seq<string>, positions: seq<int>): (chunks: seq<Chunk>)
    ensures forall c :: c in chunks ==> c.chunkText in data
  {
    if positions == [] then []
    else
      (if 0 <= positions[0] < |data| then [Chunk(data[positions[0]])] else [])
      + InBounds(data, positions[1..])
  }

  /** Mapping positions distributes over concatenation, so search order is kept. */
  lemma {:induction false} InBoundsAppend(data: seq<string>, a: seq<int>, b: seq<int>)
    ensures InBounds(data, a + b) == InBounds(data, a) + InBounds(data, b)
  {
    if a == [] {
      assert a + b == b;
    } else {
      assert (a + b)[1..] == a[1..] + b;
      InBoundsAppend(data, a[1..], b);
    }
  }

  /** Every retrieved chunk is the passage at an in-bounds search position; there are never more
      chunks than positions, and exactly as many when every position is in bounds. */
  lemma {:induction false} InBoundsSound(data: seq<string>, positions: seq<int>)
    ensures |InBounds(data, positions)| <= |positions|
    ensures |InBounds(data, positions)| == |positions| <==>
              forall k | 0 <= k < |positions| :: 0 <= positions[k] < |data|
    ensures forall c :: c in InBounds(data, positions) ==>
              exists k | 0 <= k < |positions| :: 0 <= positions[k] < |data| && c == Chunk(data[positions[k]])
  {
    if positions != [] {
      var rest := positions[1..];
      InBoundsSound(data, rest);
      forall c | c in InBounds(data, positions)
        ensures exists k | 0 <= k < |positions| :: 0 <= positions[k] < |data| && c == Chunk(data[positions[k]])
      {
        if c !in InBounds(data, rest) {
          assert 0 <= positions[0] < |data| && c == Chunk(data[positions[0]]);
        } else {
          var k :| 0 <= k < |rest| && 0 <= rest[k] < |data| && c == Chunk(data[rest[k]]);
          assert positions[k + 1] == rest[k];
        }
      }
      if !(0 <= positions[0] < |data|) {
        assert !(forall k | 0 <= k < |positions| :: 0 <= positions[k] < |data|);
      } else {
        assert (forall k | 0 <= k < |positions| :: 0 <= positions[k] < |data|) <==>
               (forall k | 0 <= k < |rest| :: 0 <= rest[k] < |data|) by {
          forall k | 0 <= k < |rest| ensures rest[k] == positions[k + 1] { }
        }
      }
    }
  }

  /** What `retrieve_relevant_chunks` returns for a pipeline in the given state. */
  function Retrieved(parts: Components, query: string, topK: int, search: SearchFn): (chunks: seq<Chunk>)
    ensures !parts.Ready() ==> chunks == []
    ensures forall c :: c in chunks ==> c.chunkText in parts.data
  {
    if !parts.Ready() then []
    else match search(parts.index.value, parts.model.value, query, topK)
      case None => []
      case Some(positions) => InBounds(parts.data, positions)
  }

  /** A pipeline that is not fully initialised retrieves nothing without searching; a ready one
      retrieves at most as many chunks as the search returned positions, hence at most `top_k`
      when the search honours it. */
  lemma RetrievedBounds(parts: Components, query: string, topK: int, search: SearchFn)
    ensures !parts.Ready() ==> Retrieved(parts, query, topK, search) == []
    ensures parts.Ready() ==>
      var found := search(parts.index.value, parts.model.value, query, topK);
      && (found.None? ==> Retrieved(parts, query, topK, search) == [])
      && (found.Some? ==> |Retrieved(parts, query, topK, search)| <= |found.value|)
      && (found.Some? && |found.value| <= topK ==> |Retrieved(parts, query, topK, search)| <= topK)
  {
    if parts.Ready() && search(parts.index.value, parts.model.value, query, topK).Some? {
      InBoundsSound(parts.data, search(parts.index.value, parts.model.value, query, topK).value);
    }
  }

  // ---------------------------------------------------------------------------
  // Answer generation
  // ---------------------------------------------------------------------------

  const PlaceholderApiKey: string := "YOUR_OPENAI_API_KEY_HERE"
  const MissingKeyAnswer: string :=
    "Error: OpenAI API key is not configured. Please set OPENAI_API_KEY in settings.py or as an environment variable."
  const NoContextFound: string := "No relevant context found."
  const LlmErrorPrefix: string := "An error occurred while generating the answer: "
  const LlmErrorSuffix: string := ". Please check your OpenAI API key and internet connection."
  const DefaultLlmModel: string := "gpt-4o-mini"
  const MaxTokens: nat := 300
  const Temperature: real := 0.3

  /** The chat-completion request sent to OpenAI. */
  datatype ChatRequest = ChatRequest(apiKey: string, systemMessage: string, userMessage: string,
                                     model: string, maxTokens: nat, temperature: real)

  /** The chat call: the message content of the first choice, or the text of the exception raised. */
  type LlmFn = ChatRequest -> Result<string, string>

  /** `[chunk['chunk_text'] for chunk in chunks]`. */
  function ChunkTexts(chunks: seq<Chunk>): (texts: seq<string>)
    ensures |texts| == |chunks|
    ensures forall k | 0 <= k < |chunks| :: texts[k] == chunks[k].chunkText
  {
    seq(|chunks|, i requires 0 <= i < |chunks| => chunks[i].chunkText)
  }

  /** The context block: the chunk texts in order, separated by a blank line, or a fixed notice
      for none. */
  function ContextString(chunks: seq<Chunk>): (ctx: string)
    ensures chunks == [] ==> ctx == NoContextFound
    ensures chunks != [] ==> ctx == Join("\n\n", ChunkTexts(chunks))
    ensures forall k | 0 <= k < |chunks| :: Contains(ctx, chunks[k].chunkText)
  {
    if chunks == [] then NoContextFound
    else
      var texts := ChunkTexts(chunks);
      JoinContainsParts("\n\n", texts);
      Join("\n\n", texts)
  }

  /** The header that opens the user turn, just before the context block. */
  const ContextHeader: string := "Based on the following context:\n\nContext:\n"

  /** The user turn of the chat: the context block under its header, then the question and the
      answer cue. */
  function UserMessage(query: string, chunks: seq<Chunk>): (message: string)
    ensures var ctx := ContextString(chunks);
      && |ContextHeader| + |ctx| <= |message|
      && message[..|ContextHeader| + |ctx|] == ContextHeader + ctx
      && message[|ContextHeader| + |ctx|..] == "\n\nQuestion: " + query + "\n\nAnswer:"
  {
    var ctx := ContextString(chunks);
    var tail := "\n\nQuestion: " + query + "\n\nAnswer:";
    assert (ContextHeader + ctx + tail)[..|ContextHeader| + |ctx|] == ContextHeader + ctx;
    assert (ContextHeader + ctx + tail)[|ContextHeader| + |ctx|..] == tail;
    ContextHeader + ctx + tail
  }

  /** The user message carries the question and every chunk text of the context. */
  lemma UserMessageGrounded(query: string, chunks: seq<Chunk>)
    ensures Contains(UserMessage(query, chunks), query)
    ensures chunks == [] ==> Contains(UserMessage(query, chunks), NoContextFound)
    ensures forall k | 0 <= k < |chunks| :: Contains(UserMessage(query, chunks), chunks[k].chunkText)
  {
    var head := ContextHeader;
    var ctx := ContextString(chunks);
    var tail := "\n\nQuestion: " + query + "\n\nAnswer:";
    assert UserMessage(query, chunks) == head + ctx + tail;
    assert OccursAt(query, query, 0);
    ContainsInMiddle("\n\nQuestion: ", query, "\n\nAnswer:", query);
    ContainsInRight(head + ctx, tail, query);
    assert OccursAt(ctx, ctx, 0);
    ContainsInMiddle(head, ctx, tail, ctx);
    forall k | 0 <= k < |chunks|
      ensures Contains(UserMessage(query, chunks), chunks[k].chunkText)
    {
      ContainsInMiddle(head, ctx, tail, chunks[k].chunkText);
    }
  }

  /** `generate_answer_with_llm`: the key guard, the grounded prompt and the error wrapping.
      `apiKey` is `settings.OPENAI_API_KEY`, `None` when it is unset. */
  function GenerateAnswerWithLlm(query: string, chunks: seq<Chunk>, systemMessage: string,
                                 llmModel: string, apiKey: Option<string>, llm: LlmFn): (answer: string)
    ensures apiKey.None? || apiKey.value == "" || apiKey.value == PlaceholderApiKey ==>
              answer == MissingKeyAnswer
  {
    if apiKey.None? || apiKey.value == "" || apiKey.value == PlaceholderApiKey then MissingKeyAnswer
    else
      var request := ChatRequest(apiKey.value, systemMessage, UserMessage(query, chunks),
                                 llmModel, MaxTokens, Temperature);
      match llm(request)
      case Success(content) => Strip(content)
      case Failure(e) => LlmErrorPrefix + e + LlmErrorSuffix
  }

  /** With a usable key the LLM receives exactly the grounded prompt; its failure becomes an error
      text that starts with the fixed prefix, and its reply is returned stripped. With no usable key
      the answer does not depend on the LLM at all. */
  lemma GenerateAnswerOutcomes(query: string, chunks: seq<Chunk>, systemMessage: string,
                               llmModel: string, apiKey: Option<string>, llm: LlmFn, other: LlmFn)
    ensures apiKey.None? || apiKey.value == "" || apiKey.value == PlaceholderApiKey ==>
              GenerateAnswerWithLlm(query, chunks, systemMessage, llmModel, apiKey, llm)
              == GenerateAnswerWithLlm(query, chunks, systemMessage, llmModel, apiKey, other)
    ensures apiKey.Some? && apiKey.value != "" && apiKey.value != PlaceholderApiKey ==>
              var reply := llm(ChatRequest(apiKey.value, systemMessage, UserMessage(query, chunks),
                                           llmModel, MaxTokens, Temperature));
              var answer := GenerateAnswerWithLlm(query, chunks, systemMessage, llmModel, apiKey, llm);
              && (reply.Failure? ==> LlmErrorPrefix <= answer && Contains(answer, reply.error))
              && (reply.Success? ==>
                    && (exists i | 0 <= i <= |reply.value| - |answer| :: SpaceAround(reply.value, answer, i))
                    && (answer == [] || (!IsSpace(answer[0]) && !IsSpace(answer[|answer| - 1]))))
  {
    if apiKey.Some? && apiKey.value != "" && apiKey.value != PlaceholderApiKey {
      var reply := llm(ChatRequest(apiKey.value, systemMessage, UserMessage(query, chunks),
                                   llmModel, MaxTokens, Temperature));
      if reply.Failure? {
        var e := reply.error;
        assert OccursAt(e, e, 0);
        ContainsInRight(LlmErrorPrefix, e, e);
        ContainsInLeft(LlmErrorPrefix + e, LlmErrorSuffix, e);
      } else {
        var answer := GenerateAnswerWithLlm(query, chunks, systemMessage, llmModel, apiKey, llm);
        assert answer == Strip(reply.value);
      }
    }
  }

  // ---------------------------------------------------------------------------
  // The pipeline object
  // ---------------------------------------------------------------------------

  /** `RAGPipeline`: its fields are filled in by the constructor and only read afterwards. */
  class RagPipeline {
    const csvFilePath: string
    const indexFilePath: string
    /** Where `faiss.read_index` and `faiss.write_index` act. */
    const fs: FileSystem
    var data: seq<string>
    var model: Option<EmbeddingModel>
    var index: Option<FaissIndex>

    function Parts(): Components
      reads this
    {
      Components(data, model, index)
    }

    /** `__init__`: start empty, then run the three stages. `csv` is what reading the CSV file
        gives and `modelLoads` whether the embedding model can be loaded. */
    constructor (csvFilePath: string, indexFilePath: string, fs: FileSystem,
                 csv: Result<Table, CsvError>, modelLoads: bool)
      modifies fs
      ensures this.csvFilePath == csvFilePath && this.indexFilePath == indexFilePath && this.fs == fs
      ensures var out := Initialize(csv, modelLoads, old(fs.files), indexFilePath);
        Parts() == out.parts && fs.files == out.files
    {
      this.csvFilePath := csvFilePath;
      this.indexFilePath := indexFilePath;
      this.fs := fs;
      data := [];
      model := None;
      index := None;
      new;
      InitializeComponents(csv, modelLoads);
    }

    /** `_initialize_components`, with its early returns. */
    method InitializeComponents(csv: Result<Table, CsvError>, modelLoads: bool)
      requires model.None? && index.None?
      modifies this, fs
      ensures var out := Initialize(csv, modelLoads, old(fs.files), indexFilePath);
        Parts() == out.parts && fs.files == out.files
    {
      data := LoadData(csv);
      if data == [] {
        return;
      }
      model := LoadEmbeddingModel(modelLoads);
      if model.None? {
        return;
      }
      index := LoadFaissIndex();
      if index.None? {
        return;
      }
    }

    /** `_create_faiss_index`: one vector per passage, written to the index path. */
    method CreateFaissIndex(embeddingCount: nat) returns (built: FaissIndex)
      modifies fs
      ensures built.ntotal == embeddingCount
      ensures fs.files == old(fs.files)[indexFilePath := Holds(built)]
    {
      built := FaissIndex(embeddingCount);
      fs.files := fs.files[indexFilePath := Holds(built)];
    }

    /** `_load_faiss_index`: load a readable file, otherwise rebuild from the passages. */
    method LoadFaissIndex() returns (loaded: Option<FaissIndex>)
      modifies fs
      ensures IndexStep(loaded, fs.files) == LoadOrCreate(old(fs.files), indexFilePath, data, model)
    {
      if indexFilePath in fs.files {
        var file := fs.files[indexFilePath];
        if file.Holds? {
          return Some(file.index);
        }
        if data != [] && model.Some? {
          var built := CreateFaissIndex(|data|);
          return Some(built);
        }
        return None;
      } else {
        if data != [] && model.Some? {
          var built := CreateFaissIndex(|data|);
          return Some(built);
        }
        return None;
      }
    }

    /** `retrieve_relevant_chunks`: walk the search positions, keeping those inside the corpus. */
    method RetrieveRelevantChunks(query: string, topK: int, search: SearchFn) returns (chunks: seq<Chunk>)
      ensures chunks == Retrieved(Parts(), query, topK, search)
    {
      if index.None? || data == [] || model.None? {
        return [];
      }
      var found := search(index.value, model.value, query, topK);
      if found.None? {
        return [];
      }
      var positions := found.value;
      chunks := [];
      var i := 0;
      while i < |positions|
        invariant 0 <= i <= |positions|
        invariant chunks == InBounds(data, positions[..i])
      {
        var p := positions[i];
        InBoundsAppend(data, positions[..i], [p]);
        assert positions[..i + 1] == positions[..i] + [p];
        if 0 <= p < |data| {
          chunks := chunks + [Chunk(data[p])];
        }
        i := i + 1;
      }
      assert positions[..|positions|] == positions;
    }
  }
}
