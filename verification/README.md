# Bangalore news RAG chatbot: a Dafny model of its decision logic

The chatbot answers questions about a fixed corpus of Bangalore news. A `RAGPipeline`
loads the corpus from a CSV file and loads a sentence-embedding model. It then either loads a
FAISS index from disk or builds one and saves it. A query is embedded and searched, and the
search positions are mapped back to passages. A Django view picks a persona. The persona's
keywords narrow the retrieved chunks. The view then either answers with a fixed apology or
asks OpenAI for an answer grounded in the remaining chunks.

The embedding model, FAISS and OpenAI are foreign code. This model keeps only the decisions
made around them:

- `wrappers.dfy` (module `Wrappers`): `Option` and `Result`.
- `pytext.dfy` (module `PyText`): the Python built-ins the decisions rely on. These are
  `str.lower()` (ASCII), the substring test `in`, `str.strip()`, `str.join` and the slice `s[:n]`
  (negative `n` included).
- `rag_pipeline.dfy` (module `Rag`): corpus loading, the initialisation stages, and the
  load-or-create choice for the index. Also the bounds-filtered mapping of search positions, and
  the key guard, prompt and error wrapping of answer generation. `RagPipeline` is a class whose
  constructor fills `data`, `model` and `index` step by step. `FileSystem` is the index-file store
  that `faiss.read_index` reads and `faiss.write_index` updates.
- `personas.dfy` (module `Personas`): the `AGENT_CONFIGS` registry of six personas, with their
  prompts and filter keywords as written in display_app/views.py.
- `views.dfy` (module `Views`): the persona filter (a loop proved against the function
  `SpecializedContext`), the dispatch of `home_view`, and the module state (class `AppState`):
  the global pipeline singleton and the registry. The functions of the view take the registry
  as a parameter `configs`. `AppState` holds `AGENT_CONFIGS` itself, so every request is served
  with the literal registry.

Opaque collaborators are parameters. `csv` is what `pd.read_csv` produced or the error it raised.
`modelLoads` says whether the SentenceTransformer model loads. `search` stands for encoding the
query and searching the index, and returns `None` when either raises. `llm` is the OpenAI chat
call, and returns the reply text or the text of the exception. The settings (paths and API key)
are a `Settings` value.

Three behaviours of the code worth noting:

- An unknown persona id does not fall back to the general persona. `home_view` fails at
  `agent_config.get(...)` (display_app/views.py:148-149). The model returns `Failure(NoAgentConfig(id))`.
- `_load_data` drops the null cells of the text column (rag_core/rag_pipeline.py:80). `pd.read_csv`
  already reads an empty CSV field as null by default, so empty cells are dropped too. Only
  non-null cells, such as whitespace-only text, survive `dropna`. In the model an empty field
  arrives as a `None` cell of the parsed table.
- A loaded index is not checked against the corpus size. The only guard is the per-position
  bounds check (rag_core/rag_pipeline.py:146). A freshly built index holds one vector per passage.

## Model

| member | source | states |
|---|---|---|
| `PyText.StripLeading` | display_app/views.py:135 | the result is a suffix of the input, does not start with whitespace, and everything removed is whitespace |
| `PyText.StripTrailing` | rag_core/rag_pipeline.py:177 | the result is a prefix of the input, does not end with whitespace, and everything removed is whitespace |
| `PyText.Lower` | display_app/views.py:116 | the lower-cased text has the same length, each ASCII capital becomes its lower-case letter, and every other character is unchanged |
| `PyText.Contains` | display_app/views.py:121 | definition of `part in text`: `part` occurs at some position of `text` (no contract; `ContainsInLeft`, `ContainsInRight` and `JoinContainsPart` state its uses) |
| `PyText.IsSpace` | display_app/views.py:135 | definition: the characters Python's `str.isspace()` accepts, which `.strip()` removes here and at rag_core/rag_pipeline.py:177 (no contract; `StripLeading`, `StripTrailing` and `Strip` use it) |
| `PyText.Strip` | display_app/views.py:135 | the stripped query sits at some position of the input with nothing but whitespace before and after it, and neither starts nor ends with whitespace |
| `PyText.StripEmptyIffBlank` | display_app/views.py:135-137 | a stripped query is empty exactly when the input is all whitespace, which is when `home_view` skips processing |
| `PyText.Join` | rag_core/rag_pipeline.py:163 | joining no parts gives `""` and joining one part gives that part; `JoinAppend` and `JoinContainsPart` state the rest |
| `PyText.JoinAppend` | rag_core/rag_pipeline.py:163 | `"\n\n".join` of two non-empty lists is the two joins with one separator between them |
| `PyText.JoinContainsPart` | rag_core/rag_pipeline.py:163 | every chunk text occurs in the joined context |
| `PyText.PyTake` | display_app/views.py:114 | `s[:n]` is the prefix of `s` of length `min(n, len(s))` when `n >= 0`, and of length `max(len(s) + n, 0)` when `n < 0` |
| `PyText.PyTakeTwice` | display_app/views.py:125 | slicing to `n >= 0` twice equals slicing once; for negative `n` a second slice shortens a non-empty result |
| `Rag.NonNull` | rag_core/rag_pipeline.py:80 | `dropna` keeps exactly the non-null cells (a text is kept iff some cell holds it), never more rows than cells |
| `Rag.NonNullAppend` | rag_core/rag_pipeline.py:80 | dropping nulls keeps surviving rows in their relative order and renumbers them consecutively |
| `Rag.NonNullCount` | rag_core/rag_pipeline.py:80 | the number of surviving rows is the number of non-null cells |
| `Rag.LoadData` | rag_core/rag_pipeline.py:58-96 | a read error or a missing `DOC_DET` column gives no rows; otherwise a text is loaded iff some non-null `DOC_DET` cell holds it |
| `Rag.LoadEmbeddingModel` | rag_core/rag_pipeline.py:46-56 | a model is returned iff loading does not raise, and it is `all-MiniLM-L6-v2` |
| `Rag.LoadOrCreate` | rag_core/rag_pipeline.py:107-131 | when an index is returned, the index path holds it afterwards; when none is, no file changes |
| `Rag.LoadOrCreateOutcomes` | rag_core/rag_pipeline.py:107-131 | a readable file is loaded and nothing is written; a missing or unreadable file with data and model gives a new index of `len(data)` vectors, also written to the index path; otherwise `None` and no write; no other path changes |
| `Rag.LoadOrCreateStable` | rag_core/rag_pipeline.py:98-131 | once an index was obtained, the index path holds it, so deciding again loads the same index and writes nothing |
| `Rag.Initialize` | rag_core/rag_pipeline.py:25-43 | the data is what `_load_data` returns; a pipeline with an index is fully ready and its index path holds that index; without an index no file changes |
| `Rag.Components.Ready` | rag_core/rag_pipeline.py:135 | definition: the negation of the "not fully initialized" test, which also decides the success message at rag_core/rag_pipeline.py:19 (no contract; `InitializeStages` states when it holds) |
| `Rag.InitializeStages` | rag_core/rag_pipeline.py:25-43 | empty data leaves model and index unset with no file written; a model failure leaves the index unset; the pipeline is ready iff the corpus has a row and the model loads, so the `None` branch of the index decision is unreachable here |
| `Rag.InitializeRestart` | rag_core/rag_pipeline.py:19-43 | after a successful start the index file holds the index; a restart over the same inputs loads it and changes nothing; a freshly built index has one vector per passage |
| `Rag.InBounds` | rag_core/rag_pipeline.py:142-149 | every chunk of the mapped positions is a passage of the corpus |
| `Rag.InBoundsAppend` | rag_core/rag_pipeline.py:142-149 | mapping positions to passages distributes over concatenation, so results keep search order |
| `Rag.InBoundsSound` | rag_core/rag_pipeline.py:143-149 | each chunk is `data[i]` for a search position `0 <= i < len(data)`; there are at most as many chunks as positions, and exactly as many iff every position is in bounds |
| `Rag.Retrieved` | rag_core/rag_pipeline.py:133-154 | a pipeline that is not fully initialised retrieves nothing, and every retrieved chunk is a passage of its corpus |
| `Rag.RetrievedBounds` | rag_core/rag_pipeline.py:133-154 | a pipeline missing data, model or index returns `[]`, and so does a failing search; otherwise there are no more chunks than positions, and at most `top_k` when the search returns at most `top_k` |
| `Rag.ChunkTexts` | rag_core/rag_pipeline.py:163 | the `chunk_text` of each chunk, one per chunk, in order |
| `Rag.ContextString` | rag_core/rag_pipeline.py:163 | no chunks give "No relevant context found."; otherwise the chunk texts in order joined by `"\n\n"`, so every chunk text occurs in it |
| `Rag.UserMessage` | rag_core/rag_pipeline.py:171 | the user turn is the header `Based on the following context:\n\nContext:\n` followed by the context block, then exactly `\n\nQuestion: `, the query and `\n\nAnswer:` |
| `Rag.UserMessageGrounded` | rag_core/rag_pipeline.py:163-171 | the user message contains the question and every chunk text, or "No relevant context found." when there are no chunks |
| `Rag.GenerateAnswerWithLlm` | rag_core/rag_pipeline.py:158-161 | an unset, empty or placeholder API key yields the fixed configuration-error text |
| `Rag.GenerateAnswerOutcomes` | rag_core/rag_pipeline.py:156-182 | without a usable key the answer does not depend on the LLM; with one, a failure gives a text that starts with "An error occurred while generating the answer: " and contains the error, and a reply is returned with only its surrounding whitespace removed |
| `Rag.RagPipeline.constructor` | rag_core/rag_pipeline.py:10-22 | the fields and the file store after construction are those of the staged initialisation from empty fields |
| `Rag.RagPipeline.InitializeComponents` | rag_core/rag_pipeline.py:25-43 | data, model and index are assigned in order with early returns, matching the staged initialisation |
| `Rag.RagPipeline.CreateFaissIndex` | rag_core/rag_pipeline.py:98-105 | the new index holds one vector per embedding and is written to the index path, nothing else changes |
| `Rag.RagPipeline.LoadFaissIndex` | rag_core/rag_pipeline.py:107-131 | the returned index and the file store afterwards are those of the load-or-create decision |
| `Rag.RagPipeline.RetrieveRelevantChunks` | rag_core/rag_pipeline.py:133-154 | the loop over search positions returns exactly the in-bounds passages in search order, or `[]` when not ready or when the search raises |
| `Views.LowerAll` | display_app/views.py:116 | the i-th result is the i-th keyword lower-cased, so each is as long as the original and free of ASCII capitals |
| `Views.MatchesAny` | display_app/views.py:121 | definition of the short-circuiting `any(keyword in text_lower ...)` (no contract; `MatchesAnyIff` states its meaning) |
| `Views.OnTopic` | display_app/views.py:119-121 | definition: a chunk is on topic when its lower-cased text contains a lower-cased keyword (no contract; `KeywordFilter` and `OnTopicChunkKept` use it) |
| `Views.MatchesAnyIff` | display_app/views.py:121 | the recursive `any(keyword in text_lower ...)` holds iff some keyword occurs in the text |
| `Views.KeywordFilter` | display_app/views.py:117-122 | the filter never grows the list, and every kept chunk comes from the input and contains a lower-cased keyword |
| `Views.KeywordFilterAppend` | display_app/views.py:119-122 | filtering distributes over concatenation: relative order is kept and no matching chunk is skipped ahead of a kept one |
| `Views.KeywordFilterCounts` | display_app/views.py:119-122 | a matching chunk is kept as many times as it occurs and a non-matching one is dropped |
| `Views.KeywordFilterFixpoint` | display_app/views.py:117-122 | the filter leaves a list unchanged iff every chunk in it matches |
| `Views.KeywordFilterPosition` | display_app/views.py:119-122 | a matching chunk is kept, right after the kept chunks that precede it |
| `Views.FilterContext` | display_app/views.py:117-125 | at most `top_n` chunks (for `top_n >= 0`), all from the input; with keywords every chunk matches one |
| `Views.ConfigFor` | display_app/views.py:112 | `AGENT_CONFIGS.get(agent_id)` finds a configuration iff the id is registered, and then it is the registered one |
| `Views.PersonaKeywords` | display_app/views.py:111-116 | definition: the registered persona's `keywords_for_filtering`, and none for an unknown id, so that both fall back to `all_chunks[:top_n]` (no contract; `SpecializedContext` states the outcome) |
| `Views.SpecializedContext` | display_app/views.py:106-125 | an unknown persona or one without keywords gets exactly `all_chunks[:top_n]`; a persona with keywords gets the first `top_n` chunks that match one of them |
| `Views.FilterContextIdempotent` | display_app/views.py:106-125 | applying the filter again with the same keywords and `top_n >= 0` returns the same list |
| `Views.OnTopicChunkKept` | display_app/views.py:117-125 | with keywords, a matching chunk at a position below `top_n` always reaches the context |
| `Views.BusFareChunkKept` | display_app/views.py:88-125 | "BMTC bus fare revised" is kept by the `public_transport` persona whenever it is among the first three retrieved chunks |
| `Views.AnyKeywordIn` | display_app/views.py:121 | the short-circuiting loop answers exactly whether some keyword occurs in the text |
| `Views.GetSpecializedContextForAgent` | display_app/views.py:106-125 | the appending loop computes the persona context for any `query_text` |
| `Views.SelectContext` | display_app/views.py:144-153 | selection succeeds iff the persona id is registered; `general_news` takes `retrieved[:3]` unfiltered, any other persona gets its specialised context; any context has at most 3 chunks from the retrieved ones and comes with the persona's prompt |
| `Views.Answer` | display_app/views.py:155-160 | an empty context gives the fixed apology |
| `Views.AnswerSkipsLlmWithoutContext` | display_app/views.py:155-160 | with an empty context the answer does not depend on the LLM or the key; otherwise it is the answer of `generate_answer_with_llm` |
| `Views.PostGet` | display_app/views.py:134-135 | `request.POST.get(key, default)` is the posted value when the key is present and the default otherwise |
| `Views.SelectedAgent` | display_app/views.py:134 | the posted persona, `general_news` when the form names none |
| `Views.UserQuery` | display_app/views.py:135 | the posted query stripped, `""` when the form has none; it neither starts nor ends with whitespace |
| `Views.Respond` | display_app/views.py:132-170 | the page echoes the selected persona and stripped query; a successful page has an answer iff the request is a POST with a non-blank query; the view fails iff such a request names an unregistered persona |
| `Views.RespondAnswer` | display_app/views.py:137-160 | a POST with a non-blank query and a registered persona is answered: with the fixed apology, whatever the LLM and key, when the persona's context is empty, otherwise with `generate_answer_with_llm` of that context and the persona's prompt |
| `Views.BlankQueryNotAnswered` | display_app/views.py:135-137 | a whitespace-only query produces a page without an answer |
| `Personas.RegisteredPersonas` | display_app/views.py:27-104 | `AGENT_CONFIGS` holds exactly the six persona ids |
| `Personas.SpecialistsFilter` | display_app/views.py:27-104 | every persona other than `general_news` has filter keywords |
| `Personas.GeneralNewsRegistered` | display_app/views.py:28-37 | the registry holds `general_news`, which has no filter keywords |
| `Views.AppState.constructor` | display_app/views.py:9-104 | at import the global pipeline is unset and the registry is `AGENT_CONFIGS`, which holds `general_news` |
| `Views.AppState.LoadRagComponentsOnce` | display_app/views.py:11-22 | a pipeline is built from the settings only while the global is unset, with the fields and index file of the staged initialisation; afterwards the same instance is returned and no file changes; the registry invariant is kept |
| `Views.HandleQuery` | display_app/views.py:137-160 | retrieval with `top_k=7`, persona selection and answering give exactly the page `Respond` describes for what the pipeline retrieves |
| `Views.AppState.HomeView` | display_app/views.py:127-170 | after the call the global pipeline exists: on a first call it is a new pipeline built from the settings, with the fields and index file of the staged initialisation, and later calls keep it and change no file; the page is the one `Respond` gives for what that pipeline retrieves with `top_k=7` |

## Left out

- `str.lower()` is modelled for ASCII letters only. Non-ASCII case mappings are not modelled, including those that change length.
- CSV parsing by pandas is not modelled. `_load_data` sees a parsed table, or the error that `read_csv` raised. Which cells count as null is part of that input. A duplicate `content` column after the rename is not modelled.
- The re-check of the `content` column (rag_core/rag_pipeline.py:82-84) is left out. It cannot fail after the rename.
- Embedding vectors, L2 distances and the distance order of search results are left out. They are floating-point results of foreign libraries. An index is known only by its vector count, and search is an opaque parameter.
- An exception from `model.encode` or `faiss.write_index` during index creation is not modelled. It would propagate out of the constructor. Creation is assumed to succeed.
- `RetrievedBounds`: "at most `top_k`" holds only when the search returns at most `top_k` positions. That is FAISS's own contract, which is not part of this model.
- `FilterContextIdempotent`: stated for `top_n >= 0` only, which covers every call site (`top_n=3`). For negative `top_n` the property is false, as `PyTakeTwice` shows.
- A reply whose content is `None`, and so fails at `.strip()`, is represented as a failed LLM call.
- The `print` diagnostics, Django's `render` and the template are left out. The view returns a `Page` value instead.
- Thread safety of the singleton is left out. The model is sequential.
