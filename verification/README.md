# Multi-document question answering: a Dafny model

The system answers questions about uploaded PDF, Word (docx) and CSV files.
A `DocumentProcessor` keeps the loaded chunks per document kind. It builds
one vector store, one retriever and one question-answering (QA) chain per
kind. A router language-model call picks the kind that answers a question.
Two Flask apps expose uploads and queries.

The repository has two versions, and this project models both:

- the **incremental** processor (`document_processor.py`) and its app
  (`app.py`). Each file is ingested on its own. A kind's store, retriever
  and chain are created by its first successful ingestion and only
  extended afterwards.
- the **batch** processor (`Document-Search-Engine-main/document_processor.py`)
  and its app (`Document-Search-Engine-main/app.py`). Everything is loaded
  first, then stores are built for the kinds that hold chunks, then one
  chain per retriever, then the router.

## How it is modelled

A processor is an immutable record, `Corpus.Processor`:

- `documents`: the chunks kept per kind.
- `stores`: the vector store and retriever of each kind, seen as the
  chunks indexed and the retriever's `k`.
- `storeOrder`: the stores' dict key order.
- `chains`: the QA chain keys in insertion order. The routing fallback
  picks the first of them.
- `router`: whether the router chain exists.

Every operation is a pure function. It returns its Python result together
with the processor as the operation leaves it (`Corpus.Step`). The
libraries the code calls are oracles collected in `Corpus.Env`:

- the file system: `os.path.exists` and `glob`;
- the three document loaders;
- embedding into a vector store;
- the store's similarity ranking;
- the language model;
- whether the `DocumentProcessor()` constructor raises.

An oracle that can raise returns a `Result` or an `Outcome`. The model
follows each `try`/`except` in the code.

Modules:

- `results.dfy`: `Result`, `Option`, `Outcome`.
- `text.dfy`: the Python string operations used: `strip`, `lower`, the
  text after the last separator, `join`, `str(int)`.
- `sequences.dfy`: dict key order (`Insert`) and `s[:k]`.
- `kinds.dfy`: the kinds, kind resolution from a file name, `allowed_file`,
  and the per-kind records.
- `corpus.dfy`: the processor state, the oracles, and the shared query
  pipeline: router prompt, routing with fallback, retrieval, context
  formatting and the QA prompt.
- `incremental.dfy`: the incremental `DocumentProcessor`.
- `batch.dfy`: the batch `DocumentProcessor`.
- `app.dfy`: the upload, query, status and initialize handlers of `app.py`.
- `batch_app.dfy`: the upload, query and status handlers of
  `Document-Search-Engine-main/app.py`.

Four facts about the code shape the model:

- Retrieval ranks chunks by dense embeddings in `DocArrayInMemorySearch`.
  The ranking is therefore the oracle `rank`, not a definition.
- Neither processor limits how many files or chunks it admits.
- In the batch processor a loader error is not caught. It propagates out
  of `load_documents` and `initialize`, keeping the chunks appended before
  it.
- The batch `initialize` answers `True` when the upload folder holds a
  file of a supported kind and no loader or embedding raises, even when
  no file yielded a chunk (`Batch.InitializedWithoutChains`).

## Model

| member | source | states |
|---|---|---|
| Text.Strip | app.py:228 | `str.strip()`: the result is a middle slice of the input, everything cut off on either side is whitespace, and the result neither starts nor ends with whitespace |
| Text.StripEmptyIff | app.py:228-234 | a stripped question is empty exactly when the question was all whitespace |
| Text.Lower | document_processor.py:59 | `lower()` leaves no upper-case ASCII letter, maps each one to its lower-case letter, and leaves every other character alone |
| Text.LowerIdempotent | document_processor.py:59 | lowercasing an already lowercased name changes nothing |
| Text.AfterLast | document_processor.py:59 | `split('.')[-1]` is a suffix of the name, contains no `.`, and is preceded by a `.` whenever it is shorter than the name |
| Text.AfterLastNoSeparator | document_processor.py:59 | a name without a `.` is its own last `split('.')` piece |
| Text.AfterLastSuffix | document_processor.py:59 | a name ending in `.` and a piece without `.` has that piece as its last `split('.')` piece |
| Text.Join | app.py:171 | `'; '.join(errors)` is empty for no parts, and otherwise starts with the first part and ends with the last |
| Text.JoinSnoc | app.py:184 | joining one more part adds the separator and that part at the end, so the parts keep their order |
| Text.JoinLength | app.py:184 | the joined text is all parts plus one separator between each two neighbours |
| Text.NatToString | app.py:182 | `str(n)` is a non-empty string of decimal digits that starts with `0` only for zero |
| Text.ParseNatToString | app.py:182 | reading `str(n)` back as a decimal gives `n` |
| Sequences.Insert | document_processor.py:113-121 | `d[k] = v` keeps the old key order as a prefix, adds `k` only when it is new, and keeps the keys distinct |
| Sequences.InsertAllFresh | Document-Search-Engine-main/document_processor.py:144-150 | assigning distinct new keys appends them in assignment order |
| Sequences.Take | Document-Search-Engine-main/document_processor.py:103-105 | `s[:k]` is a prefix of `s` of length `min(k, len(s))` |
| Kinds.EveryKindInOrder | document_processor.py:155 | the extension loop `['pdf', 'docx', 'csv']`, which `Incremental.LoadDocuments` runs over, visits every kind exactly once |
| Kinds.ParseKind | document_processor.py:60-67 | a key names a kind exactly when it is `pdf`, `docx` or `csv`, and then names exactly that kind |
| Kinds.ResolveKind | document_processor.py:57-67 | a path resolves to a kind exactly when its lowercased last extension is allowed, and the kind's name is that extension |
| Kinds.AllowedFile | app.py:30-32 | `allowed_file` (the same in both apps) holds exactly when the name has a `.` and its lowercased last extension resolves to a kind |
| Kinds.DotlessRefused | app.py:30-32 | `allowed_file` refuses every name without a `.`, although the processor still resolves such a name (`pdf`, say) as its own extension |
| Kinds.ResolveMatch | document_processor.py:57-67 | a path ending in `.` and a kind's name resolves to that kind |
| Kinds.TopK | document_processor.py:112 | the retriever's `k` is 10 exactly for csv and 5 for the other kinds |
| Kinds.Sum | document_processor.py:195 | `sum(counts.values())` adds the pdf, docx and csv counts, and is zero exactly when every count is zero |
| Corpus.Glob | document_processor.py:155-156 | `glob(f"{directory}/*.{ext}")` finds one path per stem the pattern matched |
| Corpus.GlobShape | document_processor.py:155-156 | each listed path is the directory, `/`, the matched stem, `.` and the extension, in the stems' order |
| Corpus.GlobResolves | document_processor.py:155-156 | every path the glob of an extension finds resolves to that extension's kind |
| Corpus.Basename | document_processor.py:82 | `os.path.basename` is the longest suffix of the path without `/`: it is preceded by `/` whenever it is shorter than the path |
| Corpus.TagAll | document_processor.py:80-82 | every loaded chunk keeps its content and other metadata, and gets `doc_type` set to the kind and `filename` set to the base name; the count is unchanged |
| Corpus.DocumentCount | document_processor.py:238-244 | `get_document_count` reports the number of chunks per kind, not files; the total is zero exactly when no kind holds a chunk |
| Corpus.RouterPrompt | document_processor.py:173-186 | the router prompt holds the question verbatim between the fixed head and tail |
| Corpus.QaPrompt | document_processor.py:125-133 | the QA prompt holds the question and the context verbatim in their places |
| Corpus.FormatDocs | document_processor.py:135-136 | `format_docs` is empty for no chunks, and otherwise starts with the first chunk's content and ends with the last one's |
| Corpus.FormatDocsSnoc | document_processor.py:135-136 | `format_docs` keeps retrieval order: one more chunk adds a blank line and its content at the end |
| Corpus.FormatDocsLength | document_processor.py:135-136 | the context is all retrieved contents plus one blank line between neighbours |
| Corpus.Retrieve | document_processor.py:117-119 | the retriever returns the first `k` chunks of the store's ranking, all of them when fewer, and passes a ranking error through |
| Corpus.Answer | document_processor.py:138-143 | a retrieval error is the chain's error; after a successful retrieval the answer is the model's reply to the QA prompt over the formatted chunks |
| Corpus.RouteKind | document_processor.py:216-221 | the chosen kind is always an existing chain; it is the stripped, lowercased router reply when that names a chain, and the first chain otherwise |
| Corpus.Dispatch | document_processor.py:210-236 | a routing error or an answer error becomes a failure carrying its text; success reports the routed kind, the model's answer and the question |
| Corpus.FallbackSafety | document_processor.py:218-224 | a router reply naming no chain never fails the query by itself: the first chain answers |
| Incremental.FreshInv | document_processor.py:48-53 | a new processor has no stores, no chains and no chunks, so it is well formed and in sync |
| Incremental.LoadedSpec | document_processor.py:69-82 | a file loads exactly when it exists, its extension resolves and its loader returns; the chunks are the loader's, tagged with the kind and the base name |
| Incremental.UpdateVectorStore | document_processor.py:99-121 | an embedding error propagates; otherwise only stores and chains change, the kind joining the chains if new, and store keys equal chain keys in order |
| Incremental.UpdateVectorStoreStores | document_processor.py:99-121 | create-once: a new kind gets a store over the chunks with `k` 10 for csv and 5 otherwise; an existing store is only extended and keeps its `k`; other stores are untouched |
| Incremental.Ingest | document_processor.py:84-97 | the invariant is kept, the result is `True` exactly when embedding passed, chains only grow, the router is never dropped, and success leaves a chain and the router |
| Incremental.IngestEffect | document_processor.py:84-97 | the chunks are appended to their kind only; a failed store update leaves stores, chains and router as they were |
| Incremental.ProcessFile | document_processor.py:69-97 | `process_file` keeps the invariant, only adds chains, never drops the router, and leaves a chain and the router when it reports `True` |
| Incremental.ProcessFileSucceeds | document_processor.py:69-97 | `process_file` reports `True` exactly when the file loads and its chunks embed; a file that does not load changes nothing |
| Incremental.IngestKeepsSync | document_processor.py:85-88 | a successful ingestion keeps every store equal to its kind's chunks |
| Incremental.ProcessFileKeepsSync | document_processor.py:69-97 | a file that loads and embeds, or does not load at all, keeps the stores in sync |
| Incremental.NoRollback | document_processor.py:84-97 | when embedding raises, `process_file` reports `False` but the chunks stay appended, so the stores fall out of sync |
| Incremental.SuccessesPositive | document_processor.py:157-159 | the success count is positive exactly when some file succeeds |
| Incremental.ProcessAll | document_processor.py:157-159 | the file loop keeps the invariant |
| Incremental.ProcessAllGrows | document_processor.py:155-159 | the loop counts at most one per file, only adds chains, never drops the router, and leaves a chain once a file succeeded |
| Incremental.ProcessAllCounts | document_processor.py:157-159 | each count is the number of files `process_file` reported `True` for |
| Incremental.ProcessAllKeepsSync | document_processor.py:155-159 | when no loaded file fails to embed, the stores stay in sync with the chunks |
| Incremental.ProcessFileChains | document_processor.py:69-97 | a successful file adds its kind to the chains if new and sets the router; a failed one leaves the chains alone |
| Incremental.ProcessAllChains | document_processor.py:157-159 | the loop over files of one kind adds that kind to the chains exactly when some file succeeded |
| Incremental.IngestedMembers | document_processor.py:155-159 | the kinds with an ingested file are exactly the listed kinds with a successful file, each once |
| Incremental.LoadKinds | document_processor.py:155-159 | the extension loop keeps the invariant |
| Incremental.LoadKindsCounts | document_processor.py:155-159 | after the extension loop, each listed kind's count is its number of successful files, and other counts are unchanged |
| Incremental.LoadKindsChains | document_processor.py:155-159 | the extension loop adds the kinds with an ingested file to the chains, in the loop's order, and sets the router exactly when one was ingested |
| Incremental.LoadDocuments | document_processor.py:146-161 | a missing directory gives zero counts and no change; otherwise each kind's count is its number of successful files and the kinds with an ingested file join the chains in the order pdf, docx, csv; a positive total leaves a chain and the router |
| Incremental.Initialize | document_processor.py:188-200 | `initialize` answers `True` exactly when some file in the upload folder was ingested, and `True` leaves a chain and the router |
| Incremental.InitializeChains | document_processor.py:188-200 | from no chains, `initialize` leaves exactly the kinds with an ingested upload as chains, in the order pdf, docx, csv, so the routing fallback is the first of those |
| Incremental.Query | document_processor.py:202-236 | with no chain the query fails with the not-loaded message and changes nothing; otherwise the router is created if missing and the query is dispatched; an answer names an existing chain and echoes the question |
| Incremental.HasDocuments | document_processor.py:246-249 | `has_documents` holds exactly when some kind holds a chunk |
| Batch.LoadedPrefix | Document-Search-Engine-main/document_processor.py:66-72 | for one file, the appended chunks are the loader's chunks tagged with the kind and that file's base name, or none when the loader raises; every appended chunk has `doc_type` set to its kind and `filename` set to the base name of one of the kind's files |
| Batch.LoadedPrefixStops | Document-Search-Engine-main/document_processor.py:66-68 | once a loader raises, no chunk of that file or a later one is appended |
| Batch.LoadedPrefixConcat | Document-Search-Engine-main/document_processor.py:66-72 | while loaders pass, the chunks are appended file after file in glob order |
| Batch.CountLoaded | Document-Search-Engine-main/document_processor.py:66-73 | a file loop counts every file when no loader raises, and otherwise fails with the error of the first loader that raised |
| Batch.LoadKind | Document-Search-Engine-main/document_processor.py:66-73 | the loop succeeds exactly when every loader returns, counts the files, and appends the tagged chunks loaded before any error to that kind only |
| Batch.LoadDocuments | Document-Search-Engine-main/document_processor.py:57-95 | a missing directory gives zero counts; otherwise it succeeds exactly when every loader returns, then counts files per kind and appends every kind's chunks; only the chunks change |
| Batch.BuildStore | Document-Search-Engine-main/document_processor.py:97-106 | a kind without chunks is skipped; otherwise the result is the embedding's, and a raise leaves the processor unchanged |
| Batch.BuildStoreStores | Document-Search-Engine-main/document_processor.py:97-127 | after a block that passed, the kind's store indexes exactly its chunks with its `k`; other kinds' stores are untouched |
| Batch.CreateVectorStores | Document-Search-Engine-main/document_processor.py:97-127 | `create_vector_stores` passes exactly when embedding every non-empty kind passes, and touches only the stores |
| Batch.CreateVectorStoresFrame | Document-Search-Engine-main/document_processor.py:97-127 | only kinds holding chunks get a new store; a kind holding none keeps its store |
| Batch.CreateVectorStoresIndexed | Document-Search-Engine-main/document_processor.py:97-127 | when nothing raised, every kind holding chunks has a store over exactly them with its `k` |
| Batch.StockedMembers | Document-Search-Engine-main/document_processor.py:97-127 | the kinds that get a store are exactly the kinds holding chunks, each once |
| Batch.CreateVectorStoresOrder | Document-Search-Engine-main/document_processor.py:97-127 | when nothing raised, the kinds holding chunks join the stores' key order as pdf, docx, csv |
| Batch.CreateQaChains | Document-Search-Engine-main/document_processor.py:129-150 | one chain per retriever key and no other; existing chains stay first; from no chains the chains follow the store key order |
| Batch.NoFilesIffZero | Document-Search-Engine-main/document_processor.py:173-177 | the file counts sum to zero exactly when the upload folder holds no file of a supported kind |
| Batch.Initialize | Document-Search-Engine-main/document_processor.py:169-192 | `False` exactly when no file is found, changing only the chunks; `True` exactly when files are found, all load and all embed, leaving the router, chains equal to stores, and every kind with chunks indexed |
| Batch.InitializeOrder | Document-Search-Engine-main/document_processor.py:97-150 | from no stores and no chains, a successful `initialize` lists the stores and the chains as the kinds holding chunks in the order pdf, docx, csv |
| Batch.SyncedAfterBuild | Document-Search-Engine-main/document_processor.py:97-127 | building stores over grown chunk lists keeps stores equal to chunks |
| Batch.InitializeKeepsSync | Document-Search-Engine-main/document_processor.py:169-192 | a successful `initialize` keeps every store equal to its kind's chunks |
| Batch.Query | Document-Search-Engine-main/document_processor.py:194-223 | without the router or without a chain the query fails with the not-loaded message; otherwise it is dispatched, and an answer names an existing chain |
| Batch.HasDocuments | Document-Search-Engine-main/document_processor.py:233-236 | `has_documents` holds exactly when some chunk is loaded and some chain exists |
| Batch.InitializedWithoutChains | Document-Search-Engine-main/document_processor.py:169-192 | when files exist but none yields a chunk, `initialize` answers `True` with no chain, `has_documents` is false, and every query is refused as not loaded |
| App.NamedZero | app.py:145 | the count of named parts is zero exactly when every file name is empty |
| App.Dispose | app.py:151-166 | an empty name leaves nothing; a disallowed one is reported as `<name>: Invalid file type`; an allowed one is uploaded under its secured name exactly when its save passes, and otherwise reported as `<name>: <error>` |
| App.PartitionFiles | app.py:148-166 | every part with a non-empty name lands in exactly one of the uploaded and error lists; a single part is disposed of as `Dispose` says |
| App.PartitionFilesConcat | app.py:151-166 | the loop keeps upload order: the parts of `a + b` leave `a`'s names and errors before `b`'s |
| App.PartitionUploadsEverySaved | app.py:159-164 | every part whose save passes is uploaded under its secured name |
| App.PartitionReportsSaveErrors | app.py:165-166 | every allowed part whose save raised is reported as `<name>: <error>` |
| App.PartitionReportsInvalid | app.py:155-157 | every disallowed non-empty name is reported as `<name>: Invalid file type` |
| App.PartitionUploadsSaved | app.py:159-164 | every uploaded name is the secured name of an allowed part whose save passed, so a disallowed name is never saved |
| App.PartitionNothingUploaded | app.py:168 | nothing is uploaded exactly when no part is named, allowed and saved |
| App.SuccessMessage | app.py:181-184 | the message is exactly `Successfully uploaded `, the count and ` file(s)`; when some part failed it goes on with exactly `. `, the number of failures, ` file(s) failed: ` and the joined errors, and nothing else |
| App.SuccessMessageCount | app.py:182 | the count in the message reads back as the number uploaded |
| App.InitializeProcessor | app.py:35-50 | an initialised app answers `True` unchanged; a constructor error answers `False` and changes nothing; otherwise a new processor is kept and the flag becomes `initialize`'s result |
| App.InitializeOnce | app.py:39-40 | once initialisation succeeded, later calls answer `True` without rebuilding |
| App.UploadFile | app.py:137-202 | no `files` field, all names empty, or nothing saved are refused with their messages and change nothing; a constructor error answers `Upload failed: <error>` and changes nothing; otherwise the app keeps the freshly initialised processor and the flag set to `initialize`'s result, answering `Files uploaded but failed to process documents` on `False`; success reports the message, the saved names and the new processor's chunk counts |
| App.ValidateQuestion | app.py:220-234 | a missing body or `question` gives `No question provided`; an all-whitespace question gives `Question cannot be empty`; otherwise the stripped, non-empty question |
| App.HandleQuery | app.py:205-243 | initialisation is tried first; a still uninitialised app is refused before the body is read; then the question is checked and passed to the processor, whose new state is kept |
| App.RefusedUntilInitialized | app.py:210-218 | when initialisation cannot succeed, every query is refused with the not-initialised message, whatever it asks |
| App.AnsweredFromAChain | app.py:236-238 | an answered query was routed to one of the processor's chains |
| App.Status | app.py:59-75 | an uninitialised app reports zero of every kind; an initialised one reports its chunk counts |
| App.InitializeEndpoint | app.py:246-261 | the endpoint succeeds exactly when the app ends initialised, then reporting the chunk counts, and otherwise reports `Failed to initialize system` |
| BatchApp.AcceptedNames | Document-Search-Engine-main/app.py:47-52 | only named parts with an allowed extension are kept, in upload order |
| BatchApp.AcceptedNamesConcat | Document-Search-Engine-main/app.py:47-48 | the filter keeps upload order: over `a + b` it keeps `a`'s accepted names before `b`'s, and a single part exactly when it is accepted |
| BatchApp.AcceptedNamesComplete | Document-Search-Engine-main/app.py:47-52 | no accepted part is dropped, and the kept list is empty exactly when no part is accepted |
| BatchApp.SaveAll | Document-Search-Engine-main/app.py:49-52 | when every save passes, the uploaded list is the secured names in order |
| BatchApp.SaveAllFirstError | Document-Search-Engine-main/app.py:47-52 | the save loop succeeds exactly when no save raises, and otherwise reports the error of the first save that raised |
| BatchApp.UploadFile | Document-Search-Engine-main/app.py:37-84 | `No file provided`, a save error and `No valid files uploaded` leave the processor alone; once every save passed and the constructor passed, the freshly initialised processor replaces the old one whatever `initialize` answers, and the processor changes in no other case; success means every accepted file saved and `initialize` returned `True`, and reports the files and their count |
| BatchApp.Question | Document-Search-Engine-main/app.py:141-142 | a `null` body raises on `.get`; otherwise the question is the stripped `question` field, empty exactly when missing or all whitespace |
| BatchApp.QueryDocuments | Document-Search-Engine-main/app.py:137-181 | an empty question is refused before any processor work; an existing processor answers unchanged; with none, one is built and kept even when `initialize` raises or answers `False` |
| BatchApp.StuckAfterEmptyStart | Document-Search-Engine-main/app.py:151-161 | when the first query finds no file, the empty processor stays and every later query is refused as not loaded, whatever the folder then holds |
| BatchApp.GetStatus | Document-Search-Engine-main/app.py:183-204 | no processor reports 0 documents; otherwise the chunk counts per kind and their sum as the total, which is zero exactly when no kind holds a chunk |

## Left out

- Embedding, vector similarity search, prompt rendering and the language
  model belong to LangChain, HuggingFace and Groq. They are oracles in
  `Corpus.Env`: `embed`, `rank` and `llm`. The model assumes
  `add_documents` and `from_documents` either raise or complete; it does
  not model a partial store.
- The document loaders (`PyPDFLoader`, `Docx2txtLoader`, `CSVLoader`) are
  the oracle `load`. A chunk is its content and a string-to-string
  metadata map.
- The file system is modelled through oracles only. `os.path.exists` and
  `glob` are `pathExists` and `glob`. `os.makedirs` is not modelled: a
  missing folder is reported and nothing more. In the apps, the oracles
  describe the upload folder after the request's saves. `file.save` and
  `secure_filename` are the `Disk` oracles.
- The constructor's `GROQ_API_KEY` check, embedding and model set-up are
  one oracle outcome, `construct`. `load_dotenv` and all `print` logging
  are left out.
- Flask itself is not modelled: routing, HTTP status codes, CORS, static
  files, the 50 MB limit and JSON serialisation. A handler's reply is its
  success value or its error string.
- The document list and delete endpoints of both apps are not modelled.
  They are file-system listing and deletion followed by the same
  re-initialisation as an upload.
- `app.py`'s `Query failed:` handler is not modelled, because the modelled
  `query` turns every exception into a result. `initialize_processor`'s
  handler covers only a constructor error, because the modelled
  `initialize` of the incremental processor never raises.
- Request bodies are JSON `null` or an object of strings. The model does
  not cover a non-JSON request, which `get_json` answers with a
  415-status error. It also does not cover a JSON array or a non-string
  `question`.
- Corpus.Basename: splits on `/` only, as `os.path.basename` does on
  POSIX. Windows paths split on `\` are not modelled.
- Corpus.Glob: `glob` is modelled as the stems `*` matched, in the order
  the oracle gives. Which stems match (hidden files, case sensitivity)
  and their order are the file system's and are not modelled.
- Text.Lower: lowercases ASCII letters only. That is enough for the
  comparisons made, since no other character lowercases into the letters
  of `pdf`, `docx` or `csv`. The same holds for `strip().lower()` on the
  router reply.
- `create_router` and the router chain are a flag: the prompt is
  `Corpus.RouterPrompt`, and the chain's reply is the `llm` oracle.
- Threading between concurrent Flask requests is not modelled. Each
  handler runs to completion on the state the previous one left.
