/** The state both variants of `DocumentProcessor` keep, the external
    capabilities they call (file system, loaders, embeddings, retriever,
    language model) as oracles, and the query pipeline they share: router
    prompt, routing with fallback, retrieval, context formatting and the
    question-answering prompt. */
module Corpus {
  import opened Results
  import opened Text
  import opened Sequences
  import opened Kinds

  /** A LangChain `Document`: its `page_content` and its `metadata`. */
  datatype Chunk = Chunk(content: string, metadata: map<string, string>)

  /** A vector store, seen as the chunks it indexes, together with the `k` of
      the retriever built over it. */
  datatype Store = Store(k: nat, docs: seq<Chunk>)

  /** The fields of a `DocumentProcessor`:
      `documents` is `documents_by_type`;
      `stores` is `vector_stores` together with `retrievers` (created and
      assigned together), and `storeOrder` their dict key order;
      `chains` is the key order of `qa_chains` (a chain is its kind's key:
      it reads its kind's retriever when invoked);
      `router` says whether `router_chain` is set. */
  datatype Processor = Processor(
    documents: ByKind<seq<Chunk>>,
    stores: map<Kind, Store>,
    storeOrder: seq<Kind>,
    chains: seq<Kind>,
    router: bool)

  /** The state `__init__` leaves. */
  const Fresh: Processor := Processor(ByKind([], [], []), map[], [], [], false)

  /** What an operation returns, with the processor as it leaves it. */
  datatype Step<T> = Step(value: T, state: Processor)

  /** The capabilities the processor calls, as functions fixed for the call:
      `pathExists` is `os.path.exists`;
      `glob(d, k)` is the part `*` matches in each file that the glob of
      `*.ext` in the directory `d` finds, for the extension of `k` (see
      `Glob`);
      `load(k, path)` is the loader of kind `k` (`PyPDFLoader`,
      `Docx2txtLoader`, `CSVLoader`) run on `path`;
      `embed(docs)` is embedding `docs` into a vector store
      (`from_documents` or `add_documents`);
      `rank(docs, q)` is the store's similarity ranking of `docs` for `q`;
      `llm(prompt)` is the chat model with the string output parser;
      `construct` is whether `DocumentProcessor()` itself raises. */
  datatype Env = Env(
    pathExists: string -> bool,
    glob: (string, Kind) -> seq<string>,
    load: (Kind, string) -> Result<seq<Chunk>>,
    embed: seq<Chunk> -> Outcome,
    rank: (seq<Chunk>, string) -> Result<seq<Chunk>>,
    llm: string -> Result<string>,
    construct: Outcome)

  /** The directory `load_documents` reads by default. */
  const UploadFolder: string := "uploads"

  /** A path that the glob of `*.ext` in `dir` finds for kind `k`, `stem`
      being what `*` matched. */
  function GlobPath(dir: string, stem: string, k: Kind): string {
    dir + "/" + stem + "." + Name(k)
  }

  /** The paths `glob.glob` lists for the pattern of `*.pdf`, `*.docx` or
      `*.csv` in `dir`: every one resolves to the kind it was listed for, so
      a file is loaded by the loop of its own kind. */
  function Glob(env: Env, dir: string, k: Kind): (r: seq<string>)
    ensures |r| == |env.glob(dir, k)|
  {
    GlobPaths(dir, env.glob(dir, k), k)
  }

  function GlobPaths(dir: string, stems: seq<string>, k: Kind): (r: seq<string>)
    ensures |r| == |stems|
  {
    if stems == [] then [] else [GlobPath(dir, stems[0], k)] + GlobPaths(dir, stems[1..], k)
  }

  /** The glob lists one path per matched stem, in the stems' order: the
      stem inside `dir`, followed by the kind's extension. */
  lemma GlobShape(env: Env, dir: string, k: Kind)
    ensures forall i | 0 <= i < |Glob(env, dir, k)| ::
      Glob(env, dir, k)[i] == dir + "/" + env.glob(dir, k)[i] + "." + Name(k)
  {
    GlobPathsAt(dir, env.glob(dir, k), k);
  }

  lemma {:induction false} GlobPathsAt(dir: string, stems: seq<string>, k: Kind)
    ensures forall i | 0 <= i < |stems| :: GlobPaths(dir, stems, k)[i] == GlobPath(dir, stems[i], k)
    decreases |stems|
  {
    if stems != [] {
      GlobPathsAt(dir, stems[1..], k);
      forall i | 1 <= i < |stems| ensures GlobPaths(dir, stems, k)[i] == GlobPath(dir, stems[i], k) {
        assert stems[1..][i - 1] == stems[i];
      }
    }
  }

  /** Every path the glob for `k` lists resolves to `k`. */
  lemma GlobResolves(env: Env, dir: string, k: Kind)
    ensures forall i | 0 <= i < |Glob(env, dir, k)| :: ResolveKind(Glob(env, dir, k)[i]) == Some(k)
  {
    var stems := env.glob(dir, k);
    GlobPathsAt(dir, stems, k);
    forall i | 0 <= i < |stems| ensures ResolveKind(GlobPaths(dir, stems, k)[i]) == Some(k) {
      PathResolves(dir, stems[i], k);
    }
  }

  lemma PathResolves(dir: string, stem: string, k: Kind)
    ensures ResolveKind(GlobPath(dir, stem, k)) == Some(k)
  {
    var path := GlobPath(dir, stem, k);
    assert path[|path| - |Name(k)| - 1..] == "." + Name(k);
    ResolveMatch(path, k);
  }

  /** `os.path.basename` on a POSIX path: the text after the last `/`, or
      the whole path when it has none. */
  function Basename(path: string): (r: string)
    ensures '/' !in r
    ensures |r| <= |path| && r == path[|path| - |r|..]
    ensures |r| < |path| ==> path[|path| - |r| - 1] == '/'
  {
    AfterLast(path, '/')
  }

  /** `c2` is `c` after `c.metadata['doc_type'] = Name(kind)` and
      `c.metadata['filename'] = filename`. */
  predicate TaggedFrom(c2: Chunk, c: Chunk, kind: Kind, filename: string) {
    && c2.content == c.content
    && c2.metadata.Keys == c.metadata.Keys + {"doc_type", "filename"}
    && c2.metadata["doc_type"] == Name(kind)
    && c2.metadata["filename"] == filename
    && forall key | key in c.metadata && key != "doc_type" && key != "filename" ::
         c2.metadata[key] == c.metadata[key]
  }

  /** The loop that tags every loaded chunk with its kind and file name. */
  function TagAll(docs: seq<Chunk>, kind: Kind, filename: string): (r: seq<Chunk>)
    ensures |r| == |docs|
    ensures forall i | 0 <= i < |docs| :: TaggedFrom(r[i], docs[i], kind, filename)
  {
    seq(|docs|, i requires 0 <= i < |docs| =>
      Chunk(docs[i].content, docs[i].metadata["doc_type" := Name(kind)]["filename" := filename]))
  }

  /** The shape both variants keep: the key order of the stores lists each
      store once; every QA chain has a store; every store has the `k` its
      kind calls for. */
  predicate Valid(p: Processor) {
    && Distinct(p.storeOrder)
    && (forall k :: k in p.storeOrder <==> k in p.stores)
    && Distinct(p.chains)
    && (forall k | k in p.chains :: k in p.stores)
    && (forall k | k in p.stores :: p.stores[k].k == TopK(k))
  }

  /** Every store indexes exactly the chunks kept for its kind, and a kind
      without a store has no chunks. */
  predicate Synced(p: Processor) {
    forall k :: if k in p.stores then p.stores[k].docs == p.documents.Get(k)
                else p.documents.Get(k) == []
  }

  /** `get_document_count`: the number of chunks kept per kind (not the
      number of files). */
  function DocumentCount(p: Processor): (c: ByKind<nat>)
    ensures forall k :: c.Get(k) == |p.documents.Get(k)|
    ensures Sum(c) == 0 <==> forall k :: p.documents.Get(k) == []
  {
    ByKind(|p.documents.pdf|, |p.documents.docx|, |p.documents.csv|)
  }

  /** The error `query` reports when there is nothing to ask. */
  const NotLoaded: string := "No documents loaded. Please upload documents first."

  /** The router prompt with `{question}` filled in. */
  const RouterHead: string :=
    "Given the user question below, classify it to route to the most relevant document type.\n\n"
    + "Available document types:\n"
    + "- pdf: General PDF documents (research papers, reports, manuals)\n"
    + "- docx: Word documents (articles, documentation)\n"
    + "- csv: Data files with structured information (sales data, records, tables)\n\n"
    + "User question: "
  const RouterTail: string :=
    "\n\nRespond with ONLY ONE WORD - either 'pdf', 'docx', or 'csv'. Nothing else.\nClassification:"

  function RouterPrompt(question: string): (r: string)
    ensures |r| == |RouterHead| + |question| + |RouterTail|
    ensures r[|RouterHead|..|RouterHead| + |question|] == question
  {
    RouterHead + question + RouterTail
  }

  /** The question-answering prompt with `{question}` and `{context}` filled in. */
  const QaHead: string :=
    "You are an assistant for question-answering tasks. Use the following pieces of retrieved "
    + "context to answer the question. If you don't know the answer, say that you don't know.\n\n"
    + "Question: "
  const QaMid: string := "\n\nContext: "
  const QaTail: string := "\n\nAnswer:"

  function QaPrompt(question: string, context: string): (r: string)
    ensures |r| == |QaHead| + |question| + |QaMid| + |context| + |QaTail|
    ensures r[|QaHead|..|QaHead| + |question|] == question
    ensures r[|QaHead| + |question| + |QaMid|..|r| - |QaTail|] == context
  {
    QaHead + question + QaMid + context + QaTail
  }

  function Contents(docs: seq<Chunk>): (r: seq<string>)
    ensures |r| == |docs|
    ensures forall i | 0 <= i < |docs| :: r[i] == docs[i].content
  {
    seq(|docs|, i requires 0 <= i < |docs| => docs[i].content)
  }

  /** `format_docs`: the retrieved chunks' contents joined by a blank line.
      No chunk gives an empty context; otherwise it opens with the best
      ranked chunk and closes with the last one retrieved. */
  function FormatDocs(docs: seq<Chunk>): (r: string)
    ensures docs == [] ==> r == ""
    ensures docs != [] ==> |docs[0].content| <= |r| && r[..|docs[0].content|] == docs[0].content
    ensures docs != [] ==> (var last := docs[|docs| - 1].content; |last| <= |r| && r[|r| - |last|..] == last)
  {
    Join("\n\n", Contents(docs))
  }

  /** The context keeps the retrieval order: one more retrieved chunk adds a
      blank line and its content at the end. */
  lemma FormatDocsSnoc(docs: seq<Chunk>, d: Chunk)
    requires docs != []
    ensures FormatDocs(docs + [d]) == FormatDocs(docs) + "\n\n" + d.content
  {
    assert Contents(docs + [d]) == Contents(docs) + [d.content];
    JoinSnoc("\n\n", Contents(docs), d.content);
  }

  /** The context holds every retrieved content and one blank line between
      neighbours, so its length is fixed by the chunks alone. */
  lemma FormatDocsLength(docs: seq<Chunk>)
    requires docs != []
    ensures |FormatDocs(docs)| == TotalLength(Contents(docs)) + 2 * (|docs| - 1)
  {
    JoinLength("\n\n", Contents(docs));
  }

  /** The retriever of `store`: the `store.k` best-ranked chunks. */
  function Retrieve(env: Env, store: Store, question: string): (r: Result<seq<Chunk>>)
    ensures r.Ok? <==> env.rank(store.docs, question).Ok?
    ensures r.Err? ==> r.error == env.rank(store.docs, question).error
    ensures r.Ok? ==> |r.value| <= store.k
    ensures r.Ok? ==> var ranked := env.rank(store.docs, question).value;
                      |r.value| <= |ranked| && r.value == ranked[..|r.value|]
                      && (|r.value| < store.k ==> r.value == ranked)
  {
    match env.rank(store.docs, question)
    case Err(e) => Err(e)
    case Ok(ranked) => Ok(Take(ranked, store.k))
  }

  /** A QA chain invoked on `question`: retrieve, format the context, fill
      the prompt, call the model. */
  function Answer(env: Env, store: Store, question: string): (r: Result<string>)
    ensures r.Ok? ==> exists ctx :: Retrieve(env, store, question) == Ok(ctx)
                                    && r == env.llm(QaPrompt(question, FormatDocs(ctx)))
    ensures Retrieve(env, store, question).Err? ==> r == Err(Retrieve(env, store, question).error)
    ensures Retrieve(env, store, question).Ok? ==>
      r == env.llm(QaPrompt(question, FormatDocs(Retrieve(env, store, question).value)))
  {
    match Retrieve(env, store, question)
    case Err(e) => Err(e)
    case Ok(ctx) => env.llm(QaPrompt(question, FormatDocs(ctx)))
  }

  /** `doc_type` after `.strip().lower()` and the fallback to the first QA
      chain key when the router's reply names no chain. */
  function RouteKind(chains: seq<Kind>, reply: string): (k: Kind)
    requires chains != []
    ensures k in chains
    ensures (exists c :: c in chains && Name(c) == Lower(Strip(reply))) ==> Name(k) == Lower(Strip(reply))
    ensures (forall c | c in chains :: Name(c) != Lower(Strip(reply))) ==> k == chains[0]
  {
    match ParseKind(Lower(Strip(reply)))
    case Some(c) => if c in chains then c else chains[0]
    case None => chains[0]
  }

  /** The result dict of `query`. */
  datatype QueryResult =
    | Answered(answer: string, docType: Kind, question: string)
    | Failed(error: string)

  /** The `try` block of `query` once a router and a chain exist: route,
      fall back, answer; any exception becomes a failure carrying its text. */
  function Dispatch(env: Env, p: Processor, question: string): (r: QueryResult)
    requires Valid(p) && p.chains != []
    ensures r.Answered? ==> r.docType in p.chains && r.question == question
    ensures env.llm(RouterPrompt(question)).Err? ==> r == Failed(env.llm(RouterPrompt(question)).error)
    ensures env.llm(RouterPrompt(question)).Ok? ==>
      var kind := RouteKind(p.chains, env.llm(RouterPrompt(question)).value);
      (r.Answered? <==> Answer(env, p.stores[kind], question).Ok?)
      && (r.Answered? ==> r.docType == kind && r.answer == Answer(env, p.stores[kind], question).value)
      && (r.Failed? ==> r.error == Answer(env, p.stores[kind], question).error)
  {
    match env.llm(RouterPrompt(question))
    case Err(e) => Failed(e)
    case Ok(reply) =>
      var kind := RouteKind(p.chains, reply);
      match Answer(env, p.stores[kind], question)
      case Err(e) => Failed(e)
      case Ok(a) => Answered(a, kind, question)
  }

  /** Fallback safety: a router reply that names no chain never fails the
      query by itself; the first chain in insertion order answers. */
  lemma FallbackSafety(env: Env, p: Processor, question: string)
    requires Valid(p) && p.chains != []
    requires env.llm(RouterPrompt(question)).Ok?
    requires forall c | c in p.chains :: Name(c) != Lower(Strip(env.llm(RouterPrompt(question)).value))
    requires Answer(env, p.stores[p.chains[0]], question).Ok?
    ensures Dispatch(env, p, question)
            == Answered(Answer(env, p.stores[p.chains[0]], question).value, p.chains[0], question)
  {
  }
}
