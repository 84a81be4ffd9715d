/** The batch `DocumentProcessor` (Document-Search-Engine-main/document_processor.py):
    `initialize` loads every file first, then builds a vector store for each
    kind that has chunks, then one QA chain per retriever, then the router.
    Loader and embedding errors are not caught inside the processor. */
module Batch {
  import opened Results
  import opened Sequences
  import opened Kinds
  import opened Corpus

  /** The chunks one kind's loop appends for `files`: each file's tagged
      chunks in order, up to the first file whose loader raises. Every one
      of them carries the kind's name and the base name of one of `files`. */
  function LoadedPrefix(env: Env, kind: Kind, files: seq<string>): (r: seq<Chunk>)
    ensures |files| == 1 ==>
      r == (if env.load(kind, files[0]).Ok? then TagAll(env.load(kind, files[0]).value, kind, Basename(files[0])) else [])
    ensures forall i | 0 <= i < |r| ::
      && "doc_type" in r[i].metadata && r[i].metadata["doc_type"] == Name(kind)
      && "filename" in r[i].metadata && r[i].metadata["filename"] in Basenames(files)
    decreases |files|
  {
    if files == [] then []
    else match env.load(kind, files[0])
      case Err(_) => []
      case Ok(raw) => TagAll(raw, kind, Basename(files[0])) + LoadedPrefix(env, kind, files[1..])
  }

  /** The base names of `files`. */
  function Basenames(files: seq<string>): set<string> {
    set i | 0 <= i < |files| :: Basename(files[i])
  }

  /** The loop keeps a file's chunks only while no earlier loader raised:
      once one raises, what follows it adds nothing. */
  lemma {:induction false} LoadedPrefixStops(env: Env, kind: Kind, files: seq<string>, i: nat)
    requires i < |files| && env.load(kind, files[i]).Err?
    ensures LoadedPrefix(env, kind, files) == LoadedPrefix(env, kind, files[..i])
    decreases i
  {
    if i > 0 {
      assert files[1..][i - 1] == files[i];
      LoadedPrefixStops(env, kind, files[1..], i - 1);
      assert files[1..][..i - 1] == files[..i][1..];
      assert files[..i][0] == files[0];
    }
  }

  /** When every loader before `b` passes, the loop over `a + b` keeps all of
      `a`'s chunks followed by what the loop over `b` keeps. */
  lemma {:induction false} LoadedPrefixConcat(env: Env, kind: Kind, a: seq<string>, b: seq<string>)
    requires AllLoad(env, kind, a)
    ensures LoadedPrefix(env, kind, a + b) == LoadedPrefix(env, kind, a) + LoadedPrefix(env, kind, b)
    decreases |a|
  {
    if a == [] {
      assert a + b == b;
    } else {
      assert (a + b)[0] == a[0] && (a + b)[1..] == a[1..] + b;
      assert AllLoad(env, kind, a[1..]) by {
        forall i | 0 <= i < |a[1..]| ensures env.load(kind, a[1..][i]).Ok? {
          assert a[1..][i] == a[i + 1];
        }
      }
      LoadedPrefixConcat(env, kind, a[1..], b);
    }
  }

  predicate AllLoad(env: Env, kind: Kind, files: seq<string>) {
    forall i | 0 <= i < |files| :: env.load(kind, files[i]).Ok?
  }

  /** The count one loop of `load_documents` reaches: one per file, unless
      a loader raises, and then the first loader error propagates. */
  function CountLoaded(env: Env, kind: Kind, files: seq<string>): (r: Result<nat>)
    ensures r.Ok? <==> AllLoad(env, kind, files)
    ensures r.Ok? ==> r.value == |files|
    ensures r.Err? ==> exists i | 0 <= i < |files| ::
              && env.load(kind, files[i]) == Err(r.error)
              && forall j | 0 <= j < i :: env.load(kind, files[j]).Ok?
    decreases |files|
  {
    if files == [] then Ok(0)
    else match env.load(kind, files[0])
      case Err(e) => Err(e)
      case Ok(_) =>
        var rest := CountLoaded(env, kind, files[1..]);
        assert forall i | 1 <= i < |files| :: files[i] == files[1..][i - 1];
        match rest
        case Err(e) =>
          var i :| 0 <= i < |files[1..]| && env.load(kind, files[1..][i]) == Err(e)
                   && forall j | 0 <= j < i :: env.load(kind, files[1..][j]).Ok?;
          assert env.load(kind, files[i + 1]) == Err(e);
          Err(e)
        case Ok(n) => Ok(n + 1)
  }

  /** One loop of `load_documents`: every file's loader runs, its chunks are
      tagged and appended, and the count goes up by one per file. A loader
      error propagates, leaving the chunks appended so far. */
  function LoadKind(env: Env, p: Processor, kind: Kind, files: seq<string>): (r: Step<Result<nat>>)
    ensures r.value.Ok? <==> AllLoad(env, kind, files)
    ensures r.value.Ok? ==> r.value.value == |files|
    ensures r.state == p.(documents := p.documents.Set(kind, p.documents.Get(kind) + LoadedPrefix(env, kind, files)))
  {
    Step(CountLoaded(env, kind, files),
         p.(documents := p.documents.Set(kind, p.documents.Get(kind) + LoadedPrefix(env, kind, files))))
  }

  /** Every kind's files in `dir` load without raising. */
  predicate LoadsFrom(env: Env, dir: string) {
    forall k :: AllLoad(env, k, Glob(env, dir, k))
  }

  /** Each count is the number of files of its kind found in `dir`. */
  predicate CountsFiles(env: Env, dir: string, counts: ByKind<nat>) {
    forall k :: counts.Get(k) == |Glob(env, dir, k)|
  }

  /** Each chunk list of `after` is the one of `before` followed by the
      tagged chunks of that kind's files in `dir`. */
  predicate AppendsAll(env: Env, dir: string, before: ByKind<seq<Chunk>>, after: ByKind<seq<Chunk>>) {
    forall k :: after.Get(k) == before.Get(k) + LoadedPrefix(env, k, Glob(env, dir, k))
  }

  lemma LoadsFromEach(env: Env, dir: string)
    ensures LoadsFrom(env, dir) <==>
      && AllLoad(env, Pdf, Glob(env, dir, Pdf))
      && AllLoad(env, Docx, Glob(env, dir, Docx))
      && AllLoad(env, Csv, Glob(env, dir, Csv))
  {
    if AllLoad(env, Pdf, Glob(env, dir, Pdf)) && AllLoad(env, Docx, Glob(env, dir, Docx)) && AllLoad(env, Csv, Glob(env, dir, Csv)) {
      forall k ensures AllLoad(env, k, Glob(env, dir, k)) {
        match k
        case Pdf =>
        case Docx =>
        case Csv =>
      }
    }
  }

  lemma CountsFilesEach(env: Env, dir: string, counts: ByKind<nat>)
    requires counts.pdf == |Glob(env, dir, Pdf)| && counts.docx == |Glob(env, dir, Docx)| && counts.csv == |Glob(env, dir, Csv)|
    ensures CountsFiles(env, dir, counts)
  {
    forall k ensures counts.Get(k) == |Glob(env, dir, k)| {
      match k
      case Pdf =>
      case Docx =>
      case Csv =>
    }
  }

  lemma AppendsAllEach(env: Env, dir: string, before: ByKind<seq<Chunk>>, after: ByKind<seq<Chunk>>)
    requires after.pdf == before.pdf + LoadedPrefix(env, Pdf, Glob(env, dir, Pdf))
    requires after.docx == before.docx + LoadedPrefix(env, Docx, Glob(env, dir, Docx))
    requires after.csv == before.csv + LoadedPrefix(env, Csv, Glob(env, dir, Csv))
    ensures AppendsAll(env, dir, before, after)
  {
    forall k ensures after.Get(k) == before.Get(k) + LoadedPrefix(env, k, Glob(env, dir, k)) {
      match k
      case Pdf =>
      case Docx =>
      case Csv =>
    }
  }

  /** `load_documents`: a missing directory is created and yields zero
      counts; otherwise the pdf, docx and csv files are loaded in that order,
      and each count is the number of files found. Nothing but the chunk
      lists changes. */
  function LoadDocuments(env: Env, p: Processor, dir: string): (r: Step<Result<ByKind<nat>>>)
    ensures !env.pathExists(dir) ==> r == Step(Ok(NoCounts), p)
    ensures env.pathExists(dir) ==> (r.value.Ok? <==> LoadsFrom(env, dir))
    ensures env.pathExists(dir) && r.value.Ok? ==>
      CountsFiles(env, dir, r.value.value) && AppendsAll(env, dir, p.documents, r.state.documents)
    ensures r.state == p.(documents := r.state.documents)
  {
    if !env.pathExists(dir) then Step(Ok(NoCounts), p)
    else
      LoadsFromEach(env, dir);
      var a := LoadKind(env, p, Pdf, Glob(env, dir, Pdf));
      match a.value
      case Err(e) => Step(Err(e), a.state)
      case Ok(np) =>
        var b := LoadKind(env, a.state, Docx, Glob(env, dir, Docx));
        match b.value
        case Err(e) => Step(Err(e), b.state)
        case Ok(nd) =>
          var c := LoadKind(env, b.state, Csv, Glob(env, dir, Csv));
          match c.value
          case Err(e) => Step(Err(e), c.state)
          case Ok(nc) =>
            CountsFilesEach(env, dir, ByKind(np, nd, nc));
            AppendsAllEach(env, dir, p.documents, c.state.documents);
            Step(Ok(ByKind(np, nd, nc)), c.state)
  }

  /** One block of `create_vector_stores`: a kind with chunks gets a store over
      all of them, with its retriever's `k`; a kind without chunks is
      skipped; the other kinds' stores are untouched. */
  function BuildStore(env: Env, p: Processor, kind: Kind): (r: Step<Outcome>)
    requires Valid(p)
    ensures Valid(r.state)
    ensures r.state.documents == p.documents && r.state.chains == p.chains && r.state.router == p.router
    ensures p.documents.Get(kind) == [] ==> r == Step(Pass, p)
    ensures p.documents.Get(kind) != [] ==> r.value == env.embed(p.documents.Get(kind))
    ensures r.value.Raise? ==> r.state == p
  {
    var docs := p.documents.Get(kind);
    if docs == [] then Step(Pass, p)
    else match env.embed(docs)
      case Raise(e) => Step(Raise(e), p)
      case Pass =>
        AddStoreValid(p, kind, docs);
        Step(Pass, p.(stores := p.stores[kind := Store(TopK(kind), docs)],
                      storeOrder := Insert(p.storeOrder, kind)))
  }

  /** Adding a kind's store, with the `k` its kind calls for, keeps a
      processor well formed. */
  lemma AddStoreValid(p: Processor, kind: Kind, docs: seq<Chunk>)
    requires Valid(p)
    ensures Valid(p.(stores := p.stores[kind := Store(TopK(kind), docs)],
                     storeOrder := Insert(p.storeOrder, kind)))
  {
  }

  /** After a block that passed, a kind holding chunks has a store over all
      of them (a store built by an earlier call is replaced); no other
      kind's store changes. */
  lemma BuildStoreStores(env: Env, p: Processor, kind: Kind)
    requires Valid(p)
    ensures var r := BuildStore(env, p, kind);
      && (r.value.Pass? ==> Indexed(p.documents, r.state.stores, kind))
      && (forall j | j != kind :: (j in r.state.stores <==> j in p.stores))
      && (forall j | j != kind && j in p.stores :: r.state.stores[j] == p.stores[j])
      && (forall j :: StoreFrame(p.documents, p.stores, r.state.stores, j))
  {
  }

  lemma StoreFrameTrans(docs: ByKind<seq<Chunk>>, s1: map<Kind, Store>, s2: map<Kind, Store>, s3: map<Kind, Store>)
    requires forall k :: StoreFrame(docs, s1, s2, k)
    requires forall k :: StoreFrame(docs, s2, s3, k)
    ensures forall k :: StoreFrame(docs, s1, s3, k)
  {
    forall k ensures StoreFrame(docs, s1, s3, k) {
      assert StoreFrame(docs, s1, s2, k) && StoreFrame(docs, s2, s3, k);
    }
  }

  /** Embedding the chunks of kind `k`, if there are any, raises nothing. */
  predicate Embeds(env: Env, docs: ByKind<seq<Chunk>>, k: Kind) {
    docs.Get(k) != [] ==> env.embed(docs.Get(k)).Pass?
  }

  predicate EmbedsAll(env: Env, docs: ByKind<seq<Chunk>>) {
    forall k :: Embeds(env, docs, k)
  }

  /** A kind holding chunks has a store over all of them with its `k`. */
  predicate Indexed(docs: ByKind<seq<Chunk>>, stores: map<Kind, Store>, k: Kind) {
    docs.Get(k) != [] ==> k in stores && stores[k] == Store(TopK(k), docs.Get(k))
  }

  predicate IndexedAll(docs: ByKind<seq<Chunk>>, stores: map<Kind, Store>) {
    forall k :: Indexed(docs, stores, k)
  }

  /** From `before` to `after` the store of `k` is new only if `k` holds
      chunks, and it is kept as it was if `k` holds none. */
  predicate StoreFrame(docs: ByKind<seq<Chunk>>, before: map<Kind, Store>, after: map<Kind, Store>, k: Kind) {
    && (k in after ==> k in before || docs.Get(k) != [])
    && (k in before && docs.Get(k) == [] ==> k in after && after[k] == before[k])
  }

  lemma EmbedsAllEach(env: Env, docs: ByKind<seq<Chunk>>)
    ensures EmbedsAll(env, docs) <==> Embeds(env, docs, Pdf) && Embeds(env, docs, Docx) && Embeds(env, docs, Csv)
  {
    if Embeds(env, docs, Pdf) && Embeds(env, docs, Docx) && Embeds(env, docs, Csv) {
      forall k ensures Embeds(env, docs, k) {
        match k
        case Pdf =>
        case Docx =>
        case Csv =>
      }
    }
  }

  lemma IndexedAllEach(docs: ByKind<seq<Chunk>>, stores: map<Kind, Store>)
    requires Indexed(docs, stores, Pdf) && Indexed(docs, stores, Docx) && Indexed(docs, stores, Csv)
    ensures IndexedAll(docs, stores)
  {
    forall k ensures Indexed(docs, stores, k) {
      match k
      case Pdf =>
      case Docx =>
      case Csv =>
    }
  }

  /** `create_vector_stores`: the blocks run pdf first, then docx, then csv,
      and an embedding error propagates, keeping the stores built before it.
      `CreateVectorStoresIndexed` and `CreateVectorStoresFrame` say which
      stores exist afterwards. */
  function CreateVectorStores(env: Env, p: Processor): (r: Step<Outcome>)
    requires Valid(p)
    ensures Valid(r.state)
    ensures r.state.documents == p.documents && r.state.chains == p.chains && r.state.router == p.router
    ensures r.value.Pass? <==> EmbedsAll(env, p.documents)
  {
    EmbedsAllEach(env, p.documents);
    var a := BuildStore(env, p, Pdf);
    match a.value
    case Raise(e) => a
    case Pass =>
      var b := BuildStore(env, a.state, Docx);
      match b.value
      case Raise(e) => b
      case Pass => BuildStore(env, b.state, Csv)
  }

  /** A store is new only for a kind holding chunks, and a kind holding none
      keeps its store. */
  lemma CreateVectorStoresFrame(env: Env, p: Processor)
    requires Valid(p)
    ensures forall k :: StoreFrame(p.documents, p.stores, CreateVectorStores(env, p).state.stores, k)
  {
    var a := BuildStore(env, p, Pdf);
    BuildStoreStores(env, p, Pdf);
    if a.value.Pass? {
      var b := BuildStore(env, a.state, Docx);
      BuildStoreStores(env, a.state, Docx);
      StoreFrameTrans(p.documents, p.stores, a.state.stores, b.state.stores);
      if b.value.Pass? {
        var c := BuildStore(env, b.state, Csv);
        BuildStoreStores(env, b.state, Csv);
        StoreFrameTrans(p.documents, p.stores, b.state.stores, c.state.stores);
      }
    }
  }

  /** When no embedding raised, every kind holding chunks has a store over
      exactly them, with its retriever's `k`. */
  lemma CreateVectorStoresIndexed(env: Env, p: Processor)
    requires Valid(p)
    ensures CreateVectorStores(env, p).value.Pass? ==> IndexedAll(p.documents, CreateVectorStores(env, p).state.stores)
  {
    var a := BuildStore(env, p, Pdf);
    if a.value.Pass? {
      var b := BuildStore(env, a.state, Docx);
      if b.value.Pass? {
        var c := BuildStore(env, b.state, Csv);
        if c.value.Pass? {
          BuildStoreStores(env, p, Pdf);
          BuildStoreStores(env, a.state, Docx);
          BuildStoreStores(env, b.state, Csv);
          IndexedAllEach(p.documents, c.state.stores);
        }
      }
    }
  }

  /** `create_qa_chains`: one chain per retriever, added in the retrievers'
      key order; a fresh processor ends with exactly the store keys, in
      order. */
  function CreateQaChains(p: Processor): (r: Processor)
    requires Valid(p)
    ensures Valid(r)
    ensures r == p.(chains := r.chains)
    ensures forall k :: k in r.chains <==> k in p.stores
    ensures IsPrefix(p.chains, r.chains)
    ensures p.chains == [] ==> r.chains == p.storeOrder
  {
    var chains := InsertAll(p.chains, p.storeOrder);
    InsertAllFromEmpty(p.chains, p.storeOrder);
    p.(chains := chains)
  }

  lemma InsertAllFromEmpty(chains: seq<Kind>, keys: seq<Kind>)
    requires Distinct(keys)
    ensures chains == [] ==> InsertAll(chains, keys) == keys
  {
    if chains == [] {
      assert chains + keys == keys;
      InsertAllFresh(chains, keys);
    }
  }

  /** Some file of a supported extension is in the upload folder. */
  predicate HasFiles(env: Env) {
    env.pathExists(UploadFolder) && exists k :: Glob(env, UploadFolder, k) != []
  }

  /** The counts add up to zero exactly when no file was found. */
  lemma NoFilesIffZero(env: Env, counts: ByKind<nat>)
    requires env.pathExists(UploadFolder) && CountsFiles(env, UploadFolder, counts)
    ensures Sum(counts) == 0 <==> !HasFiles(env)
  {
    if Sum(counts) != 0 {
      var k :| counts.Get(k) != 0;
      assert Glob(env, UploadFolder, k) != [];
    }
  }

  /** `initialize`. With no file found it returns `False` and builds nothing;
      otherwise it builds the stores, the chains and the router and returns
      `True`. Loader and embedding errors propagate. */
  function Initialize(env: Env, p: Processor): (r: Step<Result<bool>>)
    requires Valid(p)
    ensures Valid(r.state)
    ensures r.value == Ok(false) <==> !HasFiles(env)
    ensures r.value == Ok(false) ==> r.state == p.(documents := r.state.documents)
    ensures r.value == Ok(true) <==>
      HasFiles(env) && LoadsFrom(env, UploadFolder) && EmbedsAll(env, r.state.documents)
    ensures r.value == Ok(true) ==>
      && r.state.router
      && (forall k :: k in r.state.chains <==> k in r.state.stores)
      && IndexedAll(r.state.documents, r.state.stores)
      && AppendsAll(env, UploadFolder, p.documents, r.state.documents)
    ensures forall k :: StoreFrame(r.state.documents, p.stores, r.state.stores, k)
  {
    var l := LoadDocuments(env, p, UploadFolder);
    match l.value
    case Err(e) => Step(Err(e), l.state)
    case Ok(counts) =>
      if !env.pathExists(UploadFolder) then Step(Ok(false), l.state)
      else
        NoFilesIffZero(env, counts);
        if Sum(counts) == 0 then Step(Ok(false), l.state)
        else
          var s := CreateVectorStores(env, l.state);
          CreateVectorStoresFrame(env, l.state);
          CreateVectorStoresIndexed(env, l.state);
          match s.value
          case Raise(e) => Step(Err(e), s.state)
          case Pass =>
            var q := CreateQaChains(s.state).(router := true);
            assert q.stores == s.state.stores && q.documents == l.state.documents;
            Step(Ok(true), q)
  }

  /** The kinds of `kinds` that hold chunks in `docs`, in the order of
      `kinds`. */
  function Stocked(docs: ByKind<seq<Chunk>>, kinds: seq<Kind>): seq<Kind>
    decreases |kinds|
  {
    if kinds == [] then []
    else (if docs.Get(kinds[0]) != [] then [kinds[0]] else []) + Stocked(docs, kinds[1..])
  }

  /** The stocked kinds are those of `kinds` that hold chunks, each listed
      once when `kinds` lists it once. */
  lemma {:induction false} StockedMembers(docs: ByKind<seq<Chunk>>, kinds: seq<Kind>)
    ensures forall k :: k in Stocked(docs, kinds) <==> k in kinds && docs.Get(k) != []
    ensures Distinct(kinds) ==> Distinct(Stocked(docs, kinds))
    decreases |kinds|
  {
    if kinds != [] {
      StockedMembers(docs, kinds[1..]);
      assert kinds == [kinds[0]] + kinds[1..];
      if Distinct(kinds) {
        assert kinds[0] !in kinds[1..] by {
          forall i | 0 <= i < |kinds[1..]| ensures kinds[1..][i] != kinds[0] {
            assert kinds[1..][i] == kinds[i + 1];
          }
        }
        assert Distinct(kinds[1..]) by {
          forall i, j | 0 <= i < j < |kinds[1..]| ensures kinds[1..][i] != kinds[1..][j] {
            assert kinds[1..][i] == kinds[i + 1] && kinds[1..][j] == kinds[j + 1];
          }
        }
      }
    }
  }

  /** Adding the stocked kinds one by one: the first kind goes in when it
      holds chunks, then the rest. */
  lemma StockedStep(docs: ByKind<seq<Chunk>>, kinds: seq<Kind>, keys: seq<Kind>)
    requires kinds != []
    ensures InsertAll(keys, Stocked(docs, kinds))
            == InsertAll(if docs.Get(kinds[0]) != [] then Insert(keys, kinds[0]) else keys, Stocked(docs, kinds[1..]))
  {
    var rest := Stocked(docs, kinds[1..]);
    if docs.Get(kinds[0]) != [] {
      assert Stocked(docs, kinds) == [kinds[0]] + rest;
      assert ([kinds[0]] + rest)[1..] == rest;
    } else {
      assert Stocked(docs, kinds) == rest;
    }
  }

  /** A block that passed adds its kind to the stores' key order when the
      kind holds chunks, and leaves the order alone otherwise. */
  lemma BuildStoreOrder(env: Env, p: Processor, kind: Kind)
    requires Valid(p)
    ensures var r := BuildStore(env, p, kind);
      r.value.Pass? ==> r.state.storeOrder == (if p.documents.Get(kind) != [] then Insert(p.storeOrder, kind) else p.storeOrder)
  {
  }

  /** When no embedding raised, the stores' key order gains the kinds
      holding chunks in the order pdf, docx, csv. */
  lemma CreateVectorStoresOrder(env: Env, p: Processor)
    requires Valid(p)
    ensures var r := CreateVectorStores(env, p);
      r.value.Pass? ==> r.state.storeOrder == InsertAll(p.storeOrder, Stocked(p.documents, Order))
  {
    var docs := p.documents;
    var a := BuildStore(env, p, Pdf);
    if a.value.Pass? {
      var b := BuildStore(env, a.state, Docx);
      if b.value.Pass? {
        var c := BuildStore(env, b.state, Csv);
        BuildStoreOrder(env, p, Pdf);
        BuildStoreOrder(env, a.state, Docx);
        BuildStoreOrder(env, b.state, Csv);
        assert Order[1..] == [Docx, Csv] && Order[1..][1..] == [Csv] && Order[1..][1..][1..] == [];
        StockedStep(docs, Order, p.storeOrder);
        StockedStep(docs, Order[1..], a.state.storeOrder);
        StockedStep(docs, Order[1..][1..], b.state.storeOrder);
      }
    }
  }

  /** From a processor without stores or chains, such as a new one, a
      successful `initialize` lists the stores, and so the QA chains, in the
      order pdf, docx, csv, keeping exactly the kinds that hold chunks. The
      first of them answers when the router names no chain. */
  lemma InitializeOrder(env: Env, p: Processor)
    requires Valid(p) && p.storeOrder == [] && p.chains == []
    ensures var r := Initialize(env, p);
      r.value == Ok(true) ==>
        && r.state.storeOrder == Stocked(r.state.documents, Order)
        && r.state.chains == r.state.storeOrder
  {
    var l := LoadDocuments(env, p, UploadFolder);
    if l.value.Ok? && env.pathExists(UploadFolder) && Sum(l.value.value) != 0 {
      var s := CreateVectorStores(env, l.state);
      if s.value.Pass? {
        CreateVectorStoresOrder(env, l.state);
        StockedFresh(l.state.documents);
      }
    }
  }

  /** Added to an empty key order, the stocked kinds come out as they are. */
  lemma StockedFresh(docs: ByKind<seq<Chunk>>)
    ensures InsertAll([], Stocked(docs, Order)) == Stocked(docs, Order)
  {
    var found := Stocked(docs, Order);
    StockedMembers(docs, Order);
    EveryKindInOrder();
    assert [] + found == found;
    InsertAllFresh([], found);
  }

  /** When the chunk lists only grow, every kind holding chunks gets a store
      over exactly them and the other stores are kept, a processor whose
      stores index exactly its chunks still does. */
  lemma SyncedAfterBuild(p: Processor, q: Processor)
    requires Synced(p)
    requires forall k :: q.documents.Get(k) == [] ==> p.documents.Get(k) == []
    requires IndexedAll(q.documents, q.stores)
    requires forall k :: StoreFrame(q.documents, p.stores, q.stores, k)
    ensures Synced(q)
  {
    forall k ensures if k in q.stores then q.stores[k].docs == q.documents.Get(k)
                     else q.documents.Get(k) == [] {
      assert Indexed(q.documents, q.stores, k);
      assert StoreFrame(q.documents, p.stores, q.stores, k);
    }
  }

  /** A successful `initialize` keeps the stores equal to the chunks kept
      per kind. */
  lemma InitializeKeepsSync(env: Env, p: Processor)
    requires Valid(p) && Synced(p)
    ensures Initialize(env, p).value == Ok(true) ==> Synced(Initialize(env, p).state)
  {
    var r := Initialize(env, p);
    if r.value == Ok(true) {
      forall k | r.state.documents.Get(k) == [] ensures p.documents.Get(k) == [] {
        assert r.state.documents.Get(k) == p.documents.Get(k) + LoadedPrefix(env, k, Glob(env, UploadFolder, k));
      }
      SyncedAfterBuild(p, r.state);
    }
  }

  /** `query`: without a router or without a QA chain it fails with the
      not-loaded message; otherwise it routes, falls back and answers,
      turning any exception into a failure. */
  function Query(env: Env, p: Processor, question: string): (r: QueryResult)
    requires Valid(p)
    ensures !p.router || p.chains == [] ==> r == Failed(NotLoaded)
    ensures p.router && p.chains != [] ==> r == Dispatch(env, p, question)
    ensures r.Answered? ==> r.docType in p.chains && r.question == question
  {
    if !p.router || p.chains == [] then Failed(NotLoaded)
    else Dispatch(env, p, question)
  }

  /** `has_documents`: some chunk is loaded and some QA chain exists. */
  function HasDocuments(p: Processor): (b: bool)
    ensures b <==> (exists k :: p.documents.Get(k) != []) && p.chains != []
  {
    Sum(DocumentCount(p)) > 0 && |p.chains| > 0
  }

  /** `initialize` counts files, not chunks: when files are found but none
      yields a chunk, it returns `True` although no store, chain or document
      exists, and every later query is refused as if nothing were loaded. */
  lemma {:induction false} InitializedWithoutChains(env: Env, question: string)
    requires HasFiles(env)
    requires forall k, f :: env.load(k, f) == Ok([])
    ensures Initialize(env, Fresh).value == Ok(true)
    ensures Initialize(env, Fresh).state.chains == []
    ensures !HasDocuments(Initialize(env, Fresh).state)
    ensures Query(env, Initialize(env, Fresh).state, question) == Failed(NotLoaded)
  {
    BlankLoad(env);
    var r := Initialize(env, Fresh);
    assert r.value == Ok(true);
    forall k ensures k !in r.state.stores {
      assert StoreFrame(r.state.documents, Fresh.stores, r.state.stores, k);
    }
  }

  /** A folder whose files all load without a chunk loads without error
      and adds nothing. */
  lemma BlankLoad(env: Env)
    requires forall k, f :: env.load(k, f) == Ok([])
    ensures LoadDocuments(env, Fresh, UploadFolder).value.Ok?
    ensures LoadDocuments(env, Fresh, UploadFolder).state.documents == Fresh.documents
  {
    forall k ensures LoadedPrefix(env, k, Glob(env, UploadFolder, k)) == [] && AllLoad(env, k, Glob(env, UploadFolder, k)) {
      BlankFiles(env, k, Glob(env, UploadFolder, k));
    }
    var l := LoadDocuments(env, Fresh, UploadFolder);
    assert l.state.documents.Get(Pdf) == [] && l.state.documents.Get(Docx) == []
        && l.state.documents.Get(Csv) == [];
  }

  /** Files that all load without a chunk add nothing. */
  lemma {:induction false} BlankFiles(env: Env, k: Kind, files: seq<string>)
    requires forall k, f :: env.load(k, f) == Ok([])
    ensures LoadedPrefix(env, k, files) == [] && AllLoad(env, k, files)
    decreases |files|
  {
    if files != [] {
      BlankFiles(env, k, files[1..]);
      assert TagAll([], k, Basename(files[0])) == [];
    }
  }
}
