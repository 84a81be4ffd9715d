/** The incremental `DocumentProcessor` (document_processor.py): each file is
    loaded, tagged and appended to its kind's chunks; the kind's vector store,
    retriever and QA chain are created by its first successful ingestion and
    only extended afterwards. */
module Incremental {
  import opened Results
  import opened Sequences
  import opened Kinds
  import opened Corpus

  /** What this variant keeps true between calls: stores, retrievers and QA
      chains are created together and so have the same keys in the same
      order, and the router exists once any chain does. */
  predicate Inv(p: Processor) {
    && Valid(p)
    && p.storeOrder == p.chains
    && (p.chains != [] ==> p.router)
  }

  lemma FreshInv()
    ensures Inv(Fresh) && Synced(Fresh)
  {
  }

  /** What `process_file` appends for `path` before it touches any store: the
      resolved kind and the loaded chunks tagged with it and the file's base
      name. `None` when the path does not exist, its extension is not
      supported, or the loader raised; then nothing is appended. */
  function Loaded(env: Env, path: string): Option<(Kind, seq<Chunk>)>
  {
    if !env.pathExists(path) then None
    else match ResolveKind(path)
      case None => None
      case Some(kind) =>
        match env.load(kind, path)
        case Err(_) => None
        case Ok(raw) => Some((kind, TagAll(raw, kind, Basename(path))))
  }

  /** A file is loaded exactly when it exists, its lower-cased extension
      names a kind and that kind's loader returns; its chunks are then the
      loader's, each tagged with the kind and the file's base name. */
  lemma LoadedSpec(env: Env, path: string)
    ensures var r := Loaded(env, path);
      && (r.Some? <==> && env.pathExists(path)
                       && ResolveKind(path).Some?
                       && env.load(ResolveKind(path).value, path).Ok?)
      && (r.Some? ==>
            var raw := env.load(r.value.0, path).value;
            && Name(r.value.0) == Extension(path)
            && |r.value.1| == |raw|
            && forall i | 0 <= i < |raw| :: TaggedFrom(r.value.1[i], raw[i], r.value.0, Basename(path)))
  {
  }

  /** The files `process_file` reports `True` for: loaded, and their chunks
      embedded into the kind's store without an exception. */
  predicate Succeeds(env: Env, path: string) {
    Loaded(env, path).Some? && env.embed(Loaded(env, path).value.1).Pass?
  }

  /** `_update_vector_store` followed by `_create_qa_chain_for_type`. An
      embedding error propagates; otherwise only the stores, their key order
      and the chains change, the kind joining the chains if it is new.
      `UpdateVectorStoreStores` gives the new stores. */
  function UpdateVectorStore(env: Env, p: Processor, kind: Kind, docs: seq<Chunk>): (r: Result<Processor>)
    requires Valid(p) && p.storeOrder == p.chains
    ensures r.Ok? <==> env.embed(docs).Pass?
    ensures r.Err? ==> r.error == env.embed(docs).error
    ensures r.Ok? ==> && Valid(r.value) && r.value.storeOrder == r.value.chains
                      && r.value.chains == Insert(p.chains, kind)
                      && r.value.documents == p.documents && r.value.router == p.router
  {
    match env.embed(docs)
    case Raise(e) => Err(e)
    case Pass =>
      if kind in p.stores then
        var s := p.stores[kind];
        Ok(p.(stores := p.stores[kind := Store(s.k, s.docs + docs)]))
      else
        Ok(p.(stores := p.stores[kind := Store(TopK(kind), docs)],
              storeOrder := Insert(p.storeOrder, kind),
              chains := Insert(p.chains, kind)))
  }

  /** A kind without a store gets one over `docs`, with `k` 10 for csv and 5
      otherwise; a kind with a store only has `docs` added to it, keeping its
      `k`; the other kinds' stores are untouched. */
  lemma UpdateVectorStoreStores(env: Env, p: Processor, kind: Kind, docs: seq<Chunk>)
    requires Valid(p) && p.storeOrder == p.chains && env.embed(docs).Pass?
    ensures var q := UpdateVectorStore(env, p, kind, docs).value;
      && kind in q.stores
      && (kind in p.stores ==> q.stores[kind] == Store(p.stores[kind].k, p.stores[kind].docs + docs))
      && (kind !in p.stores ==> q.stores[kind] == Store(TopK(kind), docs))
      && (forall j | j != kind :: (j in q.stores <==> j in p.stores))
      && (forall j | j != kind && j in p.stores :: q.stores[j] == p.stores[j])
  {
  }

  /** What `process_file` does once a file of `kind` has loaded into `docs`:
      the chunks are appended, then the store is updated and the router
      created; an embedding error is caught and reported as `False`. */
  function Ingest(env: Env, p: Processor, kind: Kind, docs: seq<Chunk>): (r: Step<bool>)
    requires Inv(p)
    ensures Inv(r.state)
    ensures r.value <==> env.embed(docs).Pass?
    ensures IsPrefix(p.chains, r.state.chains)
    ensures p.router ==> r.state.router
    ensures r.value ==> r.state.router && r.state.chains != []
  {
    var appended := p.(documents := p.documents.Set(kind, p.documents.Get(kind) + docs));
    match UpdateVectorStore(env, appended, kind, docs)
    case Err(_) => Step(false, appended)
    case Ok(q) => Step(true, q.(router := true))
  }

  /** The chunks are appended before the store is updated and are not taken
      back when the update raises; a failed update leaves the stores, chains
      and router alone. */
  lemma IngestEffect(env: Env, p: Processor, kind: Kind, docs: seq<Chunk>)
    requires Inv(p)
    ensures var r := Ingest(env, p, kind, docs);
      && r.state.documents == p.documents.Set(kind, p.documents.Get(kind) + docs)
      && (!r.value ==> r.state.stores == p.stores && r.state.chains == p.chains && r.state.router == p.router)
      && (r.value ==> r.state.chains == Insert(p.chains, kind))
  {
  }

  /** `process_file`: a file that does not exist, has an unsupported
      extension or whose loader raises is reported `False` and changes
      nothing; otherwise it is ingested. */
  function ProcessFile(env: Env, p: Processor, path: string): (r: Step<bool>)
    requires Inv(p)
    ensures Inv(r.state)
    ensures IsPrefix(p.chains, r.state.chains)
    ensures p.router ==> r.state.router
    ensures r.value ==> r.state.router && r.state.chains != []
  {
    match Loaded(env, path)
    case None => Step(false, p)
    case Some((kind, docs)) => Ingest(env, p, kind, docs)
  }

  /** `process_file` reports `True` exactly for a file that loads and whose
      chunks embed, and a file that does not load changes nothing. */
  lemma ProcessFileSucceeds(env: Env, p: Processor, path: string)
    requires Inv(p)
    ensures ProcessFile(env, p, path).value <==> Succeeds(env, path)
    ensures Loaded(env, path).None? ==> ProcessFile(env, p, path).state == p
  {
  }

  /** A successful ingestion keeps every store equal to its kind's chunks. */
  lemma IngestKeepsSync(env: Env, p: Processor, kind: Kind, docs: seq<Chunk>)
    requires Inv(p) && Synced(p) && env.embed(docs).Pass?
    ensures Synced(Ingest(env, p, kind, docs).state)
  {
    var r := Ingest(env, p, kind, docs);
    var appended := p.(documents := p.documents.Set(kind, p.documents.Get(kind) + docs));
    IngestEffect(env, p, kind, docs);
    UpdateVectorStoreStores(env, appended, kind, docs);
    forall k ensures if k in r.state.stores then r.state.stores[k].docs == r.state.documents.Get(k)
                     else r.state.documents.Get(k) == [] {
      if k != kind {
        assert r.state.documents.Get(k) == p.documents.Get(k);
      }
    }
  }

  /** A file that loads fails only by raising while its chunks are embedded. */
  predicate EmbedsCleanly(env: Env, path: string) {
    Loaded(env, path).Some? ==> Succeeds(env, path)
  }

  /** A successful ingestion, or one that appends nothing, keeps every store
      equal to its kind's chunks. */
  lemma ProcessFileKeepsSync(env: Env, p: Processor, path: string)
    requires Inv(p)
    ensures Synced(p) && EmbedsCleanly(env, path) ==> Synced(ProcessFile(env, p, path).state)
  {
    ProcessFileSucceeds(env, p, path);
    if Synced(p) && EmbedsCleanly(env, path) && Loaded(env, path).Some? {
      var (kind, docs) := Loaded(env, path).value;
      IngestKeepsSync(env, p, kind, docs);
    }
  }

  /** No rollback: when embedding a loaded file's chunks raises,
      `process_file` reports `False` yet the chunks stay in
      `documents_by_type`, so the kind's chunks and its store drift apart. */
  lemma NoRollback(env: Env, p: Processor, kind: Kind, docs: seq<Chunk>)
    requires Inv(p) && Synced(p)
    requires docs != [] && env.embed(docs).Raise?
    ensures var r := Ingest(env, p, kind, docs);
            && !r.value
            && |r.state.documents.Get(kind)| == |p.documents.Get(kind)| + |docs|
            && !Synced(r.state)
  {
    var r := Ingest(env, p, kind, docs);
    IngestEffect(env, p, kind, docs);
    if kind in p.stores {
      assert |r.state.stores[kind].docs| < |r.state.documents.Get(kind)|;
    } else {
      assert r.state.documents.Get(kind) != [];
    }
  }

  /** The number of `files` that `process_file` reports `True` for. */
  function Successes(env: Env, files: seq<string>): nat
  {
    if files == [] then 0
    else (if Succeeds(env, files[0]) then 1 else 0) + Successes(env, files[1..])
  }

  lemma {:induction false} SuccessesPositive(env: Env, files: seq<string>)
    ensures Successes(env, files) > 0 <==> exists i | 0 <= i < |files| :: Succeeds(env, files[i])
  {
    if files != [] {
      SuccessesPositive(env, files[1..]);
      if Successes(env, files[1..]) > 0 {
        var i :| 0 <= i < |files[1..]| && Succeeds(env, files[1..][i]);
        assert Succeeds(env, files[i + 1]);
      }
      if exists i | 0 <= i < |files| :: Succeeds(env, files[i]) {
        var i :| 0 <= i < |files| && Succeeds(env, files[i]);
        if i > 0 {
          assert Succeeds(env, files[1..][i - 1]);
        }
      }
    }
  }

  /** The inner loop of `load_documents`: `process_file` on each file in turn,
      counting the `True` results. */
  function ProcessAll(env: Env, p: Processor, files: seq<string>): (r: Step<nat>)
    requires Inv(p)
    ensures Inv(r.state)
    decreases |files|
  {
    if files == [] then Step(0, p)
    else
      var first := ProcessFile(env, p, files[0]);
      var rest := ProcessAll(env, first.state, files[1..]);
      Step((if first.value then 1 else 0) + rest.value, rest.state)
  }

  /** The loop counts at most one per file, only adds chains, never clears
      the router, and leaves a chain and the router once a file succeeded. */
  lemma {:induction false} ProcessAllGrows(env: Env, p: Processor, files: seq<string>)
    requires Inv(p)
    ensures var r := ProcessAll(env, p, files);
      && r.value <= |files|
      && IsPrefix(p.chains, r.state.chains)
      && (p.router ==> r.state.router)
      && (r.value > 0 ==> r.state.chains != [] && r.state.router)
    decreases |files|
  {
    if files != [] {
      var first := ProcessFile(env, p, files[0]);
      ProcessAllGrows(env, first.state, files[1..]);
      var rest := ProcessAll(env, first.state, files[1..]);
      PrefixTransitive(p.chains, first.state.chains, rest.state.chains);
      ProcessAllUnfold(env, p, files);
      if first.value {
        assert IsPrefix(first.state.chains, rest.state.chains);
      }
    }
  }

  /** Each extension's count is the number of its files that `process_file`
      reported `True` for. */
  lemma {:induction false} ProcessAllCounts(env: Env, p: Processor, files: seq<string>)
    requires Inv(p)
    ensures ProcessAll(env, p, files).value == Successes(env, files)
    decreases |files|
  {
    if files != [] {
      ProcessFileSucceeds(env, p, files[0]);
      ProcessAllCounts(env, ProcessFile(env, p, files[0]).state, files[1..]);
      ProcessAllUnfold(env, p, files);
    }
  }

  /** When no loaded file fails to embed, the stores stay equal to the chunks
      kept per kind. */
  lemma {:induction false} ProcessAllKeepsSync(env: Env, p: Processor, files: seq<string>)
    requires Inv(p) && Synced(p)
    requires forall i | 0 <= i < |files| :: EmbedsCleanly(env, files[i])
    ensures Synced(ProcessAll(env, p, files).state)
    decreases |files|
  {
    if files != [] {
      ProcessFileKeepsSync(env, p, files[0]);
      ProcessAllKeepsSync(env, ProcessFile(env, p, files[0]).state, files[1..]);
    }
  }

  lemma ProcessAllUnfold(env: Env, p: Processor, files: seq<string>)
    requires Inv(p) && files != []
    ensures var f := ProcessFile(env, p, files[0]);
            var rest := ProcessAll(env, f.state, files[1..]);
            && ProcessAll(env, p, files).value == (if f.value then 1 else 0) + rest.value
            && ProcessAll(env, p, files).state == rest.state
  {
  }

  /** A file `process_file` reports `True` for leaves its kind in the
      chains, and the router; any other leaves both as they were. */
  lemma ProcessFileChains(env: Env, p: Processor, path: string)
    requires Inv(p)
    ensures var r := ProcessFile(env, p, path);
      && (Succeeds(env, path) ==> ResolveKind(path).Some? && r.state.chains == Insert(p.chains, ResolveKind(path).value))
      && (!Succeeds(env, path) ==> r.state.chains == p.chains)
      && r.state.router == (p.router || Succeeds(env, path))
  {
    ProcessFileSucceeds(env, p, path);
    if Loaded(env, path).Some? {
      var (kind, docs) := Loaded(env, path).value;
      IngestEffect(env, p, kind, docs);
    }
  }

  /** Over files that all resolve to `kind`, the loop adds `kind` to the
      chains exactly when one of them succeeds, and the router with it. */
  lemma {:induction false} ProcessAllChains(env: Env, p: Processor, files: seq<string>, kind: Kind)
    requires Inv(p)
    requires forall i | 0 <= i < |files| :: ResolveKind(files[i]) == Some(kind)
    ensures var r := ProcessAll(env, p, files);
      && r.state.chains == (if Successes(env, files) > 0 then Insert(p.chains, kind) else p.chains)
      && r.state.router == (p.router || Successes(env, files) > 0)
    decreases |files|
  {
    if files != [] {
      var first := ProcessFile(env, p, files[0]);
      ProcessFileChains(env, p, files[0]);
      assert forall i | 0 <= i < |files[1..]| :: ResolveKind(files[1..][i]) == Some(kind) by {
        forall i | 0 <= i < |files[1..]| ensures ResolveKind(files[1..][i]) == Some(kind) {
          assert files[1..][i] == files[i + 1];
        }
      }
      ProcessAllChains(env, first.state, files[1..], kind);
      ProcessAllUnfold(env, p, files);
    }
  }

  /** The loop over the files of one kind adds that kind to the chains
      exactly when one of them succeeds. */
  lemma KindChains(env: Env, p: Processor, dir: string, k: Kind)
    requires Inv(p)
    ensures var r := ProcessAll(env, p, Glob(env, dir, k));
      && r.state.chains == (if Found(env, dir, k) then Insert(p.chains, k) else p.chains)
      && r.state.router == (p.router || Found(env, dir, k))
  {
    GlobResolves(env, dir, k);
    ProcessAllChains(env, p, Glob(env, dir, k), k);
  }

  /** The kinds of `kinds` with a file in `dir` that `process_file` reports
      `True` for, in the order of `kinds`. */
  function Ingested(env: Env, dir: string, kinds: seq<Kind>): seq<Kind>
    decreases |kinds|
  {
    if kinds == [] then []
    else (if Found(env, dir, kinds[0]) then [kinds[0]] else []) + Ingested(env, dir, kinds[1..])
  }

  /** Some file of kind `k` in `dir` is one `process_file` reports `True` for. */
  predicate Found(env: Env, dir: string, k: Kind) {
    Successes(env, Glob(env, dir, k)) > 0
  }

  /** The ingested kinds are those of `kinds` with a successful file, each
      listed once when `kinds` lists it once. */
  lemma {:induction false} IngestedMembers(env: Env, dir: string, kinds: seq<Kind>)
    ensures forall k :: k in Ingested(env, dir, kinds) <==> k in kinds && Found(env, dir, k)
    ensures Distinct(kinds) ==> Distinct(Ingested(env, dir, kinds))
    decreases |kinds|
  {
    if kinds != [] {
      IngestedMembers(env, dir, kinds[1..]);
      assert kinds == [kinds[0]] + kinds[1..];
      if Distinct(kinds) {
        DistinctTail(kinds);
      }
    }
  }

  /** The loop of `load_documents` over the extensions of `kinds`, in order:
      the files of each are processed, and their successes added to its
      count. */
  function LoadKinds(env: Env, p: Processor, dir: string, kinds: seq<Kind>, counts: ByKind<nat>): (r: Step<ByKind<nat>>)
    requires Inv(p)
    ensures Inv(r.state)
    decreases |kinds|
  {
    if kinds == [] then Step(counts, p)
    else
      var a := ProcessAll(env, p, Glob(env, dir, kinds[0]));
      LoadKinds(env, a.state, dir, kinds[1..], counts.Set(kinds[0], counts.Get(kinds[0]) + a.value))
  }

  /** Each kind visited once gets the number of its files `process_file`
      reported `True` for; the others keep their count. */
  lemma {:induction false} LoadKindsCounts(env: Env, p: Processor, dir: string, kinds: seq<Kind>, counts: ByKind<nat>, k: Kind)
    requires Inv(p) && Distinct(kinds)
    ensures LoadKinds(env, p, dir, kinds, counts).value.Get(k)
            == counts.Get(k) + (if k in kinds then Successes(env, Glob(env, dir, k)) else 0)
    decreases |kinds|
  {
    if kinds != [] {
      var k0, rest := kinds[0], kinds[1..];
      var a := ProcessAll(env, p, Glob(env, dir, k0));
      var c := counts.Set(k0, counts.Get(k0) + a.value);
      ProcessAllCounts(env, p, Glob(env, dir, k0));
      DistinctTail(kinds);
      LoadKindsUnfold(env, p, dir, kinds, counts, a);
      LoadKindsCounts(env, a.state, dir, rest, c, k);
      assert k in kinds <==> k == k0 || k in rest by {
        assert kinds == [k0] + rest;
      }
    }
  }

  lemma LoadKindsUnfold(env: Env, p: Processor, dir: string, kinds: seq<Kind>, counts: ByKind<nat>, a: Step<nat>)
    requires Inv(p) && kinds != [] && a == ProcessAll(env, p, Glob(env, dir, kinds[0]))
    ensures LoadKinds(env, p, dir, kinds, counts)
            == LoadKinds(env, a.state, dir, kinds[1..], counts.Set(kinds[0], counts.Get(kinds[0]) + a.value))
  {
  }

  /** The tail of a list of distinct kinds is distinct and lacks its head. */
  lemma DistinctTail(kinds: seq<Kind>)
    requires Distinct(kinds) && kinds != []
    ensures Distinct(kinds[1..]) && kinds[0] !in kinds[1..]
  {
    forall i, j | 0 <= i < j < |kinds[1..]| ensures kinds[1..][i] != kinds[1..][j] {
      assert kinds[1..][i] == kinds[i + 1] && kinds[1..][j] == kinds[j + 1];
    }
    forall i | 0 <= i < |kinds[1..]| ensures kinds[1..][i] != kinds[0] {
      assert kinds[1..][i] == kinds[i + 1];
    }
  }

  /** The loop adds the ingested kinds to the chains in the order of
      `kinds`, and leaves the router once any file succeeded. */
  lemma {:induction false} LoadKindsChains(env: Env, p: Processor, dir: string, kinds: seq<Kind>, counts: ByKind<nat>)
    requires Inv(p)
    ensures var r := LoadKinds(env, p, dir, kinds, counts);
      && r.state.chains == InsertAll(p.chains, Ingested(env, dir, kinds))
      && r.state.router == (p.router || Ingested(env, dir, kinds) != [])
    decreases |kinds|
  {
    if kinds != [] {
      var k0, rest := kinds[0], kinds[1..];
      var files := Glob(env, dir, k0);
      var a := ProcessAll(env, p, files);
      var c := counts.Set(k0, counts.Get(k0) + a.value);
      KindChains(env, p, dir, k0);
      LoadKindsChains(env, a.state, dir, rest, c);
      LoadKindsUnfold(env, p, dir, kinds, counts, a);
      IngestedStep(env, dir, kinds, p.chains);
    }
  }

  /** Adding the ingested kinds one by one: the first kind goes in when it
      had a successful file, then the rest. */
  lemma IngestedStep(env: Env, dir: string, kinds: seq<Kind>, chains: seq<Kind>)
    requires kinds != []
    ensures var first := if Found(env, dir, kinds[0]) then Insert(chains, kinds[0]) else chains;
      && InsertAll(chains, Ingested(env, dir, kinds)) == InsertAll(first, Ingested(env, dir, kinds[1..]))
      && (Ingested(env, dir, kinds) != [] <==> Found(env, dir, kinds[0]) || Ingested(env, dir, kinds[1..]) != [])
  {
    var found := Ingested(env, dir, kinds[1..]);
    if Found(env, dir, kinds[0]) {
      assert Ingested(env, dir, kinds) == [kinds[0]] + found;
      assert ([kinds[0]] + found)[1..] == found;
    } else {
      assert Ingested(env, dir, kinds) == found;
    }
  }

  /** `load_documents`: a missing directory is created and yields zero
      counts; otherwise the pdf, docx and csv files are processed in that
      order, each count is the number of files ingested, and the kinds with
      an ingested file join the chains in that order. */
  function LoadDocuments(env: Env, p: Processor, dir: string): (r: Step<ByKind<nat>>)
    requires Inv(p)
    ensures Inv(r.state)
    ensures !env.pathExists(dir) ==> r == Step(NoCounts, p)
    ensures env.pathExists(dir) ==> CountsSuccesses(env, dir, r.value)
    ensures env.pathExists(dir) ==> r.state.chains == InsertAll(p.chains, Ingested(env, dir, Order))
    ensures IsPrefix(p.chains, r.state.chains)
    ensures p.router ==> r.state.router
    ensures Sum(r.value) > 0 ==> r.state.chains != [] && r.state.router
  {
    if !env.pathExists(dir) then Step(NoCounts, p)
    else
      var r := LoadKinds(env, p, dir, Order, NoCounts);
      EveryKindInOrder();
      LoadCounts(env, p, dir);
      LoadKindsChains(env, p, dir, Order, NoCounts);
      CountedIngested(env, dir, r.value);
      IngestedMembers(env, dir, Order);
      r
  }

  lemma LoadCounts(env: Env, p: Processor, dir: string)
    requires Inv(p)
    ensures CountsSuccesses(env, dir, LoadKinds(env, p, dir, Order, NoCounts).value)
  {
    EveryKindInOrder();
    forall k ensures LoadKinds(env, p, dir, Order, NoCounts).value.Get(k) == Successes(env, Glob(env, dir, k)) {
      LoadKindsCounts(env, p, dir, Order, NoCounts, k);
    }
  }

  /** A positive count means some kind had a file ingested. */
  lemma CountedIngested(env: Env, dir: string, counts: ByKind<nat>)
    requires CountsSuccesses(env, dir, counts)
    ensures Sum(counts) > 0 ==> Ingested(env, dir, Order) != []
  {
    EveryKindInOrder();
    if Sum(counts) > 0 {
      var k :| counts.Get(k) != 0;
      assert k in Ingested(env, dir, Order);
    }
  }

  /** Each count is the number of that kind's files in `dir` that
      `process_file` reported `True` for. */
  predicate CountsSuccesses(env: Env, dir: string, counts: ByKind<nat>) {
    forall k :: counts.Get(k) == Successes(env, Glob(env, dir, k))
  }

  /** `initialize`: `False` exactly when no file in the upload folder was
      ingested; `True` leaves a router and at least one QA chain, so a query
      gets past the not-loaded guard. */
  function Initialize(env: Env, p: Processor): (r: Step<bool>)
    requires Inv(p)
    ensures Inv(r.state)
    ensures r.value <==> && env.pathExists(UploadFolder)
                         && exists k, i | 0 <= i < |Glob(env, UploadFolder, k)| ::
                              Succeeds(env, Glob(env, UploadFolder, k)[i])
    ensures r.value ==> r.state.chains != [] && r.state.router
  {
    var l := LoadDocuments(env, p, UploadFolder);
    assert forall k :: Successes(env, Glob(env, UploadFolder, k)) > 0 <==>
             exists i | 0 <= i < |Glob(env, UploadFolder, k)| :: Succeeds(env, Glob(env, UploadFolder, k)[i]) by {
      forall k ensures Successes(env, Glob(env, UploadFolder, k)) > 0 <==>
                 exists i | 0 <= i < |Glob(env, UploadFolder, k)| :: Succeeds(env, Glob(env, UploadFolder, k)[i]) {
        SuccessesPositive(env, Glob(env, UploadFolder, k));
      }
    }
    Step(Sum(l.value) != 0, l.state)
  }

  /** From a processor without chains, such as a new one, `initialize`
      leaves as QA chains exactly the kinds with an ingested upload, in the
      order pdf, docx, csv. The first of them, which answers when the router
      names no chain, is the first kind in that order with an ingested file. */
  lemma InitializeChains(env: Env, p: Processor)
    requires Inv(p) && p.chains == []
    ensures var r := Initialize(env, p);
      && r.state.chains == (if env.pathExists(UploadFolder) then Ingested(env, UploadFolder, Order) else [])
      && (r.value ==> r.state.chains[0] == (if Found(env, UploadFolder, Pdf) then Pdf
                                            else if Found(env, UploadFolder, Docx) then Docx
                                            else Csv))
  {
    IngestedFresh(env, UploadFolder);
    IngestedHead(env, UploadFolder);
  }

  /** Adding the ingested kinds to no chains lists them as they are. */
  lemma IngestedFresh(env: Env, dir: string)
    ensures InsertAll([], Ingested(env, dir, Order)) == Ingested(env, dir, Order)
  {
    var found := Ingested(env, dir, Order);
    IngestedMembers(env, dir, Order);
    EveryKindInOrder();
    assert [] + found == found;
    InsertAllFresh([], found);
  }

  /** The first ingested kind in the order pdf, docx, csv. */
  lemma IngestedHead(env: Env, dir: string)
    ensures var found := Ingested(env, dir, Order);
      found != [] ==> found[0] == (if Found(env, dir, Pdf) then Pdf else if Found(env, dir, Docx) then Docx else Csv)
  {
    assert Order[1..] == [Docx, Csv] && Order[1..][1..] == [Csv] && Order[1..][1..][1..] == [];
  }

  /** `query`: with no QA chain it fails with the not-loaded message without
      consulting the router; otherwise it creates the router if missing and
      dispatches, turning any exception into a failure. */
  function Query(env: Env, p: Processor, question: string): (r: Step<QueryResult>)
    requires Inv(p)
    ensures Inv(r.state)
    ensures p.chains == [] ==> r == Step(Failed(NotLoaded), p)
    ensures p.chains != [] ==> r.state == p.(router := true) && r.value == Dispatch(env, p, question)
    ensures r.value.Answered? ==> r.value.docType in p.chains && r.value.question == question
  {
    if p.chains == [] then Step(Failed(NotLoaded), p)
    else
      var q := if p.router then p else p.(router := true);
      Step(Dispatch(env, q, question), q)
  }

  /** `has_documents`: some kind holds at least one chunk. */
  function HasDocuments(p: Processor): (b: bool)
    ensures b <==> exists k :: p.documents.Get(k) != []
  {
    Sum(DocumentCount(p)) > 0
  }
}
