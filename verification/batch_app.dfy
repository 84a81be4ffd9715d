/** The Flask API around the batch processor
    (Document-Search-Engine-main/app.py): the upload handler, the query
    handler that builds a processor on first use, and the status report. */
module BatchApp {
  import opened Results
  import opened Text
  import opened Kinds
  import opened Corpus
  import Batch

  /** The upload oracles: `secure_filename`, and `file.save` into the upload
      folder under the secured name, which may raise. */
  datatype Disk = Disk(secure: string -> string, save: string -> Outcome)

  /** The module global `processor`. */
  datatype Service = Service(processor: Option<Processor>)

  const Start: Service := Service(None)

  predicate ServiceInv(s: Service) {
    s.processor.Some? ==> Valid(s.processor.value)
  }

  /** A handler's reply and the global it leaves. */
  datatype Handled<T> = Handled(value: T, service: Service)

  /** A part the loop keeps: it has a file name with an allowed extension. */
  predicate Accepted(name: string) {
    name != "" && AllowedFile(name)
  }

  /** The accepted names, in upload order. */
  function AcceptedNames(names: seq<string>): (r: seq<string>)
    ensures |r| <= |names|
    ensures forall x | x in r :: Accepted(x) && x in names
  {
    if names == [] then []
    else (if Accepted(names[0]) then [names[0]] else []) + AcceptedNames(names[1..])
  }

  /** The accepted names are exactly the accepted members of the upload, and
      none is dropped. */
  lemma {:induction false} AcceptedNamesComplete(names: seq<string>)
    ensures forall x | x in names && Accepted(x) :: x in AcceptedNames(names)
    ensures AcceptedNames(names) == [] <==> forall i | 0 <= i < |names| :: !Accepted(names[i])
  {
    if names != [] {
      AcceptedNamesComplete(names[1..]);
      forall i | 1 <= i < |names| ensures names[i] == names[1..][i - 1] { }
    }
  }

  /** The filter keeps upload order: over `a + b` it keeps `a`'s accepted
      names, then `b`'s; a single part is kept exactly when it is
      accepted. */
  lemma {:induction false} AcceptedNamesConcat(a: seq<string>, b: seq<string>)
    ensures AcceptedNames(a + b) == AcceptedNames(a) + AcceptedNames(b)
    ensures |a| == 1 ==> AcceptedNames(a) == (if Accepted(a[0]) then [a[0]] else [])
    decreases |a|
  {
    if a == [] {
      assert a + b == b;
    } else {
      assert (a + b)[0] == a[0] && (a + b)[1..] == a[1..] + b;
      AcceptedNamesConcat(a[1..], b);
      var h := if Accepted(a[0]) then [a[0]] else [];
      assert h + (AcceptedNames(a[1..]) + AcceptedNames(b)) == (h + AcceptedNames(a[1..])) + AcceptedNames(b);
      if |a| == 1 {
        assert a[1..] == [];
      }
    }
  }

  /** The save loop over the accepted names: each is saved under its secured
      name, and the first save that raises ends the request. */
  function SaveAll(disk: Disk, names: seq<string>): (r: Result<seq<string>>)
    ensures r.Ok? ==> |r.value| == |names|
    ensures r.Ok? ==> forall i | 0 <= i < |names| :: r.value[i] == disk.secure(names[i])
  {
    if names == [] then Ok([])
    else match disk.save(disk.secure(names[0]))
      case Raise(e) => Err(e)
      case Pass =>
        match SaveAll(disk, names[1..])
        case Err(e) => Err(e)
        case Ok(rest) => Ok([disk.secure(names[0])] + rest)
  }

  /** The save loop succeeds exactly when no save raises, and otherwise
      fails with the error of the first one that does. */
  lemma {:induction false} SaveAllFirstError(disk: Disk, names: seq<string>)
    ensures SaveAll(disk, names).Ok? <==>
              forall i | 0 <= i < |names| :: disk.save(disk.secure(names[i])).Pass?
    ensures SaveAll(disk, names).Err? ==> exists i | 0 <= i < |names| ::
              && disk.save(disk.secure(names[i])) == Raise(SaveAll(disk, names).error)
              && forall j | 0 <= j < i :: disk.save(disk.secure(names[j])).Pass?
  {
    if names != [] {
      SaveAllFirstError(disk, names[1..]);
      forall i | 1 <= i < |names| ensures names[i] == names[1..][i - 1] { }
      if disk.save(disk.secure(names[0])).Pass? && SaveAll(disk, names[1..]).Err? {
        var i :| 0 <= i < |names[1..]|
          && disk.save(disk.secure(names[1..][i])) == Raise(SaveAll(disk, names[1..]).error)
          && forall j | 0 <= j < i :: disk.save(disk.secure(names[1..][j])).Pass?;
        assert forall j | 0 <= j < i + 1 :: disk.save(disk.secure(names[j])).Pass? by {
          forall j | 0 <= j < i + 1 ensures disk.save(disk.secure(names[j])).Pass? {
            if j > 0 { assert names[j] == names[1..][j - 1]; }
          }
        }
        assert names[i + 1] == names[1..][i];
      }
    }
  }

  /** What `upload_file` answers on success. */
  datatype Uploaded = Uploaded(files: seq<string>, message: string)

  /** `upload_file`. Without a `files` field, when a save raises, or when no
      part is accepted, the processor is left alone. Otherwise a new
      processor replaces the old one before it is initialised, so it stays
      in place whatever `initialize` answers. */
  function UploadFile(env: Env, disk: Disk, s: Service, files: Option<seq<string>>): (r: Handled<Result<Uploaded>>)
    requires ServiceInv(s)
    ensures ServiceInv(r.service)
    ensures files.None? ==> r == Handled(Err("No file provided"), s)
    ensures files.Some? && AcceptedNames(files.value) == [] ==> r == Handled(Err("No valid files uploaded"), s)
    ensures files.Some? && SaveAll(disk, AcceptedNames(files.value)).Err? ==>
      r == Handled(Err(SaveAll(disk, AcceptedNames(files.value)).error), s)
    ensures files.Some? && AcceptedNames(files.value) != [] && SaveAll(disk, AcceptedNames(files.value)).Ok? && env.construct.Pass? ==>
      r.service == Service(Some(Batch.Initialize(env, Fresh).state))
    ensures r.service != s ==>
      && files.Some? && AcceptedNames(files.value) != [] && env.construct.Pass?
      && SaveAll(disk, AcceptedNames(files.value)).Ok?
      && r.service.processor == Some(Batch.Initialize(env, Fresh).state)
    ensures r.value.Ok? <==>
      && files.Some? && AcceptedNames(files.value) != []
      && SaveAll(disk, AcceptedNames(files.value)).Ok?
      && env.construct.Pass? && Batch.Initialize(env, Fresh).value == Ok(true)
    ensures r.value.Ok? ==>
      && r.value.value.files == SaveAll(disk, AcceptedNames(files.value)).value
      && r.value.value.message == "Successfully uploaded " + NatToString(|AcceptedNames(files.value)|) + " file(s)"
  {
    match files
    case None => Handled(Err("No file provided"), s)
    case Some(names) =>
      var accepted := AcceptedNames(names);
      match SaveAll(disk, accepted)
      case Err(e) => Handled(Err(e), s)
      case Ok(saved) =>
        if saved == [] then Handled(Err("No valid files uploaded"), s)
        else match env.construct
          case Raise(e) => Handled(Err(e), s)
          case Pass =>
            var init := Batch.Initialize(env, Fresh);
            var s' := Service(Some(init.state));
            match init.value
            case Err(e) => Handled(Err(e), s')
            case Ok(success) =>
              if !success then Handled(Err("Failed to process documents"), s')
              else Handled(Ok(Uploaded(saved, "Successfully uploaded " + NatToString(|saved|) + " file(s)")), s')
  }

  /** The JSON body of a query request: JSON `null`, or an object of
      strings. */
  datatype Body = NoBody | Json(fields: map<string, string>)

  /** The error Python raises on `None.get`. */
  const NoneGet: string := "'NoneType' object has no attribute 'get'"

  /** The question of a query body: its `question` field stripped, the empty
      string when the field is missing. A `null` body raises. */
  function Question(body: Body): (r: Result<string>)
    ensures body.NoBody? <==> r == Err(NoneGet)
    ensures body.Json? ==> r.Ok? && r.value == Strip(if "question" in body.fields then body.fields["question"] else "")
    ensures r.Ok? ==> (r.value == [] <==> "question" !in body.fields || AllSpace(body.fields["question"]))
  {
    match body
    case NoBody => Err(NoneGet)
    case Json(fields) =>
      var raw := if "question" in fields then fields["question"] else "";
      StripEmptyIff(raw);
      Ok(Strip(raw))
  }

  /** `query_documents`. The question is checked first; a service without
      a processor builds one and keeps it even when `initialize` fails;
      then the processor answers. */
  function QueryDocuments(env: Env, s: Service, body: Body): (r: Handled<QueryResult>)
    requires ServiceInv(s)
    ensures ServiceInv(r.service)
    ensures Question(body).Err? ==> r == Handled(Failed(NoneGet), s)
    ensures Question(body) == Ok([]) ==> r == Handled(Failed("No question provided"), s)
    ensures s.processor.Some? ==> r.service == s
    ensures s.processor.Some? && Question(body).Ok? && Question(body).value != [] ==>
      r.value == Batch.Query(env, s.processor.value, Question(body).value)
    ensures s.processor.None? && Question(body).Ok? && Question(body).value != [] ==>
      if env.construct.Raise? then r == Handled(Failed(env.construct.error), s)
      else
        var init := Batch.Initialize(env, Fresh);
        && r.service == Service(Some(init.state))
        && (init.value.Err? ==> r.value == Failed(init.value.error))
        && (init.value == Ok(false) ==> r.value == Failed(NotLoaded))
        && (init.value == Ok(true) ==> r.value == Batch.Query(env, init.state, Question(body).value))
    ensures r.value.Answered? ==> r.value.question != [] && r.service.processor.Some?
  {
    match Question(body)
    case Err(e) => Handled(Failed(e), s)
    case Ok(question) =>
      if question == [] then Handled(Failed("No question provided"), s)
      else match s.processor
        case Some(p) => Handled(Batch.Query(env, p, question), s)
        case None =>
          match env.construct
          case Raise(e) => Handled(Failed(e), s)
          case Pass =>
            var init := Batch.Initialize(env, Fresh);
            var s' := Service(Some(init.state));
            match init.value
            case Err(e) => Handled(Failed(e), s')
            case Ok(success) =>
              if !success then Handled(Failed(NotLoaded), s')
              else Handled(Batch.Query(env, init.state, question), s')
  }

  /** When the first query finds no file, the empty processor it built stays
      in place: every later query is refused as not loaded, whatever the
      folder then holds, until an upload replaces it. */
  lemma StuckAfterEmptyStart(env: Env, env2: Env, question: string, body2: Body)
    requires !AllSpace(question)
    requires env.construct.Pass? && !Batch.HasFiles(env)
    ensures var r := QueryDocuments(env, Start, Json(map["question" := question]));
      && r.value == Failed(NotLoaded)
      && r.service.processor.Some?
      && (Question(body2).Ok? && Question(body2).value != [] ==>
            QueryDocuments(env2, r.service, body2).value == Failed(NotLoaded))
  {
    var init := Batch.Initialize(env, Fresh);
    assert init.state.chains == [];
  }

  /** What `get_status` reports. */
  datatype Status = Status(initialized: bool, documents: nat, byType: Option<ByKind<nat>>)

  /** `get_status`: the total number of chunks and the count per kind once a
      processor exists. */
  function GetStatus(s: Service): (r: Status)
    ensures r.initialized <==> s.processor.Some?
    ensures r.byType.Some? <==> s.processor.Some?
    ensures r.byType.Some? ==> forall k :: r.byType.value.Get(k) == |s.processor.value.documents.Get(k)|
    ensures s.processor.Some? ==> r.documents == Sum(DocumentCount(s.processor.value))
    ensures r.documents == 0 <==> s.processor.None? || forall k :: s.processor.value.documents.Get(k) == []
  {
    match s.processor
    case None => Status(false, 0, None)
    case Some(p) =>
      var counts := DocumentCount(p);
      Status(true, Sum(counts), Some(counts))
  }
}
