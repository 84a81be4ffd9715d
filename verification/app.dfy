/** The Flask app around the incremental processor (app.py): the upload
    handler's filename checks and partition, the lazily initialised global
    processor, and the question checks of the query handler. */
module App {
  import opened Results
  import opened Text
  import opened Kinds
  import opened Corpus
  import Incremental

  /** The upload oracles: `secure_filename`, and `file.save` into the upload
      folder under the secured name, which may raise. */
  datatype Disk = Disk(secure: string -> string, save: string -> Outcome)

  /** `uploaded_files` and `errors` after the upload loop. */
  datatype Partition = Partition(uploaded: seq<string>, errors: seq<string>)

  /** The number of uploaded parts with a non-empty file name. */
  function Named(names: seq<string>): nat
  {
    if names == [] then 0 else (if names[0] != "" then 1 else 0) + Named(names[1..])
  }

  lemma {:induction false} NamedZero(names: seq<string>)
    ensures Named(names) == 0 <==> forall i | 0 <= i < |names| :: names[i] == ""
  {
    if names != [] {
      NamedZero(names[1..]);
      if Named(names) == 0 {
        forall i | 0 <= i < |names| ensures names[i] == "" {
          if i > 0 { assert names[i] == names[1..][i - 1]; }
        }
      }
    }
  }

  /** What one part of the loop leaves behind: nothing for an empty name,
      an error for a disallowed one or one whose save raised, and the
      secured name for a saved one. */
  function Dispose(disk: Disk, name: string): (r: Partition)
    ensures r.uploaded == (if Saves(disk, name) then [disk.secure(name)] else [])
    ensures |r.uploaded| + |r.errors| == (if name == "" then 0 else 1)
    ensures name != "" && !AllowedFile(name) ==> r.errors == [name + ": Invalid file type"]
    ensures name != "" && AllowedFile(name) && disk.save(disk.secure(name)).Raise? ==>
      r.errors == [name + ": " + disk.save(disk.secure(name)).error]
  {
    if name == "" then Partition([], [])
    else if !AllowedFile(name) then Partition([], [name + ": Invalid file type"])
    else match disk.save(disk.secure(name))
      case Raise(e) => Partition([], [name + ": " + e])
      case Pass => Partition([disk.secure(name)], [])
  }

  /** A part the loop saves: a named, allowed file whose save under its
      secured name did not raise. */
  predicate Saves(disk: Disk, name: string) {
    name != "" && AllowedFile(name) && disk.save(disk.secure(name)).Pass?
  }

  /** The upload loop: each part is disposed of in order, and every named
      part lands in exactly one of the two lists; a single part is disposed
      of on its own. */
  function PartitionFiles(disk: Disk, names: seq<string>): (r: Partition)
    ensures |r.uploaded| + |r.errors| == Named(names)
    ensures |names| == 1 ==> r == Dispose(disk, names[0])
  {
    if names == [] then Partition([], [])
    else
      var d := Dispose(disk, names[0]);
      var rest := PartitionFiles(disk, names[1..]);
      Partition(d.uploaded + rest.uploaded, d.errors + rest.errors)
  }

  /** The loop keeps upload order: the parts of `a + b` leave `a`'s saved
      names and errors first, then `b`'s. */
  lemma PartitionFilesConcat(disk: Disk, a: seq<string>, b: seq<string>)
    ensures PartitionFiles(disk, a + b).uploaded == PartitionFiles(disk, a).uploaded + PartitionFiles(disk, b).uploaded
    ensures PartitionFiles(disk, a + b).errors == PartitionFiles(disk, a).errors + PartitionFiles(disk, b).errors
  {
    UploadedConcat(disk, a, b);
    ErrorsConcat(disk, a, b);
  }

  lemma {:induction false} UploadedConcat(disk: Disk, a: seq<string>, b: seq<string>)
    ensures PartitionFiles(disk, a + b).uploaded == PartitionFiles(disk, a).uploaded + PartitionFiles(disk, b).uploaded
    decreases |a|
  {
    if a == [] {
      assert a + b == b;
    } else {
      assert (a + b)[0] == a[0] && (a + b)[1..] == a[1..] + b;
      UploadedConcat(disk, a[1..], b);
      var d, pa, pb := Dispose(disk, a[0]).uploaded, PartitionFiles(disk, a[1..]).uploaded, PartitionFiles(disk, b).uploaded;
      assert d + (pa + pb) == (d + pa) + pb;
    }
  }

  lemma {:induction false} ErrorsConcat(disk: Disk, a: seq<string>, b: seq<string>)
    ensures PartitionFiles(disk, a + b).errors == PartitionFiles(disk, a).errors + PartitionFiles(disk, b).errors
    decreases |a|
  {
    if a == [] {
      assert a + b == b;
    } else {
      assert (a + b)[0] == a[0] && (a + b)[1..] == a[1..] + b;
      ErrorsConcat(disk, a[1..], b);
      var d, pa, pb := Dispose(disk, a[0]).errors, PartitionFiles(disk, a[1..]).errors, PartitionFiles(disk, b).errors;
      assert d + (pa + pb) == (d + pa) + pb;
    }
  }

  /** Every part that saves is uploaded under its secured name. */
  lemma {:induction false} PartitionUploadsEverySaved(disk: Disk, names: seq<string>)
    ensures forall i | 0 <= i < |names| && Saves(disk, names[i]) ::
              disk.secure(names[i]) in PartitionFiles(disk, names).uploaded
  {
    if names != [] {
      PartitionUploadsEverySaved(disk, names[1..]);
      forall i | 1 <= i < |names| ensures names[i] == names[1..][i - 1] { }
    }
  }

  /** Every allowed part whose save raised is reported with the exception's
      text after its name. */
  lemma {:induction false} PartitionReportsSaveErrors(disk: Disk, names: seq<string>)
    ensures forall i | 0 <= i < |names| && names[i] != "" && AllowedFile(names[i]) && disk.save(disk.secure(names[i])).Raise? ::
              names[i] + ": " + disk.save(disk.secure(names[i])).error in PartitionFiles(disk, names).errors
  {
    if names != [] {
      PartitionReportsSaveErrors(disk, names[1..]);
      forall i | 1 <= i < |names| ensures names[i] == names[1..][i - 1] { }
    }
  }

  /** Every named part with a disallowed extension is reported as an
      invalid file type. */
  lemma {:induction false} PartitionReportsInvalid(disk: Disk, names: seq<string>)
    ensures forall i | 0 <= i < |names| && names[i] != "" && !AllowedFile(names[i]) ::
              names[i] + ": Invalid file type" in PartitionFiles(disk, names).errors
  {
    if names != [] {
      PartitionReportsInvalid(disk, names[1..]);
      forall i | 1 <= i < |names| ensures names[i] == names[1..][i - 1] { }
    }
  }

  /** Every uploaded name is the secured name of a part that was saved. */
  lemma {:induction false} PartitionUploadsSaved(disk: Disk, names: seq<string>)
    ensures forall x | x in PartitionFiles(disk, names).uploaded ::
              exists i | 0 <= i < |names| :: Saves(disk, names[i]) && x == disk.secure(names[i])
  {
    if names != [] {
      PartitionUploadsSaved(disk, names[1..]);
      forall x | x in PartitionFiles(disk, names).uploaded
        ensures exists i | 0 <= i < |names| :: Saves(disk, names[i]) && x == disk.secure(names[i])
      {
        if x in Dispose(disk, names[0]).uploaded {
          assert Saves(disk, names[0]) && x == disk.secure(names[0]);
        } else {
          var j :| 0 <= j < |names[1..]| && Saves(disk, names[1..][j]) && x == disk.secure(names[1..][j]);
          assert names[j + 1] == names[1..][j];
        }
      }
    }
  }

  /** Nothing is uploaded exactly when no part saves. */
  lemma {:induction false} PartitionNothingUploaded(disk: Disk, names: seq<string>)
    ensures PartitionFiles(disk, names).uploaded == [] <==>
              forall i | 0 <= i < |names| :: !Saves(disk, names[i])
  {
    if names != [] {
      PartitionNothingUploaded(disk, names[1..]);
      forall i | 1 <= i < |names| ensures names[i] == names[1..][i - 1] { }
      assert Dispose(disk, names[0]).uploaded == [] <==> !Saves(disk, names[0]);
    }
  }

  /** The success message: the number of saved files, followed by the
      number of failures and their joined errors only when some failed. */
  function SuccessMessage(uploaded: nat, errors: seq<string>): (m: string)
    ensures |m| >= 30 + |NatToString(uploaded)|
    ensures m[..22] == "Successfully uploaded "
    ensures m[22..22 + |NatToString(uploaded)|] == NatToString(uploaded)
    ensures m[22 + |NatToString(uploaded)|..30 + |NatToString(uploaded)|] == " file(s)"
    ensures |m| == 30 + |NatToString(uploaded)| <==> errors == []
    ensures errors != [] ==>
      (var h, f := 30 + |NatToString(uploaded)|, ". " + NatToString(|errors|) + " file(s) failed: ";
       h + |f| <= |m| && m[h..h + |f|] == f)
    ensures errors != [] ==>
      |m| == 30 + |NatToString(uploaded)| + |". " + NatToString(|errors|) + " file(s) failed: "| + |Join("; ", errors)|
    ensures errors != [] ==> var j := Join("; ", errors); |j| <= |m| && m[|m| - |j|..] == j
  {
    var n := NatToString(uploaded);
    var head := "Successfully uploaded " + n + " file(s)";
    MessageHead(n, "");
    if errors == [] then head
    else
      var f := ". " + NatToString(|errors|) + " file(s) failed: ";
      MessageHead(n, f + Join("; ", errors));
      MessageTail(head, f, Join("; ", errors));
      head + f + Join("; ", errors)
  }

  lemma MessageHead(n: string, rest: string)
    ensures var m := "Successfully uploaded " + n + " file(s)" + rest;
      && |m| == 30 + |n| + |rest|
      && m[..22] == "Successfully uploaded "
      && m[22..22 + |n|] == n
      && m[22 + |n|..30 + |n|] == " file(s)"
      && m[30 + |n|..] == rest
  {
  }

  lemma MessageTail(head: string, f: string, j: string)
    ensures var m := head + f + j;
      && m[|head|..|head| + |f|] == f
      && m[|m| - |j|..] == j
  {
  }

  /** The count in the success message reads back as the number of files
      uploaded. */
  lemma SuccessMessageCount(uploaded: nat, errors: seq<string>)
    ensures ParseDigits(SuccessMessage(uploaded, errors)[22..22 + |NatToString(uploaded)|]) == uploaded
  {
    ParseNatToString(uploaded);
  }

  /** The module globals `doc_processor` and `processor_initialized`. */
  datatype App = App(processor: Option<Processor>, initialized: bool)

  const Start: App := App(None, false)

  /** A flagged app has a processor, and every processor keeps the
      incremental variant's invariant. */
  predicate AppInv(a: App) {
    && (a.processor.Some? ==> Incremental.Inv(a.processor.value))
    && (a.initialized ==> a.processor.Some?)
  }

  /** A handler's reply and the globals it leaves. */
  datatype Handled<T> = Handled(value: T, app: App)

  /** `initialize_processor`: once initialised it answers `True` at once;
      otherwise a fresh processor is built and initialised and the flag
      becomes the result. A constructor exception answers `False` and
      leaves both globals alone. */
  function InitializeProcessor(env: Env, a: App): (r: Handled<bool>)
    requires AppInv(a)
    ensures AppInv(r.app)
    ensures a.initialized ==> r == Handled(true, a)
    ensures !a.initialized && env.construct.Raise? ==> r == Handled(false, a)
    ensures !a.initialized && env.construct.Pass? ==>
      && r.app.processor == Some(Incremental.Initialize(env, Fresh).state)
      && r.app.initialized == r.value
    ensures r.value <==> r.app.initialized
  {
    if a.initialized then Handled(true, a)
    else match env.construct
      case Raise(_) => Handled(false, a)
      case Pass =>
        Incremental.FreshInv();
        var s := Incremental.Initialize(env, Fresh);
        Handled(s.value, App(Some(s.state), s.value))
  }

  /** Once initialised, the app stays initialised and its processor is
      never rebuilt by `initialize_processor`. */
  lemma InitializeOnce(env: Env, env2: Env, a: App)
    requires AppInv(a)
    ensures var r := InitializeProcessor(env, a);
            r.value ==> InitializeProcessor(env2, r.app) == Handled(true, r.app)
  {
  }

  /** What `upload_file` answers on success. */
  datatype Uploaded = Uploaded(message: string, uploaded: seq<string>, counts: ByKind<nat>)

  /** `upload_file`. A request without a `files` field, or whose names are
      all empty, is refused before anything is saved; a request that saved
      nothing is refused with the joined errors; otherwise the processor is
      rebuilt from the upload folder and the flag set to the result. */
  function UploadFile(env: Env, disk: Disk, a: App, files: Option<seq<string>>): (r: Handled<Result<Uploaded>>)
    requires AppInv(a)
    ensures AppInv(r.app)
    ensures files.None? ==> r == Handled(Err("No files provided"), a)
    ensures files.Some? && Named(files.value) == 0 ==> r == Handled(Err("No files selected"), a)
    ensures files.Some? && Named(files.value) > 0 && PartitionFiles(disk, files.value).uploaded == [] ==>
      r == Handled(Err("No files were uploaded. " + Join("; ", PartitionFiles(disk, files.value).errors)), a)
    ensures r.value.Ok? ==>
      && files.Some?
      && var part := PartitionFiles(disk, files.value);
      && r.value.value.uploaded == part.uploaded != []
      && r.value.value.message == SuccessMessage(|part.uploaded|, part.errors)
      && r.app.initialized
      && r.value.value.counts == DocumentCount(r.app.processor.value)
    ensures files.Some? && PartitionFiles(disk, files.value).uploaded != [] && env.construct.Pass? ==>
      r.app == App(Some(Incremental.Initialize(env, Fresh).state), Incremental.Initialize(env, Fresh).value)
    ensures files.Some? && PartitionFiles(disk, files.value).uploaded != [] && env.construct.Raise? ==>
      r == Handled(Err("Upload failed: " + env.construct.error), a)
    ensures files.Some? && PartitionFiles(disk, files.value).uploaded != [] && env.construct.Pass?
            && !Incremental.Initialize(env, Fresh).value ==>
      r.value == Err("Files uploaded but failed to process documents")
    ensures r.value.Ok? <==>
      && files.Some? && PartitionFiles(disk, files.value).uploaded != []
      && env.construct.Pass? && Incremental.Initialize(env, Fresh).value
  {
    match files
    case None => Handled(Err("No files provided"), a)
    case Some(names) =>
      NamedZero(names);
      if Named(names) == 0 then Handled(Err("No files selected"), a)
      else
        var part := PartitionFiles(disk, names);
        if part.uploaded == [] then
          Handled(Err("No files were uploaded. " + Join("; ", part.errors)), a)
        else match env.construct
          case Raise(e) => Handled(Err("Upload failed: " + e), a)
          case Pass =>
            Incremental.FreshInv();
            var s := Incremental.Initialize(env, Fresh);
            var a' := App(Some(s.state), s.value);
            if s.value then
              Handled(Ok(Uploaded(SuccessMessage(|part.uploaded|, part.errors), part.uploaded,
                                  DocumentCount(s.state))), a')
            else Handled(Err("Files uploaded but failed to process documents"), a')
  }

  /** The JSON body of a query request, when it is an object of strings. */
  datatype Body = NoBody | Json(fields: map<string, string>)

  /** The question checks of `query`: a missing or empty body, or one
      without `question`, is refused; the question is stripped and refused
      when nothing is left. */
  function ValidateQuestion(body: Body): (r: Result<string>)
    ensures r.Ok? <==> body.Json? && "question" in body.fields && !AllSpace(body.fields["question"])
    ensures r.Ok? ==> r.value == Strip(body.fields["question"]) && r.value != []
    ensures body.NoBody? || "question" !in body.fields ==> r == Err("No question provided")
    ensures body.Json? && "question" in body.fields && AllSpace(body.fields["question"]) ==>
      r == Err("Question cannot be empty")
  {
    match body
    case NoBody => Err("No question provided")
    case Json(fields) =>
      if fields == map[] || "question" !in fields then Err("No question provided")
      else
        var q := Strip(fields["question"]);
        StripEmptyIff(fields["question"]);
        if q == [] then Err("Question cannot be empty") else Ok(q)
  }

  const NotInitialized: string := "System not initialized. Please upload documents first."

  /** `query`: an app not yet initialised tries once; if it is still not
      initialised the request is refused before the body is read; then the
      question is checked and handed to the processor. */
  function HandleQuery(env: Env, a: App, body: Body): (r: Handled<QueryResult>)
    requires AppInv(a)
    ensures AppInv(r.app)
    ensures var b := if a.initialized then a else InitializeProcessor(env, a).app;
      && (!b.initialized ==> r == Handled(Failed(NotInitialized), b))
      && (b.initialized && ValidateQuestion(body).Err? ==> r == Handled(Failed(ValidateQuestion(body).error), b))
      && (b.initialized && ValidateQuestion(body).Ok? ==>
            var q := Incremental.Query(env, b.processor.value, ValidateQuestion(body).value);
            r == Handled(q.value, b.(processor := Some(q.state))))
    ensures r.value.Answered? ==> r.value.question != [] && r.app.initialized
  {
    var b := if a.initialized then a else InitializeProcessor(env, a).app;
    if !b.initialized then Handled(Failed(NotInitialized), b)
    else match ValidateQuestion(body)
      case Err(e) => Handled(Failed(e), b)
      case Ok(question) =>
        var q := Incremental.Query(env, b.processor.value, question);
        Handled(q.value, b.(processor := Some(q.state)))
  }

  /** A query to an app that cannot initialise is refused with the same
      message whatever it asks, and initialisation is tried again on the
      next query. */
  lemma RefusedUntilInitialized(env: Env, a: App, body: Body)
    requires AppInv(a) && !a.initialized
    requires env.construct.Raise? || !Incremental.Initialize(env, Fresh).value
    ensures HandleQuery(env, a, body).value == Failed(NotInitialized)
    ensures !HandleQuery(env, a, body).app.initialized
  {
  }

  /** An answered query was routed to one of the processor's chains. */
  lemma AnsweredFromAChain(env: Env, a: App, body: Body)
    requires AppInv(a) && a.initialized
    ensures var r := HandleQuery(env, a, body);
            r.value.Answered? ==> r.value.docType in a.processor.value.chains
  {
  }

  /** `status`: an app not initialised reports no documents of any kind,
      whatever processor it holds; an initialised one reports its
      processor's counts. */
  function Status(a: App): (r: (bool, ByKind<nat>))
    requires AppInv(a)
    ensures r.0 <==> a.initialized
    ensures !r.0 ==> forall k :: r.1.Get(k) == 0
    ensures r.0 ==> forall k :: r.1.Get(k) == |a.processor.value.documents.Get(k)|
  {
    if !a.initialized then (false, NoCounts) else (true, DocumentCount(a.processor.value))
  }

  /** `initialize_endpoint`: `initialize_processor`, answered with the
      document counts when it succeeds. */
  function InitializeEndpoint(env: Env, a: App): (r: Handled<Result<ByKind<nat>>>)
    requires AppInv(a)
    ensures AppInv(r.app)
    ensures r.value.Ok? <==> r.app.initialized
    ensures r.value.Ok? ==> r.value.value == DocumentCount(r.app.processor.value)
    ensures r.value.Err? ==> r.value.error == "Failed to initialize system"
    ensures r.app == InitializeProcessor(env, a).app
  {
    var i := InitializeProcessor(env, a);
    if i.value then Handled(Ok(DocumentCount(i.app.processor.value)), i.app)
    else Handled(Err("Failed to initialize system"), i.app)
  }
}
