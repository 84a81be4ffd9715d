/** The three document kinds, how a file's kind is read off its name, and
    the `{'pdf': …, 'docx': …, 'csv': …}` records kept per kind. */
module Kinds {
  import opened Results
  import opened Text
  import opened Sequences

  datatype Kind = Pdf | Docx | Csv

  /** The order of the keys of `documents_by_type`, and the order in which
      files of each kind are loaded. */
  const Order: seq<Kind> := [Pdf, Docx, Csv]

  /** The extension loop visits every kind, each exactly once. */
  lemma EveryKindInOrder()
    ensures forall k :: k in Order
    ensures Distinct(Order)
  {
    forall k ensures k in Order {
      match k
      case Pdf => assert Order[0] == k;
      case Docx => assert Order[1] == k;
      case Csv => assert Order[2] == k;
    }
  }

  /** The dictionary key (and file extension) of a kind. */
  function Name(k: Kind): string {
    match k
    case Pdf => "pdf"
    case Docx => "docx"
    case Csv => "csv"
  }

  /** `ALLOWED_EXTENSIONS`. */
  const Extensions: set<string> := {"pdf", "docx", "csv"}

  /** The kind a dictionary key names, if any. */
  function ParseKind(s: string): (r: Option<Kind>)
    ensures r.Some? <==> s in Extensions
    ensures r.Some? ==> Name(r.value) == s
    ensures forall k :: Name(k) == s ==> r == Some(k)
  {
    if s == "pdf" then Some(Pdf)
    else if s == "docx" then Some(Docx)
    else if s == "csv" then Some(Csv)
    else None
  }

  /** `filepath.split('.')[-1].lower()`: the lower-cased text after the last
      dot, or the whole name lower-cased when it has no dot. */
  function Extension(path: string): string {
    Lower(AfterLast(path, '.'))
  }

  /** The kind `_get_loader_for_file` resolves a path to; `None` is the
      `ValueError` for an unsupported extension. */
  function ResolveKind(path: string): (r: Option<Kind>)
    ensures r.Some? <==> Extension(path) in Extensions
    ensures r.Some? ==> Name(r.value) == Extension(path)
    ensures forall k :: Name(k) == Extension(path) ==> r == Some(k)
  {
    ParseKind(Extension(path))
  }

  /** `allowed_file`, the same in both apps: the name has a dot and the
      lower-cased text after its last dot is an allowed extension. */
  function AllowedFile(name: string): (ok: bool)
    ensures ok <==> '.' in name && ResolveKind(name).Some?
    ensures ok ==> Name(ResolveKind(name).value) == Lower(AfterLast(name, '.'))
  {
    '.' in name && Extension(name) in Extensions
  }

  /** A name without a dot is refused by the upload check, while inside the
      processor it resolves as if the whole name were its extension: the
      bare name `pdf` is a pdf there. */
  lemma DotlessRefused(name: string)
    requires '.' !in name
    ensures !AllowedFile(name)
    ensures ResolveKind(name) == ParseKind(Lower(name))
  {
    AfterLastNoSeparator(name, '.');
  }

  /** A path ending in `.` and a kind's extension, as every match of the glob
      `*.pdf`, `*.docx` or `*.csv` does, resolves to that kind. */
  lemma ResolveMatch(path: string, k: Kind)
    requires |Name(k)| < |path| && path[|path| - |Name(k)| - 1..] == "." + Name(k)
    ensures ResolveKind(path) == Some(k)
  {
    assert '.' !in Name(k) && Lower(Name(k)) == Name(k) by {
      match k
      case Pdf =>
      case Docx =>
      case Csv =>
    }
    AfterLastSuffix(path, '.', Name(k));
  }

  /** The `k` of a kind's retriever: more, shorter rows for tabular data. */
  function TopK(k: Kind): (n: nat)
    ensures n == 5 || n == 10
    ensures n == 10 <==> Name(k) == "csv"
  {
    if k == Csv then 10 else 5
  }

  /** A Python dict with exactly the keys `'pdf'`, `'docx'` and `'csv'`. */
  datatype ByKind<T> = ByKind(pdf: T, docx: T, csv: T) {

    function Get(k: Kind): T {
      match k
      case Pdf => pdf
      case Docx => docx
      case Csv => csv
    }

    /** `d[k] = v`: the entry for `k` is replaced and the others are kept. */
    function Set(k: Kind, v: T): (r: ByKind<T>)
      ensures r.Get(k) == v
      ensures forall j :: j != k ==> r.Get(j) == Get(j)
    {
      match k
      case Pdf => this.(pdf := v)
      case Docx => this.(docx := v)
      case Csv => this.(csv := v)
    }
  }

  /** `{'pdf': 0, 'docx': 0, 'csv': 0}`. */
  const NoCounts: ByKind<nat> := ByKind(0, 0, 0)

  /** `sum(counts.values())`. */
  function Sum(c: ByKind<nat>): (n: nat)
    ensures n == c.Get(Pdf) + c.Get(Docx) + c.Get(Csv)
    ensures n == 0 <==> forall k :: c.Get(k) == 0
  {
    assert c.Get(Pdf) == c.pdf && c.Get(Docx) == c.docx && c.Get(Csv) == c.csv;
    c.pdf + c.docx + c.csv
  }
}
