/** The two PDF parsers: rezumat/preprocessing/parsers/pdf_parser.py (`parse_pdf`, which
    maps pypdf's outcomes to a page list or "", and `process_pdfs`, which parses every
    `*.pdf` of a folder and joins each CV's pages) and the module-level script of
    resume-evaluator/src/preprocessing/parsers/pdf_parser.py, which does the same
    without error handling.  Text extraction is foreign: what pypdf makes of a file is
    a `ParseOutcome`.  The thread pool's completion order is nondeterministic: it is
    the `completion` argument, a schedule visiting every listed PDF once. */
module PdfParser {
  import opened Wrappers
  import opened PyText
  import opened PyJson

  /** What pypdf makes of one path. */
  datatype ParseOutcome =
    | Missing                   // the path does not exist
    | EmptyFile                 // `EmptyFileError`
    | Corrupt(message: string)  // any other exception, with its `str(e)`
    | Pages(pages: seq<string>) // `page.extract_text()` for every page

  /** What `parse_pdf` returns: a list of page texts, or the empty string. */
  datatype PdfText = PageList(pages: seq<string>) | EmptyText

  /** `parse_pdf(file_path)`: a missing file raises before any parsing; an empty or
      unreadable file yields ""; otherwise one string per page. */
  function ParsePdf(path: string, outcome: ParseOutcome): (r: Result<PdfText, PyError>)
    ensures r.Err? <==> outcome.Missing?
    ensures r.Err? ==> r.error == FileNotFoundError("File not found: " + path)
    ensures (outcome.EmptyFile? || outcome.Corrupt?) ==> r == Ok(EmptyText)
    ensures outcome.Pages? ==> r == Ok(PageList(outcome.pages))
  {
    match outcome
    case Missing => Err(FileNotFoundError("File not found: " + path))
    case EmptyFile => Ok(EmptyText)
    case Corrupt(_) => Ok(EmptyText)
    case Pages(ps) => Ok(PageList(ps))
  }

  /** The lines `parse_pdf` logs: the missing path, or the parse error it swallowed. */
  function ParseLog(path: string, outcome: ParseOutcome): (r: seq<string>)
    ensures |r| <= 1
    ensures r != [] <==> outcome.Missing? || outcome.Corrupt?
  {
    match outcome
    case Missing => ["File not found: " + path]
    case Corrupt(e) => ["Error parsing PDF: " + e]
    case _ => []
  }

  /** Whether `cv[0]` succeeds on what the parser produced for this outcome. */
  predicate Joinable(outcome: ParseOutcome) {
    outcome.Pages? && |outcome.pages| >= 1
  }

  /** `" ".join(cv) if len(cv) > 1 else cv[0]`: several pages are joined with one
      space, a single page is kept as it is, and `cv[0]` fails on "" and on []. */
  function JoinCv(cv: PdfText): (r: Result<string, PyError>)
    ensures r.Ok? <==> cv.PageList? && |cv.pages| >= 1
    ensures cv.EmptyText? ==> r == Err(IndexError("string index out of range"))
    ensures cv.PageList? && cv.pages == [] ==> r == Err(IndexError("list index out of range"))
    ensures r.Ok? ==> r.value == Join(" ", cv.pages)
  {
    match cv
    case EmptyText => Err(IndexError("string index out of range"))
    case PageList(ps) =>
      if |ps| > 1 then Ok(Join(" ", ps))
      else if |ps| == 1 then Ok(ps[0])
      else Err(IndexError("list index out of range"))
  }

  function TotalLength(ps: seq<string>): nat
    decreases |ps|
  {
    if ps == [] then 0 else |ps[0]| + TotalLength(ps[1..])
  }

  /** Joining keeps every character of every page and adds one space between pages. */
  lemma {:induction false} JoinLength(ps: seq<string>)
    requires ps != []
    ensures |Join(" ", ps)| == TotalLength(ps) + |ps| - 1
    decreases |ps|
  {
    if |ps| > 1 {
      JoinLength(ps[1..]);
    } else {
      assert ps[1..] == [];
    }
  }

  /** The first page opens the joined text, followed by a space when more pages follow. */
  lemma JoinStartsWithFirstPage(ps: seq<string>)
    requires ps != []
    ensures ps[0] <= Join(" ", ps)
    ensures |ps| > 1 ==> Join(" ", ps)[|ps[0]|] == ' '
  {
  }

  // ---------------------------------------------------------------------------
  // Listing the folder

  /** How `process_pdfs` was given its folder. */
  const NoGlob := "'str' object has no attribute 'glob'"

  datatype PathArg = StrPath(s: string) | PathObj(p: string)

  /** The folder that `for file in pdf_path.glob("*.pdf")` lists, as written: only a
      `Path` has `glob`, so a `str` argument raises although the signature admits it. */
  function GlobRootAsWritten(arg: PathArg): (r: Result<string, PyError>)
    ensures r.Err? <==> arg.StrPath?
  {
    match arg
    case StrPath(_) => Err(AttributeError(NoGlob))
    case PathObj(p) => Ok(p)
  }

  /** The entries `glob("*.pdf")` yields, in listing order: path and parse outcome. */
  function PdfEntries(listing: seq<(string, ParseOutcome)>): (r: seq<(string, ParseOutcome)>)
    ensures |r| <= |listing|
    ensures forall i :: 0 <= i < |r| ==> r[i] in listing && EndsWith(r[i].0, ".pdf")
    ensures forall e :: e in listing && EndsWith(e.0, ".pdf") ==> e in r
    decreases |listing|
  {
    if listing == [] then []
    else
      var rest := PdfEntries(listing[1..]);
      assert forall e :: e in listing[1..] ==> e in listing;
      if EndsWith(listing[0].0, ".pdf") then [listing[0]] + rest else rest
  }

  /** `as_completed` yields every submitted future exactly once: `completion[k]` is
      the listing position of the k-th PDF to finish. */
  predicate IsSchedule(completion: seq<nat>, n: nat) {
    |completion| == n &&
    (forall k :: 0 <= k < |completion| ==> completion[k] < n) &&
    (forall i :: 0 <= i < n ==> i in completion)
  }

  predicate AllJoinable(pdfs: seq<(string, ParseOutcome)>) {
    forall i :: 0 <= i < |pdfs| ==> Joinable(pdfs[i].1)
  }

  predicate AnyMissing(pdfs: seq<(string, ParseOutcome)>) {
    exists i :: 0 <= i < |pdfs| && pdfs[i].1.Missing?
  }

  /** One text per PDF, in completion order, each the PDF's pages joined with spaces. */
  predicate JoinedInOrder(texts: seq<string>, pdfs: seq<(string, ParseOutcome)>, completion: seq<nat>)
    requires IsSchedule(completion, |pdfs|)
  {
    |texts| == |pdfs| &&
    forall k :: 0 <= k < |pdfs| ==> pdfs[completion[k]].1.Pages? && texts[k] == Join(" ", pdfs[completion[k]].1.pages)
  }

  /** What holds at every completion step holds for every PDF, since each is scheduled. */
  lemma ScheduledAllJoinable(pdfs: seq<(string, ParseOutcome)>, completion: seq<nat>)
    requires IsSchedule(completion, |pdfs|)
    requires forall k :: 0 <= k < |completion| ==> Joinable(pdfs[completion[k]].1)
    ensures AllJoinable(pdfs)
  {
    forall i | 0 <= i < |pdfs|
      ensures Joinable(pdfs[i].1)
    {
      assert i in completion;
      var k :| 0 <= k < |completion| && completion[k] == i;
    }
  }

  lemma ScheduledNoneMissing(pdfs: seq<(string, ParseOutcome)>, completion: seq<nat>)
    requires IsSchedule(completion, |pdfs|)
    requires forall k :: 0 <= k < |completion| ==> !pdfs[completion[k]].1.Missing?
    ensures !AnyMissing(pdfs)
  {
    forall i | 0 <= i < |pdfs|
      ensures !pdfs[i].1.Missing?
    {
      assert i in completion;
      var k :| 0 <= k < |completion| && completion[k] == i;
    }
  }

  /** The PDFs in the order their parse jobs finish. */
  function InCompletionOrder(pdfs: seq<(string, ParseOutcome)>, completion: seq<nat>): (r: seq<(string, ParseOutcome)>)
    requires IsSchedule(completion, |pdfs|)
    ensures |r| == |pdfs| && forall k :: 0 <= k < |r| ==> r[k] == pdfs[completion[k]]
  {
    seq(|completion|, k requires 0 <= k < |completion| => pdfs[completion[k]])
  }

  /** The collecting loop: `parse_pdf` of each finished job, in turn; the first
      exception propagates. */
  function ParseAll(files: seq<(string, ParseOutcome)>): Result<seq<PdfText>, PyError>
    decreases |files|
  {
    if files == [] then Ok([])
    else
      var cv :- ParsePdf(files[0].0, files[0].1);
      var rest :- ParseAll(files[1..]);
      Ok([cv] + rest)
  }

  /** The closing list comprehension: each CV's pages joined; the first `cv[0]` that
      fails propagates. */
  function JoinAll(cvs: seq<PdfText>): Result<seq<string>, PyError>
    decreases |cvs|
  {
    if cvs == [] then Ok([])
    else
      var text :- JoinCv(cvs[0]);
      var rest :- JoinAll(cvs[1..]);
      Ok([text] + rest)
  }

  /** What `process_pdfs` returns once the folder's PDFs `pdfs` are listed. */
  function PdfsResult(pdfs: seq<(string, ParseOutcome)>, completion: seq<nat>): Result<seq<string>, PyError>
    requires IsSchedule(completion, |pdfs|)
  {
    var cvs :- ParseAll(InCompletionOrder(pdfs, completion));
    JoinAll(cvs)
  }

  /** `xs` put in front of a successful result; an error passes unchanged. */
  function Prefixed<T>(xs: seq<T>, r: Result<seq<T>, PyError>): Result<seq<T>, PyError> {
    if r.Ok? then Ok(xs + r.value) else r
  }

  lemma PrefixedEmpty<T>(r: Result<seq<T>, PyError>)
    ensures Prefixed([], r) == r
  {
    if r.Ok? {
      assert [] + r.value == r.value;
    }
  }

  lemma PrefixedStep<T>(xs: seq<T>, x: T, r: Result<seq<T>, PyError>)
    ensures Prefixed(xs, if r.Ok? then Ok([x] + r.value) else r) == Prefixed(xs + [x], r)
  {
    if r.Ok? {
      assert xs + ([x] + r.value) == xs + [x] + r.value;
    }
  }

  /** The collecting loop fails exactly on a missing file, with `FileNotFoundError`,
      and otherwise keeps what `parse_pdf` gave for each file, in order. */
  lemma {:induction false} ParseAllSpec(files: seq<(string, ParseOutcome)>)
    ensures ParseAll(files).Ok? <==> forall i :: 0 <= i < |files| ==> !files[i].1.Missing?
    ensures ParseAll(files).Err? ==> ParseAll(files).error.FileNotFoundError?
    ensures ParseAll(files).Ok? ==> (|ParseAll(files).value| == |files| &&
      forall i :: 0 <= i < |files| ==> Ok(ParseAll(files).value[i]) == ParsePdf(files[i].0, files[i].1))
    decreases |files|
  {
    if files != [] {
      ParseAllSpec(files[1..]);
      assert forall i :: 1 <= i < |files| ==> files[1..][i - 1] == files[i];
    }
  }

  /** The join fails exactly on a CV without pages, with `IndexError`, and otherwise
      gives each CV's pages joined with spaces, in order. */
  lemma {:induction false} JoinAllSpec(cvs: seq<PdfText>)
    ensures JoinAll(cvs).Ok? <==> forall i :: 0 <= i < |cvs| ==> cvs[i].PageList? && |cvs[i].pages| >= 1
    ensures JoinAll(cvs).Err? ==> JoinAll(cvs).error.IndexError?
    ensures JoinAll(cvs).Ok? ==> (|JoinAll(cvs).value| == |cvs| &&
      forall i :: 0 <= i < |cvs| ==> JoinAll(cvs).value[i] == Join(" ", cvs[i].pages))
    decreases |cvs|
  {
    if cvs != [] {
      JoinAllSpec(cvs[1..]);
      assert forall i :: 1 <= i < |cvs| ==> cvs[1..][i - 1] == cvs[i];
    }
  }

  /** The batch succeeds exactly when every PDF has a page, giving one joined text per
      PDF in completion order; a missing file fails it with `FileNotFoundError`, and an
      empty or unreadable PDF, whose error `parse_pdf` swallowed, with `IndexError`. */
  lemma PdfsResultSpec(pdfs: seq<(string, ParseOutcome)>, completion: seq<nat>)
    requires IsSchedule(completion, |pdfs|)
    ensures PdfsResult(pdfs, completion).Ok? <==> AllJoinable(pdfs)
    ensures PdfsResult(pdfs, completion).Ok? ==> JoinedInOrder(PdfsResult(pdfs, completion).value, pdfs, completion)
    ensures AnyMissing(pdfs) ==> PdfsResult(pdfs, completion).Err? && PdfsResult(pdfs, completion).error.FileNotFoundError?
    ensures !AnyMissing(pdfs) && PdfsResult(pdfs, completion).Err? ==> PdfsResult(pdfs, completion).error.IndexError?
  {
    var files := InCompletionOrder(pdfs, completion);
    ParseAllSpec(files);
    if AnyMissing(pdfs) {
      var i :| 0 <= i < |pdfs| && pdfs[i].1.Missing?;
      assert i in completion;
      var k :| 0 <= k < |completion| && completion[k] == i;
      assert files[k].1.Missing?;
    }
    if ParseAll(files).Ok? {
      var cvs := ParseAll(files).value;
      JoinAllSpec(cvs);
      assert forall k :: 0 <= k < |cvs| ==> (Joinable(files[k].1) <==> cvs[k].PageList? && |cvs[k].pages| >= 1);
      if JoinAll(cvs).Ok? {
        ScheduledAllJoinable(pdfs, completion);
      } else {
        var k :| 0 <= k < |cvs| && !(cvs[k].PageList? && |cvs[k].pages| >= 1);
        assert !Joinable(pdfs[completion[k]].1);
      }
    } else {
      var k :| 0 <= k < |files| && files[k].1.Missing?;
      assert !Joinable(pdfs[completion[k]].1);
    }
  }

  /** The two loops of `process_pdfs` once the folder is listed: parse every PDF as its
      job finishes, then join each CV's pages. */
  method ParseAndJoin(pdfs: seq<(string, ParseOutcome)>, completion: seq<nat>) returns (r: Result<seq<string>, PyError>)
    requires IsSchedule(completion, |pdfs|)
    ensures r == PdfsResult(pdfs, completion)
  {
    var files := InCompletionOrder(pdfs, completion);
    var cvData: seq<PdfText> := [];
    PrefixedEmpty(ParseAll(files));
    assert files[0..] == files;
    for k := 0 to |files|
      invariant ParseAll(files) == Prefixed(cvData, ParseAll(files[k..]))
    {
      assert files[k..][0] == files[k] && files[k..][1..] == files[k + 1..];
      var parsed := ParsePdf(files[k].0, files[k].1);
      if parsed.Err? {
        return Err(parsed.error);
      }
      PrefixedStep(cvData, parsed.value, ParseAll(files[k + 1..]));
      cvData := cvData + [parsed.value];
    }
    assert files[|files|..] == [];
    assert cvData + [] == cvData;
    assert ParseAll(files) == Ok(cvData);
    var joined: seq<string> := [];
    PrefixedEmpty(JoinAll(cvData));
    assert cvData[0..] == cvData;
    for k := 0 to |cvData|
      invariant JoinAll(cvData) == Prefixed(joined, JoinAll(cvData[k..]))
    {
      assert cvData[k..][0] == cvData[k] && cvData[k..][1..] == cvData[k + 1..];
      var cv := JoinCv(cvData[k]);
      if cv.Err? {
        return Err(cv.error);
      }
      PrefixedStep(joined, cv.value, JoinAll(cvData[k + 1..]));
      joined := joined + [cv.value];
    }
    assert cvData[|cvData|..] == [];
    assert joined + [] == joined;
    return Ok(joined);
  }

  /** `process_pdfs(pdf_path)` as written: the PDFs are listed with `pdf_path.glob`,
      so a folder given as a `str`, which the signature admits, raises before any PDF
      is parsed. */
  method ProcessPdfsAsWritten(folder: PathArg, listing: seq<(string, ParseOutcome)>, completion: seq<nat>)
      returns (r: Result<seq<string>, PyError>)
    requires IsSchedule(completion, |PdfEntries(listing)|)
    ensures folder.StrPath? ==> r == Err(AttributeError(NoGlob))
    ensures folder.PathObj? ==> r == PdfsResult(PdfEntries(listing), completion)
    ensures r.Ok? <==> folder.PathObj? && AllJoinable(PdfEntries(listing))
  {
    var root :- GlobRootAsWritten(folder);
    r := ParseAndJoin(PdfEntries(listing), completion);
    PdfsResultSpec(PdfEntries(listing), completion);
  }

  /** `process_pdfs(pdf_path)` with the PDFs listed through `Path(pdf_path)`, as the
      count on the line before does: the result depends on the folder's PDFs only, so
      a `str` and a `Path` naming the same folder give the same result. */
  method ProcessPdfs(folder: PathArg, listing: seq<(string, ParseOutcome)>, completion: seq<nat>)
      returns (r: Result<seq<string>, PyError>)
    requires IsSchedule(completion, |PdfEntries(listing)|)
    ensures r == PdfsResult(PdfEntries(listing), completion)
    ensures r.Ok? <==> AllJoinable(PdfEntries(listing))
    ensures r.Ok? ==> JoinedInOrder(r.value, PdfEntries(listing), completion)
    ensures AnyMissing(PdfEntries(listing)) ==> r.Err? && r.error.FileNotFoundError?
    ensures !AnyMissing(PdfEntries(listing)) && r.Err? ==> r.error.IndexError?
  {
    r := ParseAndJoin(PdfEntries(listing), completion);
    PdfsResultSpec(PdfEntries(listing), completion);
  }

  /** `process_pdf(file_path)` of the resume-evaluator script: pypdf's exceptions are
      not caught. */
  function ProcessPdf(path: string, outcome: ParseOutcome): (r: Result<seq<string>, PyError>)
    ensures r.Ok? <==> outcome.Pages?
    ensures r.Ok? ==> r.value == outcome.pages
    ensures outcome.Missing? ==> r.Err? && r.error.FileNotFoundError?
  {
    match outcome
    case Missing => Err(FileNotFoundError("[Errno 2] No such file or directory: '" + path + "'"))
    case EmptyFile => Err(PdfError("Cannot read an empty file"))
    case Corrupt(e) => Err(PdfError(e))
    case Pages(ps) => Ok(ps)
  }

  /** The resume-evaluator script: `cv_data` gets one page list per `*.pdf` under
      `data/resumes`, in completion order, and is then rebound to the joined texts;
      a zero-page PDF fails at `cv[0]`. */
  method LoadResumes(listing: seq<(string, ParseOutcome)>, completion: seq<nat>) returns (r: Result<seq<string>, PyError>)
    requires IsSchedule(completion, |PdfEntries(listing)|)
    ensures r.Ok? <==> AllJoinable(PdfEntries(listing))
    ensures r.Ok? ==> JoinedInOrder(r.value, PdfEntries(listing), completion)
  {
    var pdfs := PdfEntries(listing);
    var cvData: seq<seq<string>> := [];
    for k := 0 to |completion|
      invariant |cvData| == k
      invariant forall j :: 0 <= j < k ==> pdfs[completion[j]].1.Pages? && cvData[j] == pdfs[completion[j]].1.pages
    {
      var file := pdfs[completion[k]];
      var pages := ProcessPdf(file.0, file.1);
      if pages.Err? {
        assert !Joinable(file.1);
        return Err(pages.error);
      }
      cvData := cvData + [pages.value];
    }
    var joined: seq<string> := [];
    for k := 0 to |cvData|
      invariant |joined| == k
      invariant forall j :: 0 <= j < k ==> Joinable(pdfs[completion[j]].1) && joined[j] == Join(" ", pdfs[completion[j]].1.pages)
    {
      var cv := JoinCv(PageList(cvData[k]));
      if cv.Err? {
        assert !Joinable(pdfs[completion[k]].1);
        return Err(cv.error);
      }
      joined := joined + [cv.value];
    }
    ScheduledAllJoinable(pdfs, completion);
    return Ok(joined);
  }
}
