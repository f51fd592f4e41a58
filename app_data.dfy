/** The data side of resume-evaluator/src/app.py: reading the job evaluations back
    from the jobs output folder (`read_job_data`), turning the user's resume input
    into `(cv_id, cv_text)` pairs (`process_cv_data` with `save_upload_file`), and
    attaching the job and CV texts to the fit scores with two left merges
    (`calculate_and_save_fit_scores`). */
module AppData {
  import opened Wrappers
  import opened PyText
  import opened PyJson
  import opened Frames
  import opened PdfParser
  import opened Evaluators

  // ---------------------------------------------------------------------------
  // read_job_data

  /** `file.stem.split("_")[0]`: the job id a JD evaluation file is read back under. */
  function JobIdOf(path: string): string {
    SplitHead(PathStem(path), '_')
  }

  /** The files `Path(JOBS_OUTPUT_DIR).glob("*.json")` yields, in listing order. */
  function JsonFiles(listing: seq<(string, JsonText)>): (r: seq<(string, JsonText)>)
    ensures |r| <= |listing|
    ensures forall i :: 0 <= i < |r| ==> r[i] in listing && EndsWith(r[i].0, ".json")
    ensures forall e :: e in listing && EndsWith(e.0, ".json") ==> e in r
    decreases |listing|
  {
    if listing == [] then []
    else
      var init := JsonFiles(listing[..|listing| - 1]);
      var last := listing[|listing| - 1];
      assert listing == listing[..|listing| - 1] + [last];
      if EndsWith(last.0, ".json") then init + [last] else init
  }

  /** Each file's path replaced by the job id it is read under. */
  function Keyed(files: seq<(string, JsonText)>): (r: seq<(string, JsonText)>)
    ensures |r| == |files|
    ensures forall i :: 0 <= i < |files| ==> r[i] == (JobIdOf(files[i].0), files[i].1)
  {
    seq(|files|, i requires 0 <= i < |files| => (JobIdOf(files[i].0), files[i].1))
  }

  /** What the loop of `read_job_data` makes of the keyed JSON files, in order: one
      `(job_id, json.load(f))` pair each; the first file that does not decode
      raises out of the loop. */
  function JobData(entries: seq<(string, JsonText)>): Result<seq<(string, Json)>, PyError>
    decreases |entries|
  {
    if entries == [] then Ok([])
    else
      var last := entries[|entries| - 1];
      match JobData(entries[..|entries| - 1])
      case Err(e) => Err(e)
      case Ok(init) =>
        match Loads(last.1)
        case Err(e) => Err(e)
        case Ok(v) => Ok(init + [(last.0, v)])
  }

  /** Once a prefix of the entries fails, all of them fail with the same error. */
  lemma {:induction false} JobDataErrSticky(entries: seq<(string, JsonText)>, i: nat)
    requires i <= |entries| && JobData(entries[..i]).Err?
    ensures JobData(entries) == JobData(entries[..i])
    decreases |entries|
  {
    if i == |entries| {
      assert entries[..i] == entries;
    } else {
      var init := entries[..|entries| - 1];
      assert init[..i] == entries[..i];
      JobDataErrSticky(init, i);
    }
  }

  lemma JobDataStep(entries: seq<(string, JsonText)>, i: nat, pairs: seq<(string, Json)>)
    requires i < |entries| && JobData(entries[..i]) == Ok(pairs) && entries[i].1.parsed.Ok?
    ensures JobData(entries[..i + 1]) == Ok(pairs + [(entries[i].0, entries[i].1.parsed.value)])
  {
    assert entries[..i + 1][..i] == entries[..i];
  }

  lemma JobDataStepErr(entries: seq<(string, JsonText)>, i: nat)
    requires i < |entries| && JobData(entries[..i]).Ok? && entries[i].1.parsed.Err?
    ensures JobData(entries[..i + 1]) == Err(JsonDecodeError(entries[i].1.parsed.error))
  {
    assert entries[..i + 1][..i] == entries[..i];
  }

  /** `read_job_data()`: the listing is the folder's files with their JSON text. */
  method ReadJobData(listing: seq<(string, JsonText)>) returns (r: Result<seq<(string, Json)>, PyError>)
    ensures r == JobData(Keyed(JsonFiles(listing)))
  {
    var files := JsonFiles(listing);
    ghost var entries := Keyed(files);
    var jobData: seq<(string, Json)> := [];
    for i := 0 to |files|
      invariant JobData(entries[..i]) == Ok(jobData)
    {
      var file := files[i];
      var jobId := JobIdOf(file.0);
      var jobDescription := Loads(file.1);
      assert entries[i] == (jobId, file.1);
      if jobDescription.Err? {
        JobDataStepErr(entries, i);
        JobDataErrSticky(entries, i + 1);
        return Err(jobDescription.error);
      }
      JobDataStep(entries, i, jobData);
      jobData := jobData + [(jobId, jobDescription.value)];
    }
    assert entries[..|files|] == entries;
    return Ok(jobData);
  }

  /** Entry `i` is the first one that does not decode. */
  predicate FirstUndecodable(entries: seq<(string, JsonText)>, i: nat) {
    i < |entries| && entries[i].1.parsed.Err? &&
    forall j :: 0 <= j < i ==> entries[j].1.parsed.Ok?
  }

  predicate AllDecode(entries: seq<(string, JsonText)>) {
    forall i :: 0 <= i < |entries| ==> entries[i].1.parsed.Ok?
  }

  /** One pair per entry, in order: its job id and its decoded value. */
  predicate DecodedPairs(pairs: seq<(string, Json)>, entries: seq<(string, JsonText)>)
    requires AllDecode(entries)
  {
    |pairs| == |entries| &&
    forall i :: 0 <= i < |entries| ==> pairs[i] == (entries[i].0, entries[i].1.parsed.value)
  }

  /** The job data, described element by element: it succeeds exactly when every
      file decodes, and then holds one pair per file in order, the id taken from
      the file name and the value decoded from the text. */
  lemma {:induction false} JobDataOk(entries: seq<(string, JsonText)>)
    ensures JobData(entries).Ok? <==> AllDecode(entries)
    ensures JobData(entries).Ok? ==> DecodedPairs(JobData(entries).value, entries)
    decreases |entries|
  {
    if entries != [] {
      var init := entries[..|entries| - 1];
      JobDataOk(init);
      assert forall i :: 0 <= i < |init| ==> init[i] == entries[i];
    }
  }

  /** A failure is the decoding error of the first file that does not decode. */
  lemma {:induction false} JobDataErr(entries: seq<(string, JsonText)>)
    ensures JobData(entries).Err? ==>
      exists i: nat :: FirstUndecodable(entries, i) && JobData(entries).error == JsonDecodeError(entries[i].1.parsed.error)
    decreases |entries|
  {
    if entries != [] && JobData(entries).Err? {
      var init := entries[..|entries| - 1];
      var last := entries[|entries| - 1];
      JobDataErr(init);
      JobDataOk(init);
      assert forall i :: 0 <= i < |init| ==> init[i] == entries[i];
      if JobData(init).Err? {
        var i: nat :| FirstUndecodable(init, i) && JobData(init).error == JsonDecodeError(init[i].1.parsed.error);
        assert FirstUndecodable(entries, i);
      } else {
        assert last.1.parsed.Err?;
        assert FirstUndecodable(entries, |entries| - 1);
      }
    }
  }

  /** A JD evaluation file is read back under its job id exactly when the id holds no
      underscore: `{output_dir}/{job_id}_{model_name}.json`. */
  lemma JobIdOfArtifact(outputDir: string, jd: string, jobId: string, modelName: string)
    requires '/' !in jobId && '/' !in modelName
    ensures JobIdOf(ArtifactPath(outputDir, JdStage(jd, jobId), modelName)) == jobId <==> '_' !in jobId
  {
    var stem := jobId + "_" + modelName;
    var name := ArtifactName(JdStage(jd, jobId), modelName);
    assert name == stem + ".json";
    assert '/' !in name by {
      assert forall i :: 0 <= i < |name| ==> name[i] != '/' by {
        forall i | 0 <= i < |name|
          ensures name[i] != '/'
        {
          if i < |jobId| {
            assert name[i] == jobId[i];
          } else if |jobId| < i < |jobId| + 1 + |modelName| {
            assert name[i] == modelName[i - |jobId| - 1];
          }
        }
      }
    }
    BaseNameOfJoin(outputDir, name);
    StemOfJson(stem);
    assert jobId + "_" + modelName == jobId + ['_'] + modelName;
    SplitHeadOfConcat(jobId, modelName, '_');
  }

  // ---------------------------------------------------------------------------
  // process_cv_data and save_upload_file

  /** A file the user uploaded: its name and what parsing its content gives. */
  datatype Upload = Upload(name: string, outcome: ParseOutcome)

  /** The folder's entries other than `dest`. */
  function Without(files: seq<(string, ParseOutcome)>, dest: string): (r: seq<(string, ParseOutcome)>)
    ensures forall e :: e in r <==> e in files && e.0 != dest
    decreases |files|
  {
    if files == [] then []
    else
      var init := Without(files[..|files| - 1], dest);
      var last := files[|files| - 1];
      assert files == files[..|files| - 1] + [last];
      if last.0 != dest then init + [last] else init
  }

  /** The folder after copying a file to `dest`: an older file of that name is replaced. */
  function Put(files: seq<(string, ParseOutcome)>, dest: string, outcome: ParseOutcome): (r: seq<(string, ParseOutcome)>)
    ensures forall e :: e in r <==> e == (dest, outcome) || (e in files && e.0 != dest)
  {
    Without(files, dest) + [(dest, outcome)]
  }

  /** `shutil.copy(file, folder)`: the copy is named after the upload's last path component. */
  function UploadDest(folder: string, u: Upload): string {
    PathJoin(folder, BaseName(u.name))
  }

  /** The folder after the saving loop of `process_cv_data`: only uploads whose name
      ends in ".pdf" are copied, in upload order. */
  function SaveAll(files: seq<(string, ParseOutcome)>, folder: string, uploads: seq<Upload>): seq<(string, ParseOutcome)>
    decreases |uploads|
  {
    if uploads == [] then files
    else
      var before := SaveAll(files, folder, uploads[..|uploads| - 1]);
      var u := uploads[|uploads| - 1];
      if EndsWith(u.name, ".pdf") then Put(before, UploadDest(folder, u), u.outcome) else before
  }

  /** The folder the uploads are copied to (`PDF_UPLOAD_FOLDER`), with its files.
      `unwritable` maps each destination that cannot be written (the folder cannot be
      created, or the copy is refused) to the message of the `OSError` raised. */
  class UploadFolder {
    const path: string
    const unwritable: map<string, string>
    var files: seq<(string, ParseOutcome)>

    constructor (path: string, files: seq<(string, ParseOutcome)>, unwritable: map<string, string>)
      ensures this.path == path && this.files == files && this.unwritable == unwritable
    {
      this.path := path;
      this.files := files;
      this.unwritable := unwritable;
    }

    /** `save_upload_file(file)`: `os.makedirs` and `shutil.copy`, either of which may
        raise; a failed copy leaves the folder as it was. */
    method Save(u: Upload) returns (r: Result<(), PyError>)
      modifies this
      ensures r.Err? <==> UploadDest(path, u) in unwritable
      ensures r.Ok? ==> files == Put(old(files), UploadDest(path, u), u.outcome)
      ensures r.Err? ==> files == old(files) && r.error == OsError(unwritable[UploadDest(path, u)])
    {
      var dest := UploadDest(path, u);
      if dest in unwritable {
        return Err(OsError(unwritable[dest]));
      }
      files := Put(files, dest, u.outcome);
      return Ok(());
    }
  }

  /** Every ".pdf" upload can be copied to the folder. */
  predicate Saveable(folder: string, uploads: seq<Upload>, unwritable: map<string, string>) {
    forall i :: 0 <= i < |uploads| && EndsWith(uploads[i].name, ".pdf") ==> UploadDest(folder, uploads[i]) !in unwritable
  }

  /** The `j`-th upload is the first ".pdf" upload whose copy fails. */
  predicate SaveFailsAt(folder: string, uploads: seq<Upload>, unwritable: map<string, string>, j: nat) {
    j < |uploads| && EndsWith(uploads[j].name, ".pdf") && UploadDest(folder, uploads[j]) in unwritable &&
    Saveable(folder, uploads[..j], unwritable)
  }

  lemma SaveableElem(folder: string, uploads: seq<Upload>, unwritable: map<string, string>, j: nat, i: nat)
    requires j <= |uploads| && Saveable(folder, uploads[..j], unwritable)
    requires i < j && EndsWith(uploads[i].name, ".pdf")
    ensures UploadDest(folder, uploads[i]) !in unwritable
  {
    assert uploads[..j][i] == uploads[i];
  }

  /** A saving loop that cannot copy every ".pdf" upload stops at exactly one of them. */
  lemma {:induction false} SaveFailsSomewhere(folder: string, uploads: seq<Upload>, unwritable: map<string, string>)
    ensures !Saveable(folder, uploads, unwritable) <==> exists j: nat :: SaveFailsAt(folder, uploads, unwritable, j)
    ensures forall i: nat, j: nat :: SaveFailsAt(folder, uploads, unwritable, i) && SaveFailsAt(folder, uploads, unwritable, j) ==> i == j
    decreases |uploads|
  {
    forall i: nat, j: nat | SaveFailsAt(folder, uploads, unwritable, i) && SaveFailsAt(folder, uploads, unwritable, j)
      ensures i == j
    {
      if i < j {
        SaveableElem(folder, uploads, unwritable, j, i);
      } else if j < i {
        SaveableElem(folder, uploads, unwritable, i, j);
      }
    }
    if uploads != [] {
      var init := uploads[..|uploads| - 1];
      SaveFailsSomewhere(folder, init, unwritable);
      assert forall k :: 0 <= k < |init| ==> init[k] == uploads[k];
      if !Saveable(folder, init, unwritable) {
        var j: nat :| SaveFailsAt(folder, init, unwritable, j);
        assert uploads[..j] == init[..j];
        assert SaveFailsAt(folder, uploads, unwritable, j);
      } else if !Saveable(folder, uploads, unwritable) {
        assert uploads[..|uploads| - 1] == init;
        assert SaveFailsAt(folder, uploads, unwritable, |uploads| - 1);
      }
      if exists j: nat :: SaveFailsAt(folder, uploads, unwritable, j) {
        var j: nat :| SaveFailsAt(folder, uploads, unwritable, j);
        assert !Saveable(folder, uploads, unwritable);
      }
    }
  }

  /** The `if` branch: Text mode with a non-empty resume text. */
  predicate TextMode(inputType: string, additionalText: string) {
    inputType == "Text" && additionalText != ""
  }

  /** The `elif` branch: File mode with an upload list. */
  predicate FileMode(inputType: string, additionalText: string, uploads: Option<seq<Upload>>) {
    !TextMode(inputType, additionalText) && inputType == "File" && uploads.Some?
  }

  function Texts(pairs: seq<(string, string)>): (r: seq<string>)
    ensures |r| == |pairs| && forall k :: 0 <= k < |pairs| ==> r[k] == pairs[k].1
  {
    seq(|pairs|, k requires 0 <= k < |pairs| => pairs[k].1)
  }

  /** What the File branch returns for the folder `files`: it fails exactly when
      `process_pdfs` does, re-raising that error, and otherwise pairs the k-th fresh
      id with the k-th CV text, in the order `process_pdfs` returns them. */
  predicate CvDataFromFolder(r: Result<Option<seq<(string, string)>>, PyError>,
                             files: seq<(string, ParseOutcome)>, completion: seq<nat>, uuid: nat -> string)
    requires IsSchedule(completion, |PdfEntries(files)|)
  {
    var pdfs := PdfEntries(files);
    (r.Ok? <==> AllJoinable(pdfs)) &&
    (r.Err? ==> PdfsResult(pdfs, completion) == Err(r.error)) &&
    (r.Ok? ==> (r.value.Some? && |r.value.value| == |pdfs| &&
      (forall k :: 0 <= k < |r.value.value| ==> r.value.value[k].0 == uuid(k)) &&
      JoinedInOrder(Texts(r.value.value), pdfs, completion)))
  }

  /** The saving loop of `process_cv_data` as a function of the folder's files before
      it: the files after it, and how it ended.  Only ".pdf" uploads are copied, in
      upload order, and the first copy that fails ends the loop with its error. */
  function SaveLoop(files: seq<(string, ParseOutcome)>, folder: string, uploads: seq<Upload>, unwritable: map<string, string>)
    : (seq<(string, ParseOutcome)>, Result<(), PyError>)
    decreases |uploads|
  {
    if uploads == [] then (files, Ok(()))
    else
      var before := SaveLoop(files, folder, uploads[..|uploads| - 1], unwritable);
      var u := uploads[|uploads| - 1];
      var dest := UploadDest(folder, u);
      if before.1.Err? || !EndsWith(u.name, ".pdf") then before
      else if dest in unwritable then (before.0, Err(OsError(unwritable[dest])))
      else (Put(before.0, dest, u.outcome), Ok(()))
  }

  /** Once a copy has failed, later uploads change nothing. */
  lemma {:induction false} SaveLoopErrSticky(files: seq<(string, ParseOutcome)>, folder: string, uploads: seq<Upload>,
                                             unwritable: map<string, string>, i: nat)
    requires i <= |uploads| && SaveLoop(files, folder, uploads[..i], unwritable).1.Err?
    ensures SaveLoop(files, folder, uploads, unwritable) == SaveLoop(files, folder, uploads[..i], unwritable)
    decreases |uploads| - i
  {
    if i < |uploads| {
      var init := uploads[..|uploads| - 1];
      assert init[..i] == uploads[..i];
      SaveLoopErrSticky(files, folder, init, unwritable, i);
    } else {
      assert uploads[..i] == uploads;
    }
  }

  /** Whether the next upload can be copied decides whether a saveable prefix stays saveable. */
  lemma SaveableSnoc(folder: string, uploads: seq<Upload>, unwritable: map<string, string>)
    requires uploads != []
    ensures Saveable(folder, uploads, unwritable) <==>
      Saveable(folder, uploads[..|uploads| - 1], unwritable) &&
      (EndsWith(uploads[|uploads| - 1].name, ".pdf") ==> UploadDest(folder, uploads[|uploads| - 1]) !in unwritable)
  {
    var init := uploads[..|uploads| - 1];
    assert forall k :: 0 <= k < |init| ==> init[k] == uploads[k];
  }

  /** The saving loop succeeds exactly when every ".pdf" upload can be copied, and then
      leaves `SaveAll`'s folder. */
  lemma {:induction false} SaveLoopOk(files: seq<(string, ParseOutcome)>, folder: string, uploads: seq<Upload>,
                                      unwritable: map<string, string>)
    ensures SaveLoop(files, folder, uploads, unwritable).1.Ok? <==> Saveable(folder, uploads, unwritable)
    ensures SaveLoop(files, folder, uploads, unwritable).1.Ok? ==>
      SaveLoop(files, folder, uploads, unwritable).0 == SaveAll(files, folder, uploads)
    decreases |uploads|
  {
    if uploads != [] {
      SaveLoopOk(files, folder, uploads[..|uploads| - 1], unwritable);
      SaveableSnoc(folder, uploads, unwritable);
    }
  }

  /** When the `j`-th upload is the first whose copy fails, the folder holds the copies
      of the uploads before it and the loop raises that copy's `OSError`. */
  lemma SaveLoopFailsAt(files: seq<(string, ParseOutcome)>, folder: string, uploads: seq<Upload>,
                        unwritable: map<string, string>, j: nat)
    requires SaveFailsAt(folder, uploads, unwritable, j)
    ensures SaveLoop(files, folder, uploads, unwritable) ==
      (SaveAll(files, folder, uploads[..j]), Err(OsError(unwritable[UploadDest(folder, uploads[j])])))
  {
    SaveLoopOk(files, folder, uploads[..j], unwritable);
    assert uploads[..j + 1][..j] == uploads[..j];
    SaveLoopErrSticky(files, folder, uploads, unwritable, j + 1);
  }

  /** The saving loop of `process_cv_data`, on the folder. */
  method SaveUploads(folder: UploadFolder, us: seq<Upload>) returns (r: Result<(), PyError>)
    modifies folder
    ensures (folder.files, r) == SaveLoop(old(folder.files), folder.path, us, folder.unwritable)
  {
    for i := 0 to |us|
      invariant SaveLoop(old(folder.files), folder.path, us[..i], folder.unwritable) == (folder.files, Ok(()))
    {
      assert us[..i + 1][..i] == us[..i];
      if EndsWith(us[i].name, ".pdf") {
        var saved := folder.Save(us[i]);
        if saved.Err? {
          SaveLoopErrSticky(old(folder.files), folder.path, us, folder.unwritable, i + 1);
          return Err(saved.error);
        }
      }
    }
    assert us[..|us|] == us;
    return Ok(());
  }

  /** `process_cv_data(input_data, file_upload)`.  `schedule(n)` is the completion
      order of the `n` parse jobs of `process_pdfs`, `uuid(k)` the k-th fresh id. */
  method ProcessCvData(folder: UploadFolder, inputType: string, additionalText: string,
                       uploads: Option<seq<Upload>>, schedule: nat -> seq<nat>, uuid: nat -> string)
      returns (r: Result<Option<seq<(string, string)>>, PyError>)
    requires forall n :: IsSchedule(schedule(n), n)
    modifies folder
    ensures TextMode(inputType, additionalText) ==>
      folder.files == old(folder.files) && r == Ok(Some([(uuid(0), additionalText)]))
    ensures FileMode(inputType, additionalText, uploads) ==>
      folder.files == SaveLoop(old(folder.files), folder.path, uploads.value, folder.unwritable).0
    ensures FileMode(inputType, additionalText, uploads) && SaveLoop(old(folder.files), folder.path, uploads.value, folder.unwritable).1.Err? ==>
      r == Err(SaveLoop(old(folder.files), folder.path, uploads.value, folder.unwritable).1.error)
    ensures FileMode(inputType, additionalText, uploads) && SaveLoop(old(folder.files), folder.path, uploads.value, folder.unwritable).1.Ok? ==>
      CvDataFromFolder(r, folder.files, schedule(|PdfEntries(folder.files)|), uuid)
    ensures !TextMode(inputType, additionalText) && !FileMode(inputType, additionalText, uploads) ==>
      folder.files == old(folder.files) && r == Ok(None)
  {
    if TextMode(inputType, additionalText) {
      return Ok(Some([(uuid(0), additionalText)]));
    } else if inputType == "File" && uploads.Some? {
      var us := uploads.value;
      var saved := SaveUploads(folder, us);
      if saved.Err? {
        return Err(saved.error);
      }
      var n := |PdfEntries(folder.files)|;
      var cvData := ProcessPdfs(PathObj(folder.path), folder.files, schedule(n));
      if cvData.Err? {
        return Err(cvData.error);
      }
      var pairs := seq(|cvData.value|, k requires 0 <= k < |cvData.value| => (uuid(k), cvData.value[k]));
      assert Texts(pairs) == cvData.value;
      return Ok(Some(pairs));
    } else {
      return Ok(None);
    }
  }

  /** `e` is the copy of a ".pdf" upload among `uploads`. */
  predicate SavedFrom(e: (string, ParseOutcome), folder: string, uploads: seq<Upload>) {
    exists j :: 0 <= j < |uploads| && EndsWith(uploads[j].name, ".pdf") &&
      e == (UploadDest(folder, uploads[j]), uploads[j].outcome)
  }

  predicate HasPath(files: seq<(string, ParseOutcome)>, p: string) {
    exists i :: 0 <= i < |files| && files[i].0 == p
  }

  /** Saving adds nothing but copies of ".pdf" uploads. */
  lemma {:induction false} SaveAllOnlyPdfs(files: seq<(string, ParseOutcome)>, folder: string, uploads: seq<Upload>)
    ensures forall e :: e in SaveAll(files, folder, uploads) ==> e in files || SavedFrom(e, folder, uploads)
    decreases |uploads|
  {
    if uploads != [] {
      var init := uploads[..|uploads| - 1];
      var u := uploads[|uploads| - 1];
      var before := SaveAll(files, folder, init);
      var after := SaveAll(files, folder, uploads);
      SaveAllOnlyPdfs(files, folder, init);
      forall e | e in after
        ensures e in files || SavedFrom(e, folder, uploads)
      {
        if e in before {
          if !(e in files) {
            var j :| 0 <= j < |init| && EndsWith(init[j].name, ".pdf") &&
              e == (UploadDest(folder, init[j]), init[j].outcome);
            assert uploads[j] == init[j];
          }
        } else {
          assert uploads[|uploads| - 1] == u;
        }
      }
    }
  }

  /** After saving, the folder holds a file under the name of every ".pdf" upload. */
  lemma SaveAllKeepsPdfs(files: seq<(string, ParseOutcome)>, folder: string, uploads: seq<Upload>)
    ensures forall j :: 0 <= j < |uploads| && EndsWith(uploads[j].name, ".pdf") ==>
      HasPath(SaveAll(files, folder, uploads), UploadDest(folder, uploads[j]))
  {
    forall j | 0 <= j < |uploads| && EndsWith(uploads[j].name, ".pdf")
      ensures HasPath(SaveAll(files, folder, uploads), UploadDest(folder, uploads[j]))
    {
      SaveAllKeepsPdf(files, folder, uploads, j);
    }
  }

  lemma {:induction false} SaveAllKeepsPdf(files: seq<(string, ParseOutcome)>, folder: string, uploads: seq<Upload>, j: nat)
    requires j < |uploads| && EndsWith(uploads[j].name, ".pdf")
    ensures HasPath(SaveAll(files, folder, uploads), UploadDest(folder, uploads[j]))
    decreases |uploads|
  {
    var init := uploads[..|uploads| - 1];
    var u := uploads[|uploads| - 1];
    var before := SaveAll(files, folder, init);
    if j < |init| {
      assert init[j] == uploads[j];
      SaveAllKeepsPdf(files, folder, init, j);
      SaveStepKeeps(before, folder, u, UploadDest(folder, uploads[j]));
    } else {
      PutHasDest(before, UploadDest(folder, u), u.outcome);
    }
  }

  lemma SaveStepKeeps(before: seq<(string, ParseOutcome)>, folder: string, u: Upload, p: string)
    requires HasPath(before, p)
    ensures HasPath(if EndsWith(u.name, ".pdf") then Put(before, UploadDest(folder, u), u.outcome) else before, p)
  {
    if EndsWith(u.name, ".pdf") {
      PutKeepsPath(before, UploadDest(folder, u), u.outcome, p);
    }
  }

  lemma PutKeepsPath(files: seq<(string, ParseOutcome)>, dest: string, outcome: ParseOutcome, p: string)
    requires HasPath(files, p)
    ensures HasPath(Put(files, dest, outcome), p)
  {
    var r := Put(files, dest, outcome);
    if p == dest {
      assert r[|r| - 1].0 == p;
    } else {
      var i :| 0 <= i < |files| && files[i].0 == p;
      assert files[i] in r;
      var k :| 0 <= k < |r| && r[k] == files[i];
    }
  }

  lemma PutHasDest(files: seq<(string, ParseOutcome)>, dest: string, outcome: ParseOutcome)
    ensures HasPath(Put(files, dest, outcome), dest)
  {
    var r := Put(files, dest, outcome);
    assert r[|r| - 1].0 == dest;
  }

  // ---------------------------------------------------------------------------
  // calculate_and_save_fit_scores

  /** `pd.DataFrame(cv_data, columns=["cv_id", "cv_text"])`. */
  function CvFrame(cvData: seq<(string, string)>): (r: Frame)
    ensures r.columns == ["cv_id", "cv_text"] && Rectangular(r) && |r.rows| == |cvData|
    ensures forall i :: 0 <= i < |cvData| ==> r.rows[i] == [S(cvData[i].0), S(cvData[i].1)]
  {
    Frame(["cv_id", "cv_text"], seq(|cvData|, i requires 0 <= i < |cvData| => [S(cvData[i].0), S(cvData[i].1)]))
  }

  /** `pd.DataFrame(job_data, columns=["job_id", "job_text"])`. */
  function JobFrame(jobData: seq<(string, Json)>): (r: Frame)
    ensures r.columns == ["job_id", "job_text"] && Rectangular(r) && |r.rows| == |jobData|
    ensures forall i :: 0 <= i < |jobData| ==> r.rows[i] == [S(jobData[i].0), Val(jobData[i].1)]
  {
    Frame(["job_id", "job_text"], seq(|jobData|, i requires 0 <= i < |jobData| => [S(jobData[i].0), Val(jobData[i].1)]))
  }

  /** The frame `calculate_and_save_fit_scores` returns: the fit scores merged left
      with the job texts on "job_id", then with the CV texts on "cv_id". */
  function FitScoresWithText(fit: Frame, cvData: seq<(string, string)>, jobData: seq<(string, Json)>): Result<Frame, PyError> {
    var withJobs :- LeftMerge(fit, JobFrame(jobData), "job_id");
    LeftMerge(withJobs, CvFrame(cvData), "cv_id")
  }

  /** A column that the renaming leaves alone is still among the merged columns. */
  lemma KeptColumn(cols: seq<string>, other: seq<string>, key: string, c: string)
    requires c in cols && Rename(c, other, key, "_x") == c
    ensures c in RenameAll(cols, other, key, "_x")
  {
    var i :| 0 <= i < |cols| && cols[i] == c;
    assert RenameAll(cols, other, key, "_x")[i] == c;
  }

  lemma PrefixTrans(a: seq<Cell>, b: seq<Cell>, c: seq<Cell>)
    requires a <= b && b <= c
    ensures a <= c
  {
    assert c[..|a|] == b[..|a|];
  }

  /** The two merges fail exactly when the fit scores lack "job_id" or "cv_id", and
      otherwise keep every fit-score row: each one starts some output row, whether
      or not a job or CV text matched it. */
  lemma FitScoresKeepRows(fit: Frame, cvData: seq<(string, string)>, jobData: seq<(string, Json)>)
    ensures FitScoresWithText(fit, cvData, jobData).Err? <==> "job_id" !in fit.columns || "cv_id" !in fit.columns
    ensures FitScoresWithText(fit, cvData, jobData).Ok? ==>
      |FitScoresWithText(fit, cvData, jobData).value.rows| >= |fit.rows| &&
      forall i :: 0 <= i < |fit.rows| ==> Covered(fit.rows[i], FitScoresWithText(fit, cvData, jobData).value.rows)
  {
    var jobs, cvs := JobFrame(jobData), CvFrame(cvData);
    if "job_id" in fit.columns {
      var withJobs := LeftMerge(fit, jobs, "job_id").value;
      var rk := IndexOf(jobs.columns, "job_id").value;
      assert withJobs.columns == MergeColumns(fit.columns, jobs.columns, "job_id", rk);
      if "cv_id" in fit.columns {
        assert "cv_id" !in jobs.columns;
        KeptColumn(fit.columns, jobs.columns, "job_id", "cv_id");
        assert "cv_id" in withJobs.columns;
        LeftMergeKeepsRows(fit, jobs, "job_id");
        LeftMergeKeepsRows(withJobs, cvs, "cv_id");
        var out := LeftMerge(withJobs, cvs, "cv_id").value;
        forall i | 0 <= i < |fit.rows|
          ensures Covered(fit.rows[i], out.rows)
        {
          var j :| 0 <= j < |withJobs.rows| && fit.rows[i] <= withJobs.rows[j];
          var k :| 0 <= k < |out.rows| && withJobs.rows[j] <= out.rows[k];
          PrefixTrans(fit.rows[i], withJobs.rows[j], out.rows[k]);
        }
      } else {
        var left := RenameAll(fit.columns, jobs.columns, "job_id", "_x");
        var right := RenameAll(jobs.columns[..rk] + jobs.columns[rk + 1..], fit.columns, "job_id", "_y");
        assert jobs.columns[..rk] + jobs.columns[rk + 1..] == ["job_text"];
        assert "cv_id" !in left by {
          forall i | 0 <= i < |left|
            ensures left[i] != "cv_id"
          {
            var c := fit.columns[i];
            assert c != "cv_id";
            if left[i] != c {
              assert left[i] == c + "_x";
              assert left[i][|left[i]| - 1] == 'x';
            }
          }
        }
        assert right[0] == "job_text" || right[0] == "job_text_y";
        assert withJobs.columns == left + right;
      }
    }
  }
}
