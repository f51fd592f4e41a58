/** The two-stage evaluators of resume-evaluator/src/evaluators/two_stage_evaluators.py.
    Both stages run the same loop over the `(model_name, grader)` pairs: invoke the
    grader, record the result, dump it to a per-model JSON file, sleep; an exception
    is logged and the loop goes on; when no grader returned anything the
    "All models failed" message is logged.  Both functions return `None` either way. */
module Evaluators {
  import opened Wrappers
  import opened PyText
  import opened PyJson

  /** The dict passed to `grader.invoke`. */
  datatype Payload =
    | JdPayload(jobDescription: string)                 // {"job_description": ...}
    | CvPayload(jobRequirements: string, resume: string) // {"job_requirements": ..., "resume": ...}

  /** What `grader.invoke` does: return parsed JSON, or raise with `str(e)` as given. */
  datatype Invocation = Returned(result: Json) | Raised(message: string)

  /** A `(model_name, grader)` pair; its chain (prompt, LLM and JSON parser) is foreign. */
  datatype ModelTuple = ModelTuple(name: string, grader: Payload -> Invocation)

  /** The arguments that distinguish the JD stage from the CV stage. */
  datatype Stage =
    | JdStage(jobDescription: string, jobId: string)
    | CvStage(jobRequirements: string, jobId: string, cv: string, cvId: string)

  function StagePayload(stage: Stage): Payload {
    match stage
    case JdStage(jd, _) => JdPayload(jd)
    case CvStage(req, _, cv, _) => CvPayload(req, cv)
  }

  /** `f"{job_id}_{model_name}.json"` or `f"{job_id}_{cv_id}_{model_name}.json"`. */
  function ArtifactName(stage: Stage, modelName: string): string {
    match stage
    case JdStage(_, jobId) => jobId + "_" + modelName + ".json"
    case CvStage(_, jobId, _, cvId) => jobId + "_" + cvId + "_" + modelName + ".json"
  }

  /** `os.path.join(output_dir, <artifact name>)`. */
  function ArtifactPath(outputDir: string, stage: Stage, modelName: string): string {
    PathJoin(outputDir, ArtifactName(stage, modelName))
  }

  /** A file written by `json.dump(result, f, indent=indent)`. */
  datatype Artifact = Artifact(content: Json, indent: nat)

  /** One `grader.invoke(payload)` call of the model named `modelName`. */
  datatype Call = Call(modelName: string, payload: Payload)

  function ErrorMessage(modelName: string, jobId: string, detail: string): string {
    "Error with " + modelName + " for job_id: " + jobId + ". Error: " + detail
  }

  function AllFailedMessage(jobId: string): string {
    "All models failed for job_id: " + jobId + "."
  }

  /** What the evaluators change in the world: the files on disk, the chain calls
      made, the number of `time.sleep` calls and the lines logged (and printed). */
  datatype Effects = Effects(files: map<string, Artifact>, calls: seq<Call>, sleeps: nat, log: seq<string>)

  /** The loop's state: the local `model_results` dict and the effects so far. */
  datatype LoopState = LoopState(results: map<string, Json>, fx: Effects)

  /** Whether the model's invoke returned and its file could be written. */
  predicate FullSuccess(m: ModelTuple, stage: Stage, outputDir: string, unwritable: map<string, string>) {
    m.grader(StagePayload(stage)).Returned? && ArtifactPath(outputDir, stage, m.name) !in unwritable
  }

  /** One iteration of the loop body, `try` and `except` included. */
  function Step(ls: LoopState, m: ModelTuple, stage: Stage, outputDir: string, unwritable: map<string, string>): LoopState {
    var p := StagePayload(stage);
    var fx := ls.fx.(calls := ls.fx.calls + [Call(m.name, p)]);
    match m.grader(p)
    case Raised(e) =>
      LoopState(ls.results, fx.(log := fx.log + [ErrorMessage(m.name, stage.jobId, e)]))
    case Returned(r) =>
      var path := ArtifactPath(outputDir, stage, m.name);
      if path in unwritable then
        LoopState(ls.results[m.name := r], fx.(log := fx.log + [ErrorMessage(m.name, stage.jobId, unwritable[path])]))
      else
        LoopState(ls.results[m.name := r], fx.(files := fx.files[path := Artifact(r, 4)], sleeps := fx.sleeps + 1))
  }

  /** The loop over a prefix of the model list. */
  function RunModels(models: seq<ModelTuple>, stage: Stage, outputDir: string, unwritable: map<string, string>, ls: LoopState): LoopState
    decreases |models|
  {
    if models == [] then ls
    else Step(RunModels(models[..|models| - 1], stage, outputDir, unwritable, ls), models[|models| - 1], stage, outputDir, unwritable)
  }

  /** One iteration makes exactly one call, the model's, with the stage's payload. */
  lemma StepCalls(ls: LoopState, m: ModelTuple, stage: Stage, outputDir: string, unwritable: map<string, string>)
    ensures Step(ls, m, stage, outputDir, unwritable).fx.calls == ls.fx.calls + [Call(m.name, StagePayload(stage))]
  {
  }

  /** One iteration writes the model's artifact when it fully succeeds, and no other file. */
  lemma StepFiles(ls: LoopState, m: ModelTuple, stage: Stage, outputDir: string, unwritable: map<string, string>)
    ensures Step(ls, m, stage, outputDir, unwritable).fx.files ==
      if FullSuccess(m, stage, outputDir, unwritable)
      then ls.fx.files[ArtifactPath(outputDir, stage, m.name) := Artifact(m.grader(StagePayload(stage)).result, 4)]
      else ls.fx.files
  {
  }

  /** A whole call of either evaluator, starting from the effects `fx`. */
  function Evaluate(models: seq<ModelTuple>, stage: Stage, outputDir: string, unwritable: map<string, string>, fx: Effects): Effects {
    var final := RunModels(models, stage, outputDir, unwritable, LoopState(map[], fx));
    if final.results == map[] then final.fx.(log := final.fx.log + [AllFailedMessage(stage.jobId)])
    else final.fx
  }

  /** The file system, the clock's `sleep`, the chains' call log and the logger. */
  class World {
    var files: map<string, Artifact>
    var calls: seq<Call>
    var sleeps: nat
    var log: seq<string>
    /** Paths that `open(path, "w")` rejects, with the `str(e)` of the error it raises. */
    const unwritable: map<string, string>

    constructor (files: map<string, Artifact>, unwritable: map<string, string>)
      ensures this.files == files && this.unwritable == unwritable
      ensures calls == [] && sleeps == 0 && log == []
    {
      this.files := files;
      this.unwritable := unwritable;
      calls := [];
      sleeps := 0;
      log := [];
    }

    function State(): Effects
      reads this
    {
      Effects(files, calls, sleeps, log)
    }

    method Invoke(m: ModelTuple, p: Payload) returns (r: Invocation)
      modifies this
      ensures r == m.grader(p)
      ensures calls == old(calls) + [Call(m.name, p)]
      ensures files == old(files) && sleeps == old(sleeps) && log == old(log)
    {
      r := m.grader(p);
      calls := calls + [Call(m.name, p)];
    }

    /** `with open(path, "w") as f: json.dump(value, f, indent=indent)`. */
    method Dump(path: string, value: Json, indent: nat) returns (ok: bool, error: string)
      modifies this
      ensures ok <==> path !in unwritable
      ensures ok ==> files == old(files)[path := Artifact(value, indent)]
      ensures !ok ==> files == old(files) && error == unwritable[path]
      ensures calls == old(calls) && sleeps == old(sleeps) && log == old(log)
    {
      if path in unwritable {
        ok, error := false, unwritable[path];
      } else {
        ok, error := true, "";
        files := files[path := Artifact(value, indent)];
      }
    }

    method Sleep()
      modifies this
      ensures sleeps == old(sleeps) + 1
      ensures files == old(files) && calls == old(calls) && log == old(log)
    {
      sleeps := sleeps + 1;
    }

    /** `logging.error(msg)` followed by `print(msg)`: one line of output. */
    method Log(msg: string)
      modifies this
      ensures log == old(log) + [msg]
      ensures files == old(files) && calls == old(calls) && sleeps == old(sleeps)
    {
      log := log + [msg];
    }
  }

  /** One pass of the loop body for the model `m`: invoke, record, dump, sleep or log. */
  method EvalOne(world: World, m: ModelTuple, stage: Stage, outputDir: string, modelResults: map<string, Json>)
      returns (results: map<string, Json>)
    modifies world
    ensures LoopState(results, world.State()) == Step(LoopState(modelResults, old(world.State())), m, stage, outputDir, world.unwritable)
  {
    results := modelResults;
    var result := world.Invoke(m, StagePayload(stage));
    match result {
      case Raised(e) =>
        world.Log(ErrorMessage(m.name, stage.jobId, e));
      case Returned(r) =>
        results := results[m.name := r];
        var ok, error := world.Dump(ArtifactPath(outputDir, stage, m.name), r, 4);
        if ok {
          world.Sleep();
        } else {
          world.Log(ErrorMessage(m.name, stage.jobId, error));
        }
    }
  }

  /** The loop both evaluators share. */
  method EvalModels(world: World, models: seq<ModelTuple>, stage: Stage, outputDir: string)
    modifies world
    ensures world.State() == Evaluate(models, stage, outputDir, world.unwritable, old(world.State()))
  {
    ghost var start := LoopState(map[], world.State());
    var modelResults: map<string, Json> := map[];
    var i := 0;
    while i < |models|
      invariant 0 <= i <= |models|
      invariant LoopState(modelResults, world.State()) == RunModels(models[..i], stage, outputDir, world.unwritable, start)
    {
      modelResults := EvalOne(world, models[i], stage, outputDir, modelResults);
      assert models[..i + 1][..i] == models[..i];
      i := i + 1;
    }
    assert models[..|models|] == models;
    if modelResults == map[] {
      world.Log(AllFailedMessage(stage.jobId));
    }
  }

  /** `two_stage_eval_jd(model_tuples, job_description, job_id, output_dir)`. */
  method TwoStageEvalJd(world: World, models: seq<ModelTuple>, jobDescription: string, jobId: string, outputDir: string)
    modifies world
    ensures world.State() == Evaluate(models, JdStage(jobDescription, jobId), outputDir, world.unwritable, old(world.State()))
  {
    EvalModels(world, models, JdStage(jobDescription, jobId), outputDir);
  }

  /** `two_stage_eval_cv(model_tuples, job_requirements, job_id, cv, cv_id, output_dir)`. */
  method TwoStageEvalCv(world: World, models: seq<ModelTuple>, jobRequirements: string, jobId: string, cv: string, cvId: string, outputDir: string)
    modifies world
    ensures world.State() == Evaluate(models, CvStage(jobRequirements, jobId, cv, cvId), outputDir, world.unwritable, old(world.State()))
  {
    EvalModels(world, models, CvStage(jobRequirements, jobId, cv, cvId), outputDir);
  }

  // ---------------------------------------------------------------------------
  // Properties of a call

  /** The calls a run should make: every model in order, each with the stage's payload. */
  function ExpectedCalls(models: seq<ModelTuple>, p: Payload): (r: seq<Call>)
    ensures |r| == |models|
    ensures forall i :: 0 <= i < |models| ==> r[i] == Call(models[i].name, p)
  {
    seq(|models|, i requires 0 <= i < |models| => Call(models[i].name, p))
  }

  /** The number of models whose invoke and write both succeeded. */
  function CountFullSuccesses(models: seq<ModelTuple>, stage: Stage, outputDir: string, unwritable: map<string, string>): nat
    decreases |models|
  {
    if models == [] then 0
    else
      var here := if FullSuccess(models[0], stage, outputDir, unwritable) then 1 else 0;
      here + CountFullSuccesses(models[1..], stage, outputDir, unwritable)
  }

  lemma {:induction false} CountSnoc(models: seq<ModelTuple>, m: ModelTuple, stage: Stage, outputDir: string, unwritable: map<string, string>)
    ensures CountFullSuccesses(models + [m], stage, outputDir, unwritable)
         == CountFullSuccesses(models, stage, outputDir, unwritable) + (if FullSuccess(m, stage, outputDir, unwritable) then 1 else 0)
    decreases |models|
  {
    if models == [] {
      assert [m][1..] == [];
    } else {
      assert (models + [m])[1..] == models[1..] + [m];
      CountSnoc(models[1..], m, stage, outputDir, unwritable);
    }
  }

  /** Every model is invoked, in list order, with exactly the stage's payload,
      whether or not earlier models raised. */
  lemma {:induction false} RunCalls(models: seq<ModelTuple>, stage: Stage, outputDir: string, unwritable: map<string, string>, ls: LoopState)
    ensures RunModels(models, stage, outputDir, unwritable, ls).fx.calls == ls.fx.calls + ExpectedCalls(models, StagePayload(stage))
    decreases |models|
  {
    var p := StagePayload(stage);
    if models == [] {
      assert ExpectedCalls(models, p) == [];
    } else {
      var init := models[..|models| - 1];
      var last := models[|models| - 1];
      var before := RunModels(init, stage, outputDir, unwritable, ls);
      RunCalls(init, stage, outputDir, unwritable, ls);
      StepCalls(before, last, stage, outputDir, unwritable);
      ExpectedCallsSnoc(models, p);
      assert ls.fx.calls + ExpectedCalls(init, p) + [Call(last.name, p)] == ls.fx.calls + (ExpectedCalls(init, p) + [Call(last.name, p)]);
    }
  }

  lemma ExpectedCallsSnoc(models: seq<ModelTuple>, p: Payload)
    requires models != []
    ensures ExpectedCalls(models, p) == ExpectedCalls(models[..|models| - 1], p) + [Call(models[|models| - 1].name, p)]
  {
  }

  /** One sleep per model whose invoke and write both succeeded, and no other. */
  lemma {:induction false} RunSleeps(models: seq<ModelTuple>, stage: Stage, outputDir: string, unwritable: map<string, string>, ls: LoopState)
    ensures RunModels(models, stage, outputDir, unwritable, ls).fx.sleeps
         == ls.fx.sleeps + CountFullSuccesses(models, stage, outputDir, unwritable)
    decreases |models|
  {
    if models != [] {
      var init := models[..|models| - 1];
      RunSleeps(init, stage, outputDir, unwritable, ls);
      CountSnoc(init, models[|models| - 1], stage, outputDir, unwritable);
      assert init + [models[|models| - 1]] == models;
    }
  }

  /** The names of the models whose invoke returned. */
  function ReturnedNames(models: seq<ModelTuple>, stage: Stage): set<string> {
    set i | 0 <= i < |models| && models[i].grader(StagePayload(stage)).Returned? :: models[i].name
  }

  lemma ReturnedNamesSnoc(models: seq<ModelTuple>, stage: Stage)
    requires models != []
    ensures var last := models[|models| - 1];
      ReturnedNames(models, stage) ==
      ReturnedNames(models[..|models| - 1], stage) + (if last.grader(StagePayload(stage)).Returned? then {last.name} else {})
  {
    var init := models[..|models| - 1];
    var last := models[|models| - 1];
    var extra: set<string> := if last.grader(StagePayload(stage)).Returned? then {last.name} else {};
    forall name | name in ReturnedNames(models, stage)
      ensures name in ReturnedNames(init, stage) + extra
    {
      var i :| 0 <= i < |models| && models[i].grader(StagePayload(stage)).Returned? && models[i].name == name;
      if i < |init| {
        assert init[i] == models[i];
      }
    }
    forall name | name in ReturnedNames(init, stage)
      ensures name in ReturnedNames(models, stage)
    {
      var i :| 0 <= i < |init| && init[i].grader(StagePayload(stage)).Returned? && init[i].name == name;
      assert models[i] == init[i];
    }
    if last.grader(StagePayload(stage)).Returned? {
      assert models[|models| - 1].name in ReturnedNames(models, stage);
    }
  }

  /** A model is recorded in `model_results` exactly when its invoke returned,
      whatever happened to its file. */
  lemma {:induction false} RunResultsKeys(models: seq<ModelTuple>, stage: Stage, outputDir: string, unwritable: map<string, string>, ls: LoopState)
    ensures RunModels(models, stage, outputDir, unwritable, ls).results.Keys == ls.results.Keys + ReturnedNames(models, stage)
    decreases |models|
  {
    if models != [] {
      RunResultsKeys(models[..|models| - 1], stage, outputDir, unwritable, ls);
      ReturnedNamesSnoc(models, stage);
    } else {
      assert ReturnedNames(models, stage) == {};
    }
  }

  /** The paths of the artifacts that fully successful models write. */
  function WrittenPaths(models: seq<ModelTuple>, stage: Stage, outputDir: string, unwritable: map<string, string>): set<string> {
    set i | 0 <= i < |models| && FullSuccess(models[i], stage, outputDir, unwritable) :: ArtifactPath(outputDir, stage, models[i].name)
  }

  lemma WrittenPathsSnoc(models: seq<ModelTuple>, stage: Stage, outputDir: string, unwritable: map<string, string>)
    requires models != []
    ensures var last := models[|models| - 1];
      WrittenPaths(models, stage, outputDir, unwritable) ==
      WrittenPaths(models[..|models| - 1], stage, outputDir, unwritable) +
      (if FullSuccess(last, stage, outputDir, unwritable) then {ArtifactPath(outputDir, stage, last.name)} else {})
  {
    WrittenPathsInit(models, stage, outputDir, unwritable);
    WrittenPathsGrow(models, stage, outputDir, unwritable);
  }

  /** Every path of a longer list comes from its prefix or from its last model. */
  lemma WrittenPathsInit(models: seq<ModelTuple>, stage: Stage, outputDir: string, unwritable: map<string, string>)
    requires models != []
    ensures var last := models[|models| - 1];
      WrittenPaths(models, stage, outputDir, unwritable) <=
      WrittenPaths(models[..|models| - 1], stage, outputDir, unwritable) +
      (if FullSuccess(last, stage, outputDir, unwritable) then {ArtifactPath(outputDir, stage, last.name)} else {})
  {
    var init := models[..|models| - 1];
    var before := WrittenPaths(init, stage, outputDir, unwritable);
    forall i | 0 <= i < |init| && FullSuccess(models[i], stage, outputDir, unwritable)
      ensures ArtifactPath(outputDir, stage, models[i].name) in before
    {
      assert init[i] == models[i];
    }
  }

  /** The prefix's paths, and the last model's when it fully succeeds, are all written. */
  lemma WrittenPathsGrow(models: seq<ModelTuple>, stage: Stage, outputDir: string, unwritable: map<string, string>)
    requires models != []
    ensures var last := models[|models| - 1];
      WrittenPaths(models[..|models| - 1], stage, outputDir, unwritable) +
      (if FullSuccess(last, stage, outputDir, unwritable) then {ArtifactPath(outputDir, stage, last.name)} else {})
      <= WrittenPaths(models, stage, outputDir, unwritable)
  {
    var init := models[..|models| - 1];
    forall p | p in WrittenPaths(init, stage, outputDir, unwritable)
      ensures p in WrittenPaths(models, stage, outputDir, unwritable)
    {
      var i :| 0 <= i < |init| && FullSuccess(init[i], stage, outputDir, unwritable) && ArtifactPath(outputDir, stage, init[i].name) == p;
      assert models[i] == init[i];
    }
    var k := |models| - 1;
    if FullSuccess(models[k], stage, outputDir, unwritable) {
      assert ArtifactPath(outputDir, stage, models[k].name) in WrittenPaths(models, stage, outputDir, unwritable);
    }
  }

  /** A file that a run leaves behind was there before or is the artifact of a fully
      successful model; a path no fully successful model writes keeps its old content. */
  lemma {:induction false} RunFilesOrigin(models: seq<ModelTuple>, stage: Stage, outputDir: string, unwritable: map<string, string>, ls: LoopState)
    ensures RunModels(models, stage, outputDir, unwritable, ls).fx.files.Keys == ls.fx.files.Keys + WrittenPaths(models, stage, outputDir, unwritable)
    ensures forall p :: p in ls.fx.files && p !in WrittenPaths(models, stage, outputDir, unwritable) ==>
      RunModels(models, stage, outputDir, unwritable, ls).fx.files[p] == ls.fx.files[p]
    decreases |models|
  {
    if models != [] {
      var init := models[..|models| - 1];
      RunFilesOrigin(init, stage, outputDir, unwritable, ls);
      StepFiles(RunModels(init, stage, outputDir, unwritable, ls), models[|models| - 1], stage, outputDir, unwritable);
      WrittenPathsSnoc(models, stage, outputDir, unwritable);
    } else {
      assert WrittenPaths(models, stage, outputDir, unwritable) == {};
    }
  }

  /** The file of a fully successful model holds its result, dumped with indent 4,
      unless a later fully successful model writes the same path: the last one wins. */
  lemma {:induction false} RunFilesWritten(models: seq<ModelTuple>, stage: Stage, outputDir: string, unwritable: map<string, string>, ls: LoopState, i: nat)
    requires i < |models| && FullSuccess(models[i], stage, outputDir, unwritable)
    requires forall j :: i < j < |models| && FullSuccess(models[j], stage, outputDir, unwritable) ==>
      ArtifactPath(outputDir, stage, models[j].name) != ArtifactPath(outputDir, stage, models[i].name)
    ensures var files := RunModels(models, stage, outputDir, unwritable, ls).fx.files;
      var p := ArtifactPath(outputDir, stage, models[i].name);
      p in files && files[p] == Artifact(models[i].grader(StagePayload(stage)).result, 4)
    decreases |models|
  {
    var init := models[..|models| - 1];
    if i < |models| - 1 {
      assert init[i] == models[i];
      forall j | i < j < |init| && FullSuccess(init[j], stage, outputDir, unwritable)
        ensures ArtifactPath(outputDir, stage, init[j].name) != ArtifactPath(outputDir, stage, init[i].name)
      {
        assert init[j] == models[j];
      }
      RunFilesWritten(init, stage, outputDir, unwritable, ls, i);
    }
    StepFiles(RunModels(init, stage, outputDir, unwritable, ls), models[|models| - 1], stage, outputDir, unwritable);
  }

  /** "All models failed" is logged exactly when no invoke returned. */
  lemma AllFailedIffNoneReturned(models: seq<ModelTuple>, stage: Stage, outputDir: string, unwritable: map<string, string>, fx: Effects)
    ensures var final := RunModels(models, stage, outputDir, unwritable, LoopState(map[], fx));
      final.results == map[] <==> forall i :: 0 <= i < |models| ==> models[i].grader(StagePayload(stage)).Raised?
    ensures Evaluate(models, stage, outputDir, unwritable, fx).log ==
      RunModels(models, stage, outputDir, unwritable, LoopState(map[], fx)).fx.log +
      (if forall i :: 0 <= i < |models| ==> models[i].grader(StagePayload(stage)).Raised? then [AllFailedMessage(stage.jobId)] else [])
  {
    var ls := LoopState(map[], fx);
    var final := RunModels(models, stage, outputDir, unwritable, ls);
    RunResultsKeys(models, stage, outputDir, unwritable, ls);
    if forall i :: 0 <= i < |models| ==> models[i].grader(StagePayload(stage)).Raised? {
      assert ReturnedNames(models, stage) == {};
      assert final.results.Keys == {};
    } else {
      var i :| 0 <= i < |models| && !models[i].grader(StagePayload(stage)).Raised?;
      assert models[i].name in ReturnedNames(models, stage);
      assert models[i].name in final.results;
    }
  }

  /** The lines one model adds to the log: its exception's message, or the write's
      error message when its file cannot be written; none when both succeed. */
  function ErrorLine(m: ModelTuple, stage: Stage, outputDir: string, unwritable: map<string, string>): seq<string> {
    match m.grader(StagePayload(stage))
    case Raised(e) => [ErrorMessage(m.name, stage.jobId, e)]
    case Returned(_) =>
      var path := ArtifactPath(outputDir, stage, m.name);
      if path in unwritable then [ErrorMessage(m.name, stage.jobId, unwritable[path])] else []
  }

  /** The error lines of the models, in invocation order. */
  function ErrorLines(models: seq<ModelTuple>, stage: Stage, outputDir: string, unwritable: map<string, string>): seq<string>
    decreases |models|
  {
    if models == [] then []
    else ErrorLines(models[..|models| - 1], stage, outputDir, unwritable) + ErrorLine(models[|models| - 1], stage, outputDir, unwritable)
  }

  /** The loop adds to the log exactly the models' error lines, in invocation order:
      one per model that raised or whose file could not be written. */
  lemma {:induction false} RunLog(models: seq<ModelTuple>, stage: Stage, outputDir: string, unwritable: map<string, string>, ls: LoopState)
    ensures RunModels(models, stage, outputDir, unwritable, ls).fx.log == ls.fx.log + ErrorLines(models, stage, outputDir, unwritable)
    decreases |models|
  {
    if models != [] {
      RunLog(models[..|models| - 1], stage, outputDir, unwritable, ls);
    }
  }

  /** When every model raises, the error lines are one per model, each carrying that
      model's exception message. */
  lemma {:induction false} AllRaisedLines(models: seq<ModelTuple>, stage: Stage, outputDir: string, unwritable: map<string, string>)
    requires forall i :: 0 <= i < |models| ==> models[i].grader(StagePayload(stage)).Raised?
    ensures |ErrorLines(models, stage, outputDir, unwritable)| == |models|
    ensures forall i :: 0 <= i < |models| ==>
      ErrorLines(models, stage, outputDir, unwritable)[i] ==
      ErrorMessage(models[i].name, stage.jobId, models[i].grader(StagePayload(stage)).message)
    decreases |models|
  {
    if models != [] {
      var init := models[..|models| - 1];
      assert forall i :: 0 <= i < |init| ==> init[i] == models[i];
      AllRaisedLines(init, stage, outputDir, unwritable);
    }
  }

  /** When every model fails there is no file written, no sleep, and one error line
      per model followed by the "All models failed" line. */
  lemma AllFailedWritesNothing(models: seq<ModelTuple>, stage: Stage, outputDir: string, unwritable: map<string, string>, fx: Effects)
    requires forall i :: 0 <= i < |models| ==> models[i].grader(StagePayload(stage)).Raised?
    ensures Evaluate(models, stage, outputDir, unwritable, fx).files == fx.files
    ensures Evaluate(models, stage, outputDir, unwritable, fx).sleeps == fx.sleeps
    ensures Evaluate(models, stage, outputDir, unwritable, fx).log ==
      fx.log + ErrorLines(models, stage, outputDir, unwritable) + [AllFailedMessage(stage.jobId)]
    ensures |ErrorLines(models, stage, outputDir, unwritable)| == |models|
    ensures forall i :: 0 <= i < |models| ==>
      ErrorLines(models, stage, outputDir, unwritable)[i] ==
      ErrorMessage(models[i].name, stage.jobId, models[i].grader(StagePayload(stage)).message)
  {
    var ls := LoopState(map[], fx);
    AllFailedIffNoneReturned(models, stage, outputDir, unwritable, fx);
    RunLog(models, stage, outputDir, unwritable, ls);
    AllRaisedLines(models, stage, outputDir, unwritable);
    RunSleeps(models, stage, outputDir, unwritable, ls);
    NoSuccessCountsZero(models, stage, outputDir, unwritable);
    RunFilesOrigin(models, stage, outputDir, unwritable, ls);
    assert WrittenPaths(models, stage, outputDir, unwritable) == {};
    var files := RunModels(models, stage, outputDir, unwritable, ls).fx.files;
    assert files.Keys == fx.files.Keys;
  }

  lemma {:induction false} NoSuccessCountsZero(models: seq<ModelTuple>, stage: Stage, outputDir: string, unwritable: map<string, string>)
    requires forall i :: 0 <= i < |models| ==> !FullSuccess(models[i], stage, outputDir, unwritable)
    ensures CountFullSuccesses(models, stage, outputDir, unwritable) == 0
    decreases |models|
  {
    if models != [] {
      assert forall i :: 0 <= i < |models[1..]| ==> models[1..][i] == models[i + 1];
      NoSuccessCountsZero(models[1..], stage, outputDir, unwritable);
    }
  }

  /** The whole call: every model invoked with the payload, one sleep per full
      success, and each fully successful model's file holding its result (last wins). */
  lemma EvaluateEffects(models: seq<ModelTuple>, stage: Stage, outputDir: string, unwritable: map<string, string>, fx: Effects)
    ensures Evaluate(models, stage, outputDir, unwritable, fx).calls == fx.calls + ExpectedCalls(models, StagePayload(stage))
    ensures Evaluate(models, stage, outputDir, unwritable, fx).sleeps == fx.sleeps + CountFullSuccesses(models, stage, outputDir, unwritable)
    ensures forall i :: (0 <= i < |models| && FullSuccess(models[i], stage, outputDir, unwritable) &&
      (forall j :: i < j < |models| && FullSuccess(models[j], stage, outputDir, unwritable) ==> models[j].name != models[i].name)) ==>
      var p := ArtifactPath(outputDir, stage, models[i].name);
      p in Evaluate(models, stage, outputDir, unwritable, fx).files &&
      Evaluate(models, stage, outputDir, unwritable, fx).files[p] == Artifact(models[i].grader(StagePayload(stage)).result, 4)
    ensures Evaluate(models, stage, outputDir, unwritable, fx).log ==
      fx.log + ErrorLines(models, stage, outputDir, unwritable) +
      (if forall i :: 0 <= i < |models| ==> models[i].grader(StagePayload(stage)).Raised? then [AllFailedMessage(stage.jobId)] else [])
  {
    var ls := LoopState(map[], fx);
    RunLog(models, stage, outputDir, unwritable, ls);
    AllFailedIffNoneReturned(models, stage, outputDir, unwritable, fx);
    RunCalls(models, stage, outputDir, unwritable, ls);
    RunSleeps(models, stage, outputDir, unwritable, ls);
    forall i | 0 <= i < |models| && FullSuccess(models[i], stage, outputDir, unwritable) &&
      (forall j :: i < j < |models| && FullSuccess(models[j], stage, outputDir, unwritable) ==> models[j].name != models[i].name)
      ensures var p := ArtifactPath(outputDir, stage, models[i].name);
        p in Evaluate(models, stage, outputDir, unwritable, fx).files &&
        Evaluate(models, stage, outputDir, unwritable, fx).files[p] == Artifact(models[i].grader(StagePayload(stage)).result, 4)
    {
      ArtifactNameInjective(stage, outputDir);
      RunFilesWritten(models, stage, outputDir, unwritable, ls, i);
    }
  }

  /** Different model names give different artifact paths. */
  lemma ArtifactNameInjective(stage: Stage, outputDir: string)
    ensures forall a, b :: ArtifactPath(outputDir, stage, a) == ArtifactPath(outputDir, stage, b) ==> a == b
  {
    forall a, b | ArtifactPath(outputDir, stage, a) == ArtifactPath(outputDir, stage, b)
      ensures a == b
    {
      var na, nb := ArtifactName(stage, a), ArtifactName(stage, b);
      var pre := match stage case JdStage(_, jobId) => jobId + "_" case CvStage(_, jobId, _, cvId) => jobId + "_" + cvId + "_";
      assert na == pre + a + ".json" && nb == pre + b + ".json";
      assert na[0] == nb[0] by {
        assert |pre| > 0 && na[0] == pre[0] && nb[0] == pre[0];
      }
      JoinInjective(outputDir, na, nb);
      assert |a| == |b|;
      assert a == na[|pre|..|pre| + |a|];
    }
  }

  lemma JoinInjective(dir: string, a: string, b: string)
    requires PathJoin(dir, a) == PathJoin(dir, b)
    requires (|a| > 0 && a[0] == '/') == (|b| > 0 && b[0] == '/')
    ensures a == b
  {
    if !(|a| > 0 && a[0] == '/') {
      if dir == "" || dir[|dir| - 1] == '/' {
        assert a == (dir + a)[|dir|..];
        assert b == (dir + b)[|dir|..];
      } else {
        assert a == (dir + "/" + a)[|dir| + 1..];
        assert b == (dir + "/" + b)[|dir| + 1..];
      }
    }
  }
}
