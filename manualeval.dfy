/** research/manual_eval_ui/main.py: a review screen that walks through a table of
    candidate/job pairs on which the evaluating models disagree, shows each pair
    with both models' stored reasoning, and records the reviewer's decision in the
    row before moving to the next.  Also the markdown renderer for one stored
    evaluation record. */
module ManualEval {
  import opened Wrappers
  import opened PyText
  import opened PyJson
  import opened Frames
  import opened Markdown

  // ---------------------------------------------------------------------------
  // format_json_to_markdown

  // The fixed text of the rendering.
  const ReasonsHeading := "  - **Reasons:**\n"
  const ReasonsTitle := "**Reasons:**\n"
  const AssessmentTitle := "# Assessment:\n\n"
  const SuitabilityLabel := "- **Suitability:** "
  const MissingHeading := "  - **Missing Skills:**\n"
  const ConcernsHeading := "  - **Potential Concerns:**\n"
  const StrengthsHeading := "  - **Strengths:**\n"
  const ScoresHeading := "\n## Scores:\n\n"
  const ExplicitMissingHeading := "- **Explicit Missing Skills:**\n"
  const InferredHeading := "- **Inferred Experiences:**\n"
  const JobHeading := "\n## Job Description Analysis:\n"
  const EssentialHeading := "- **Essential Tech Skills:**\n"
  const AdvantageousHeading := "- **Advantageous Skills:**\n"
  const SoftSkillsHeading := "- **Soft Skills:**\n"
  const LevelLabel := "- **Level of Experience:** "
  const EducationHeading := "- **Education:**\n"
  const AssessmentItem := "    - "
  const AnalysisItem := "  - "

  /** `md` followed by a line `prefix + str(item)` per item of `container[key]`. */
  function ListOf(md: string, container: Json, key: string, prefix: string): (r: Result<string, PyError>)
    ensures r.Ok? ==> md <= r.value
    ensures r.Ok? ==> Subscript(container, key).Ok?
  {
    var v :- Subscript(container, key);
    var items :- Iterate(v);
    Ok(md + Bullets(prefix, Strs(items)))
  }

  /** `f"{skill}: {inference}"` for each entry of a dict. */
  function Entries(ms: seq<(string, Json)>): (r: seq<string>)
    ensures |r| == |ms| && forall i :: 0 <= i < |ms| ==> r[i] == ms[i].0 + ": " + Str(ms[i].1)
  {
    seq(|ms|, i requires 0 <= i < |ms| => ms[i].0 + ": " + Str(ms[i].1))
  }

  /** The assessment section, from `data["assessment"]`. */
  function AssessmentPart(assessment: Json): (r: Result<string, PyError>)
    ensures r.Ok? ==> (Subscript(assessment, "suitability").Ok? &&
      AssessmentTitle + SuitabilityLabel + Str(Subscript(assessment, "suitability").value) + "\n" <= r.value)
  {
    var suitability :- Subscript(assessment, "suitability");
    AssessmentLists(AssessmentTitle + SuitabilityLabel + Str(suitability) + "\n", assessment)
  }

  /** The four lists of the assessment, after its suitability line. */
  function AssessmentLists(md: string, assessment: Json): (r: Result<string, PyError>)
    ensures r.Ok? ==> md <= r.value
  {
    var reasons :- ListOf(md + ReasonsHeading, assessment, "reasons", AssessmentItem);
    var missing :- ListOf(reasons + MissingHeading, assessment, "missing_skills", AssessmentItem);
    ConcernsAndStrengths(missing, assessment)
  }

  function ConcernsAndStrengths(md: string, assessment: Json): (r: Result<string, PyError>)
    ensures r.Ok? ==> md <= r.value
  {
    var concerns :- ListOf(md + ConcernsHeading, assessment, "potential_concerns", AssessmentItem);
    ListOf(concerns + StrengthsHeading, assessment, "strengths", AssessmentItem)
  }

  /** One row of the scores table: the category, its original and its recalibrated score. */
  function ScoreRow(original: Json, recalibrated: Json, category: string, key: string): Result<seq<Json>, PyError> {
    var o :- Subscript(original, key);
    var r :- Subscript(recalibrated, key);
    Ok([JStr(category), o, r])
  }

  const ScoresHeaderRow := [JStr("Category"), JStr("Original Score"), JStr("Recalibrated Score")]

  /** The scores section; the table itself is rendered by `tabulate`, a parameter here.
      The lookups happen in the order the source's list display evaluates them. */
  function ScoresPart(md: string, data: Json, tabulate: seq<seq<Json>> -> string): (r: Result<string, PyError>)
    ensures r.Ok? ==> md <= r.value
  {
    var evaluation :- Subscript(data, "resume_evaluation");
    var original :- Subscript(evaluation, "original_scores");
    var technicalOriginal :- Subscript(original, "technical_skills");
    var recalibrated :- Subscript(data, "recalibrated_scores");
    var technicalRecalibrated :- Subscript(recalibrated, "technical_skills");
    var soft :- ScoreRow(original, recalibrated, "Soft Skills", "soft_skills");
    var experience :- ScoreRow(original, recalibrated, "Experience", "experience");
    var education :- ScoreRow(original, recalibrated, "Education", "education");
    var table := [ScoresHeaderRow, [JStr("Technical Skills"), technicalOriginal, technicalRecalibrated], soft, experience, education];
    Ok(md + ScoresHeading + tabulate(table) + "\n\n")
  }

  /** The explicit missing skills and the inferred experiences, one line per entry. */
  function ReasonsPart(md: string, data: Json): (r: Result<string, PyError>)
    ensures r.Ok? ==> md <= r.value
  {
    var evaluation :- Subscript(data, "resume_evaluation");
    var missing :- ListOf(md + ReasonsTitle + ExplicitMissingHeading, evaluation, "missing_skills", AnalysisItem);
    var deeper :- Subscript(data, "deeper_analysis");
    var inferred :- Subscript(deeper, "inferred_experiences");
    var entries :- Items(inferred);
    Ok(missing + InferredHeading + Bullets(AnalysisItem, Entries(entries)))
  }

  /** The essential and advantageous technical skills of the job description analysis. */
  function JobSkillsPart(md: string, skills: Json): (r: Result<string, PyError>)
    ensures r.Ok? ==> md <= r.value
  {
    var essential :- ListOf(md + JobHeading + EssentialHeading, skills, "essential", AnalysisItem);
    ListOf(essential + AdvantageousHeading, skills, "advantageous", AnalysisItem)
  }

  /** The job description analysis section. */
  function JobPart(md: string, data: Json): (r: Result<string, PyError>)
    ensures r.Ok? ==> md <= r.value
  {
    var analysis :- Subscript(data, "job_description_analysis");
    var skills :- Subscript(analysis, "technical_skills");
    var technical :- JobSkillsPart(md, skills);
    var soft :- ListOf(technical + SoftSkillsHeading, analysis, "soft_skills", AnalysisItem);
    var level :- Subscript(analysis, "level_of_exp");
    ListOf(soft + LevelLabel + Str(level) + "\n" + EducationHeading, analysis, "education", AnalysisItem)
  }

  /** What `format_json_to_markdown(json_data)` returns, or the exception it raises;
      nothing is caught, so undecodable text raises too. */
  function JsonMarkdown(text: JsonText, tabulate: seq<seq<Json>> -> string): Result<string, PyError> {
    var data :- Loads(text);
    var assessment :- Subscript(data, "assessment");
    var opening :- AssessmentPart(assessment);
    var scores :- ScoresPart(opening, data, tabulate);
    var reasons :- ReasonsPart(scores, data);
    JobPart(reasons, data)
  }

  /** The loop `for x in container[key]: markdown += f"{prefix}{x}\n"`. */
  method AppendList(md: string, container: Json, key: string, prefix: string) returns (r: Result<string, PyError>)
    ensures r == ListOf(md, container, key, prefix)
  {
    var v :- Subscript(container, key);
    var items :- Iterate(v);
    var markdown := AppendBullets(md, prefix, Strs(items));
    return Ok(markdown);
  }

  method AppendAssessment(assessment: Json) returns (r: Result<string, PyError>)
    ensures r == AssessmentPart(assessment)
  {
    var markdown := AssessmentTitle;
    var suitability :- Subscript(assessment, "suitability");
    markdown := markdown + SuitabilityLabel + Str(suitability) + "\n";
    markdown := markdown + ReasonsHeading;
    markdown :- AppendList(markdown, assessment, "reasons", AssessmentItem);
    markdown := markdown + MissingHeading;
    markdown :- AppendList(markdown, assessment, "missing_skills", AssessmentItem);
    assert AssessmentPart(assessment) == ConcernsAndStrengths(markdown, assessment);
    markdown := markdown + ConcernsHeading;
    markdown :- AppendList(markdown, assessment, "potential_concerns", AssessmentItem);
    markdown := markdown + StrengthsHeading;
    markdown :- AppendList(markdown, assessment, "strengths", AssessmentItem);
    return Ok(markdown);
  }

  method AppendReasons(md: string, data: Json) returns (r: Result<string, PyError>)
    ensures r == ReasonsPart(md, data)
  {
    var markdown := md + ReasonsTitle;
    markdown := markdown + ExplicitMissingHeading;
    var evaluation :- Subscript(data, "resume_evaluation");
    markdown :- AppendList(markdown, evaluation, "missing_skills", AnalysisItem);
    markdown := markdown + InferredHeading;
    var deeper :- Subscript(data, "deeper_analysis");
    var inferred :- Subscript(deeper, "inferred_experiences");
    var entries :- Items(inferred);
    markdown := AppendBullets(markdown, AnalysisItem, Entries(entries));
    return Ok(markdown);
  }

  method AppendJob(md: string, data: Json) returns (r: Result<string, PyError>)
    ensures r == JobPart(md, data)
  {
    var markdown := md + JobHeading;
    markdown := markdown + EssentialHeading;
    var analysis :- Subscript(data, "job_description_analysis");
    var skills :- Subscript(analysis, "technical_skills");
    markdown :- AppendList(markdown, skills, "essential", AnalysisItem);
    markdown := markdown + AdvantageousHeading;
    markdown :- AppendList(markdown, skills, "advantageous", AnalysisItem);
    markdown := markdown + SoftSkillsHeading;
    markdown :- AppendList(markdown, analysis, "soft_skills", AnalysisItem);
    var level :- Subscript(analysis, "level_of_exp");
    markdown := markdown + LevelLabel + Str(level) + "\n";
    markdown := markdown + EducationHeading;
    markdown :- AppendList(markdown, analysis, "education", AnalysisItem);
    return Ok(markdown);
  }

  /** `format_json_to_markdown(json_data)`, the markdown accumulated step by step. */
  method FormatJsonToMarkdown(text: JsonText, tabulate: seq<seq<Json>> -> string) returns (r: Result<string, PyError>)
    ensures r == JsonMarkdown(text, tabulate)
  {
    var data :- Loads(text);
    var assessment :- Subscript(data, "assessment");
    var markdown :- AppendAssessment(assessment);
    markdown :- ScoresPart(markdown, data, tabulate);
    markdown :- AppendReasons(markdown, data);
    markdown :- AppendJob(markdown, data);
    return Ok(markdown);
  }

  // ---------------------------------------------------------------------------
  // Properties of the renderer

  /** The rendering opens with the title and the suitability line. */
  lemma MarkdownOpening(text: JsonText, tabulate: seq<seq<Json>> -> string)
    requires JsonMarkdown(text, tabulate).Ok?
    ensures text.parsed.Ok? && Subscript(text.parsed.value, "assessment").Ok?
    ensures Subscript(Subscript(text.parsed.value, "assessment").value, "suitability").Ok?
    ensures AssessmentTitle + SuitabilityLabel +
            Str(Subscript(Subscript(text.parsed.value, "assessment").value, "suitability").value) + "\n"
            <= JsonMarkdown(text, tabulate).value
  {
    var data := text.parsed.value;
    var assessment := Subscript(data, "assessment").value;
    var opening := AssessmentPart(assessment).value;
    var scores := ScoresPart(opening, data, tabulate).value;
    var reasons := ReasonsPart(scores, data).value;
    assert opening <= scores <= reasons <= JobPart(reasons, data).value;
  }

  /** Unlike the job-description formatter, nothing has a default: a record without an
      assessment, or an assessment without a suitability, raises a `KeyError`. */
  lemma NoDefaults(text: JsonText, tabulate: seq<seq<Json>> -> string)
    requires text.parsed.Ok? && text.parsed.value.JObj?
    ensures Lookup(text.parsed.value.members, "assessment").None? ==>
      JsonMarkdown(text, tabulate) == Err(KeyError("assessment"))
    ensures Lookup(text.parsed.value.members, "assessment").Some? &&
            Lookup(text.parsed.value.members, "assessment").value.JObj? &&
            Lookup(Lookup(text.parsed.value.members, "assessment").value.members, "suitability").None? ==>
      JsonMarkdown(text, tabulate) == Err(KeyError("suitability"))
  {
  }

  /** Every key path `format_json_to_markdown` subscripts, in the order it does. */
  const AssessmentPaths: seq<seq<string>> :=
    [["assessment", "suitability"], ["assessment", "reasons"], ["assessment", "missing_skills"],
     ["assessment", "potential_concerns"], ["assessment", "strengths"]]
  const ScorePaths: seq<seq<string>> :=
    [["resume_evaluation", "original_scores", "technical_skills"], ["recalibrated_scores", "technical_skills"],
     ["resume_evaluation", "original_scores", "soft_skills"], ["recalibrated_scores", "soft_skills"],
     ["resume_evaluation", "original_scores", "experience"], ["recalibrated_scores", "experience"],
     ["resume_evaluation", "original_scores", "education"], ["recalibrated_scores", "education"]]
  const ReasonPaths: seq<seq<string>> :=
    [["resume_evaluation", "missing_skills"], ["deeper_analysis", "inferred_experiences"]]
  const JobPaths: seq<seq<string>> :=
    [["job_description_analysis", "technical_skills", "essential"],
     ["job_description_analysis", "technical_skills", "advantageous"],
     ["job_description_analysis", "soft_skills"], ["job_description_analysis", "level_of_exp"],
     ["job_description_analysis", "education"]]
  const RequiredPaths: seq<seq<string>> := AssessmentPaths + ScorePaths + ReasonPaths + JobPaths

  lemma At2(v: Json, a: string, b: string)
    requires Subscript(v, a).Ok? && Subscript(Subscript(v, a).value, b).Ok?
    ensures At(v, [a, b]) == Subscript(Subscript(v, a).value, b)
  {
    var x := Subscript(v, a).value;
    assert [a, b][1..] == [b] && [b][1..] == [];
    assert At(v, [a, b]) == At(x, [b]);
    assert At(x, [b]) == At(Subscript(x, b).value, []);
  }

  lemma At3(v: Json, a: string, b: string, c: string)
    requires Subscript(v, a).Ok? && Subscript(Subscript(v, a).value, b).Ok?
    requires Subscript(Subscript(Subscript(v, a).value, b).value, c).Ok?
    ensures At(v, [a, b, c]) == Subscript(Subscript(Subscript(v, a).value, b).value, c)
  {
    assert [a, b, c][1..] == [b, c];
    At2(Subscript(v, a).value, b, c);
  }

  lemma AssessmentKeys(data: Json)
    requires Subscript(data, "assessment").Ok? && AssessmentPart(Subscript(data, "assessment").value).Ok?
    ensures forall p :: p in AssessmentPaths ==> At(data, p).Ok?
  {
    var a := Subscript(data, "assessment").value;
    var opening := AssessmentTitle + SuitabilityLabel + Str(Subscript(a, "suitability").value) + "\n";
    var reasons := ListOf(opening + ReasonsHeading, a, "reasons", AssessmentItem).value;
    var missing := ListOf(reasons + MissingHeading, a, "missing_skills", AssessmentItem).value;
    var concerns := ListOf(missing + ConcernsHeading, a, "potential_concerns", AssessmentItem).value;
    assert ListOf(concerns + StrengthsHeading, a, "strengths", AssessmentItem).Ok?;
    At2(data, "assessment", "suitability");
    At2(data, "assessment", "reasons");
    At2(data, "assessment", "missing_skills");
    At2(data, "assessment", "potential_concerns");
    At2(data, "assessment", "strengths");
  }

  lemma ScoreKeys(md: string, data: Json, tabulate: seq<seq<Json>> -> string)
    requires ScoresPart(md, data, tabulate).Ok?
    ensures forall p :: p in ScorePaths ==> At(data, p).Ok?
  {
    var e := Subscript(data, "resume_evaluation").value;
    var o := Subscript(e, "original_scores").value;
    var r := Subscript(data, "recalibrated_scores").value;
    assert ScoreRow(o, r, "Soft Skills", "soft_skills").Ok?;
    assert ScoreRow(o, r, "Experience", "experience").Ok?;
    assert ScoreRow(o, r, "Education", "education").Ok?;
    At3(data, "resume_evaluation", "original_scores", "technical_skills");
    At3(data, "resume_evaluation", "original_scores", "soft_skills");
    At3(data, "resume_evaluation", "original_scores", "experience");
    At3(data, "resume_evaluation", "original_scores", "education");
    At2(data, "recalibrated_scores", "technical_skills");
    At2(data, "recalibrated_scores", "soft_skills");
    At2(data, "recalibrated_scores", "experience");
    At2(data, "recalibrated_scores", "education");
  }

  lemma ReasonKeys(md: string, data: Json)
    requires ReasonsPart(md, data).Ok?
    ensures forall p :: p in ReasonPaths ==> At(data, p).Ok?
  {
    var e := Subscript(data, "resume_evaluation").value;
    assert ListOf(md + ReasonsTitle + ExplicitMissingHeading, e, "missing_skills", AnalysisItem).Ok?;
    At2(data, "resume_evaluation", "missing_skills");
    At2(data, "deeper_analysis", "inferred_experiences");
  }

  lemma JobKeys(md: string, data: Json)
    requires JobPart(md, data).Ok?
    ensures forall p :: p in JobPaths ==> At(data, p).Ok?
  {
    var a := Subscript(data, "job_description_analysis").value;
    var skills := Subscript(a, "technical_skills").value;
    var essential := ListOf(md + JobHeading + EssentialHeading, skills, "essential", AnalysisItem).value;
    assert ListOf(essential + AdvantageousHeading, skills, "advantageous", AnalysisItem).Ok?;
    var technical := JobSkillsPart(md, skills).value;
    var soft := ListOf(technical + SoftSkillsHeading, a, "soft_skills", AnalysisItem).value;
    var level := Subscript(a, "level_of_exp").value;
    assert ListOf(soft + LevelLabel + Str(level) + "\n" + EducationHeading, a, "education", AnalysisItem).Ok?;
    At3(data, "job_description_analysis", "technical_skills", "essential");
    At3(data, "job_description_analysis", "technical_skills", "advantageous");
    At2(data, "job_description_analysis", "soft_skills");
    At2(data, "job_description_analysis", "level_of_exp");
    At2(data, "job_description_analysis", "education");
  }

  /** No lookup has a default: a record renders only when every key path the function
      subscripts is present, so a record missing any of them raises. */
  lemma EveryKeyRequired(text: JsonText, tabulate: seq<seq<Json>> -> string)
    requires JsonMarkdown(text, tabulate).Ok?
    ensures text.parsed.Ok?
    ensures forall p :: p in RequiredPaths ==> At(text.parsed.value, p).Ok?
  {
    var data := text.parsed.value;
    var assessment := Subscript(data, "assessment").value;
    var opening := AssessmentPart(assessment).value;
    var scores := ScoresPart(opening, data, tabulate).value;
    var reasons := ReasonsPart(scores, data).value;
    AssessmentKeys(data);
    ScoreKeys(opening, data, tabulate);
    ReasonKeys(scores, data);
    JobKeys(reasons, data);
  }

  function StrList(xs: seq<string>): Json {
    JArr(seq(|xs|, i requires 0 <= i < |xs| => JStr(xs[i])))
  }

  /** The list under `key` of an object whose entry for `key` is a list of strings. */
  lemma ListOfStrings(md: string, ms: seq<(string, Json)>, key: string, xs: seq<string>, prefix: string)
    requires Lookup(ms, key) == Some(StrList(xs))
    ensures ListOf(md, JObj(ms), key, prefix) == Ok(md + Bullets(prefix, xs))
  {
    assert Strs(StrList(xs).items) == xs;
  }

  /** Any assessment object whose lists are lists of strings renders its reasons,
      missing skills, potential concerns and strengths, each under its heading with one
      line per item in list order. */
  lemma AssessmentListing(md: string, ms: seq<(string, Json)>, reasons: seq<string>, missing: seq<string>,
                          concerns: seq<string>, strengths: seq<string>)
    requires Lookup(ms, "reasons") == Some(StrList(reasons))
    requires Lookup(ms, "missing_skills") == Some(StrList(missing))
    requires Lookup(ms, "potential_concerns") == Some(StrList(concerns))
    requires Lookup(ms, "strengths") == Some(StrList(strengths))
    ensures AssessmentLists(md, JObj(ms)) ==
      Ok(md + ReasonsHeading + Bullets(AssessmentItem, reasons) +
         MissingHeading + Bullets(AssessmentItem, missing) +
         ConcernsHeading + Bullets(AssessmentItem, concerns) +
         StrengthsHeading + Bullets(AssessmentItem, strengths))
  {
    ListOfStrings(md + ReasonsHeading, ms, "reasons", reasons, AssessmentItem);
    var r := md + ReasonsHeading + Bullets(AssessmentItem, reasons);
    ListOfStrings(r + MissingHeading, ms, "missing_skills", missing, AssessmentItem);
    var m := r + MissingHeading + Bullets(AssessmentItem, missing);
    assert AssessmentLists(md, JObj(ms)) == ConcernsAndStrengths(m, JObj(ms));
    ConcernsListing(m, ms, concerns, strengths);
  }

  lemma ConcernsListing(md: string, ms: seq<(string, Json)>, concerns: seq<string>, strengths: seq<string>)
    requires Lookup(ms, "potential_concerns") == Some(StrList(concerns))
    requires Lookup(ms, "strengths") == Some(StrList(strengths))
    ensures ConcernsAndStrengths(md, JObj(ms)) ==
      Ok(md + ConcernsHeading + Bullets(AssessmentItem, concerns) + StrengthsHeading + Bullets(AssessmentItem, strengths))
  {
    ListOfStrings(md + ConcernsHeading, ms, "potential_concerns", concerns, AssessmentItem);
    var c := md + ConcernsHeading + Bullets(AssessmentItem, concerns);
    ListOfStrings(c + StrengthsHeading, ms, "strengths", strengths, AssessmentItem);
  }

  /** An assessment object whose suitability is a string and whose lists are lists of
      strings renders as the suitability line followed by the four lists, in order. */
  lemma AssessmentRendering(ms: seq<(string, Json)>, suitability: string, reasons: seq<string>, missing: seq<string>,
                            concerns: seq<string>, strengths: seq<string>)
    requires Lookup(ms, "suitability") == Some(JStr(suitability))
    requires Lookup(ms, "reasons") == Some(StrList(reasons))
    requires Lookup(ms, "missing_skills") == Some(StrList(missing))
    requires Lookup(ms, "potential_concerns") == Some(StrList(concerns))
    requires Lookup(ms, "strengths") == Some(StrList(strengths))
    ensures AssessmentPart(JObj(ms)) ==
      Ok(AssessmentTitle + SuitabilityLabel + suitability + "\n" +
         ReasonsHeading + Bullets(AssessmentItem, reasons) +
         MissingHeading + Bullets(AssessmentItem, missing) +
         ConcernsHeading + Bullets(AssessmentItem, concerns) +
         StrengthsHeading + Bullets(AssessmentItem, strengths))
  {
    var opening := AssessmentTitle + SuitabilityLabel + suitability + "\n";
    assert Subscript(JObj(ms), "suitability") == Ok(JStr(suitability));
    assert AssessmentPart(JObj(ms)) == AssessmentLists(opening, JObj(ms));
    AssessmentListing(opening, ms, reasons, missing, concerns, strengths);
  }

  /** The inferred experiences come out one "  - skill: inference" line per dict entry:
      reading the block back gives every entry once, in dict order. */
  lemma InferredRoundTrip(ms: seq<(string, Json)>)
    requires forall i :: 0 <= i < |ms| ==> '\n' !in ms[i].0 + ": " + Str(ms[i].1)
    ensures ParseBullets(AnalysisItem, Bullets(AnalysisItem, Entries(ms))) == Some(Entries(ms))
  {
    ParseBulletsOfBullets(AnalysisItem, Entries(ms));
  }

  // ---------------------------------------------------------------------------
  // The stored reasoning of each model

  datatype Reviewer = Llama3 | Gpt4o

  const NotebooksDir := "../notebooks/"

  function OutputDir(m: Reviewer): string {
    match m
    case Llama3 => "output_20240831_0124"
    case Gpt4o => "output_20240831_1144"
  }

  function Suffix(m: Reviewer): string {
    match m
    case Llama3 => "_groq.json"
    case Gpt4o => "_gpt4o.json"
  }

  /** The file name a model's reasoning for a pair is stored under. */
  function ReasoningName(m: Reviewer, jobId: string, cvId: string): string {
    jobId + "_" + cvId + Suffix(m)
  }

  function ReasoningPath(m: Reviewer, jobId: string, cvId: string): string {
    PathJoin(NotebooksDir, OutputDir(m) + "/" + ReasoningName(m, jobId, cvId))
  }

  /** A file as the reader finds it: JSON text, or a file that cannot be opened. */
  datatype StoredFile = JsonFile(text: JsonText) | Unopenable(reason: string)

  /** What a reasoning pane shows: the pretty-printed record (`json.dumps(data,
      indent=2)`, whose layout is not modelled), or a message. */
  datatype ReasoningView = Dumped(data: Json) | Message(text: string)

  const NotAvailable := "Reasoning not available"
  const LoadErrorPrefix := "Error loading reasoning: "

  /** `load_llama3_reasoning` and `load_gpt4o_reasoning`: an absent file, a file that
      cannot be read or decoded, and a readable one. */
  function LoadReasoning(m: Reviewer, jobId: string, cvId: string, files: map<string, StoredFile>): (r: ReasoningView)
    ensures r == Message(NotAvailable) <==> ReasoningPath(m, jobId, cvId) !in files
    ensures r.Dumped? <==> (ReasoningPath(m, jobId, cvId) in files &&
      files[ReasoningPath(m, jobId, cvId)].JsonFile? && files[ReasoningPath(m, jobId, cvId)].text.parsed.Ok?)
    ensures r.Dumped? ==> r.data == files[ReasoningPath(m, jobId, cvId)].text.parsed.value
    ensures r.Message? && r != Message(NotAvailable) ==> LoadErrorPrefix <= r.text
  {
    var path := ReasoningPath(m, jobId, cvId);
    if path !in files then Message(NotAvailable)
    else
      match files[path]
      case Unopenable(reason) => Message(LoadErrorPrefix + reason)
      case JsonFile(t) =>
        match t.parsed
        case Err(e) => Message(LoadErrorPrefix + e)
        case Ok(data) => Dumped(data)
  }

  /** The two models' reasoning for a pair lives in different files. */
  lemma ReasoningPathsDiffer(jobId: string, cvId: string)
    ensures ReasoningPath(Llama3, jobId, cvId) != ReasoningPath(Gpt4o, jobId, cvId)
  {
    assert |ReasoningPath(Llama3, jobId, cvId)| + 1 == |ReasoningPath(Gpt4o, jobId, cvId)|;
  }

  /** A file name joined under `dir + sub`, a directory written with a trailing slash
      followed by a relative sub-directory without one. */
  lemma {:induction false} JoinUnder(dir: string, sub: string, name: string)
    requires dir != [] && dir[|dir| - 1] == '/' && sub != [] && '/' !in sub && '/' !in name
    ensures PathJoin(dir, sub + "/" + name) == (dir + sub) + "/" + name
    ensures BaseName(PathJoin(dir, sub + "/" + name)) == name
  {
    assert (sub + "/" + name)[0] == sub[0];
    assert dir + (sub + "/" + name) == (dir + sub) + "/" + name;
    var d := dir + sub;
    assert d[|d| - 1] == sub[|sub| - 1];
    BaseNameOfJoin(d, name);
  }

  /** The reasoning file sits in the model's output directory under its own name. */
  lemma ReasoningPathNames(m: Reviewer, jobId: string, cvId: string)
    requires '/' !in jobId && '/' !in cvId
    ensures ReasoningPath(m, jobId, cvId) == NotebooksDir + OutputDir(m) + "/" + ReasoningName(m, jobId, cvId)
    ensures BaseName(ReasoningPath(m, jobId, cvId)) == ReasoningName(m, jobId, cvId)
  {
    var name := ReasoningName(m, jobId, cvId);
    assert '/' !in Suffix(m);
    assert '/' !in OutputDir(m);
    assert '/' !in name;
    JoinUnder(NotebooksDir, OutputDir(m), name);
  }

  /** The file name begins with the job id and an underscore: its part before the
      first '_' is the job id exactly when the job id holds no '_'. */
  lemma ReasoningNameStartsWithJob(m: Reviewer, jobId: string, cvId: string)
    ensures SplitHead(ReasoningName(m, jobId, cvId), '_') == jobId <==> '_' !in jobId
  {
    NameStartsWith(jobId, cvId, Suffix(m));
  }

  lemma NameStartsWith(jobId: string, cvId: string, suffix: string)
    ensures SplitHead(jobId + "_" + cvId + suffix, '_') == jobId <==> '_' !in jobId
  {
    SplitHeadOfConcat(jobId, cvId + suffix, '_');
    assert jobId + "_" + cvId + suffix == jobId + ['_'] + (cvId + suffix);
  }

  // ---------------------------------------------------------------------------
  // load_entry

  /** The seven values shown for one pair. */
  datatype EntryView = EntryView(jobTitle: Cell, jobDescription: Cell, cvCategory: Cell, cv: Cell,
                                 verdicts: string, llama3: ReasoningView, gpt4o: ReasoningView)

  /** `entry[name]` for a row of the table. */
  function Field(columns: seq<string>, row: seq<Cell>, name: string): (r: Result<Cell, PyError>)
    ensures r.Err? <==> name !in columns
    ensures r.Err? ==> r.error == KeyError(name)
    ensures r.Ok? ==> r.value == CellAt(row, IndexOf(columns, name).value)
  {
    match IndexOf(columns, name)
    case None => Err(KeyError(name))
    case Some(k) => Ok(CellAt(row, k))
  }

  const OutOfBounds := IndexError("single positional indexer is out-of-bounds")

  /** The model verdict summary. */
  function Verdicts(columns: seq<string>, row: seq<Cell>): Result<string, PyError> {
    var gpt4o :- Field(columns, row, "gpt4o");
    var llama70 :- Field(columns, row, "llama3_70b");
    var anthropic :- Field(columns, row, "anthropic");
    var gpt :- Field(columns, row, "gpt");
    var llama3 :- Field(columns, row, "llama3");
    Ok("GPT-4o: " + CellStr(gpt4o) + "\nLlama3-70b: " + CellStr(llama70) + "\n\nAnthropic: " + CellStr(anthropic) +
       "\nGPT-3.5-turbo: " + CellStr(gpt) + "\nLlama3: " + CellStr(llama3))
  }

  /** The verdict columns, and the label each is shown under, in display order. */
  const VerdictColumns := ["gpt4o", "llama3_70b", "anthropic", "gpt", "llama3"]
  const VerdictLabels := ["GPT-4o: ", "Llama3-70b: ", "Anthropic: ", "GPT-3.5-turbo: ", "Llama3: "]

  /** The verdict text needs all five verdict columns. */
  lemma VerdictsOk(columns: seq<string>, row: seq<Cell>)
    ensures Verdicts(columns, row).Ok? <==> forall i :: 0 <= i < 5 ==> VerdictColumns[i] in columns
  {
    var vc := VerdictColumns;
    assert vc[0] == "gpt4o" && vc[1] == "llama3_70b" && vc[2] == "anthropic" && vc[3] == "gpt" && vc[4] == "llama3";
    var all := vc[0] in columns && vc[1] in columns && vc[2] in columns && vc[3] in columns && vc[4] in columns;
    if all {
      forall i | 0 <= i < 5
        ensures vc[i] in columns
      {
        if i == 0 {} else if i == 1 {} else if i == 2 {} else if i == 3 {} else {}
      }
    }
  }

  /** The cells of the verdict columns, in display order. */
  function VerdictCells(columns: seq<string>, row: seq<Cell>): (r: seq<Cell>)
    requires forall i :: 0 <= i < 5 ==> VerdictColumns[i] in columns
    ensures |r| == 5
  {
    seq(5, i requires 0 <= i < 5 => CellAt(row, IndexOf(columns, VerdictColumns[i]).value))
  }

  /** The verdict f-string over the five cells. */
  function VerdictText(c: seq<Cell>): string
    requires |c| == 5
  {
    "GPT-4o: " + CellStr(c[0]) + "\nLlama3-70b: " + CellStr(c[1]) + "\n\nAnthropic: " + CellStr(c[2]) +
    "\nGPT-3.5-turbo: " + CellStr(c[3]) + "\nLlama3: " + CellStr(c[4])
  }

  /** With every verdict column present, the verdict text is made of the row's cells in
      those columns, in display order. */
  lemma VerdictsText(columns: seq<string>, row: seq<Cell>)
    requires forall i :: 0 <= i < 5 ==> VerdictColumns[i] in columns
    ensures Verdicts(columns, row) == Ok(VerdictText(VerdictCells(columns, row)))
  {
    var vc := VerdictColumns;
    assert vc[0] == "gpt4o" && vc[1] == "llama3_70b" && vc[2] == "anthropic" && vc[3] == "gpt" && vc[4] == "llama3";
    assert vc[0] in columns && vc[1] in columns && vc[2] in columns && vc[3] in columns && vc[4] in columns;
  }

  /** The verdict text is one labelled line per column, GPT-4o, Llama3-70b, then after a
      blank line Anthropic, GPT-3.5-turbo and Llama3. */
  lemma VerdictTextLines(c: seq<Cell>)
    requires |c| == 5
    ensures VerdictText(c) ==
      VerdictLabels[0] + CellStr(c[0]) + "\n" + VerdictLabels[1] + CellStr(c[1]) + "\n\n" +
      VerdictLabels[2] + CellStr(c[2]) + "\n" + VerdictLabels[3] + CellStr(c[3]) + "\n" + VerdictLabels[4] + CellStr(c[4])
  {
    var l := VerdictLabels;
    assert l[0] == "GPT-4o: " && l[1] == "Llama3-70b: " && l[2] == "Anthropic: " && l[3] == "GPT-3.5-turbo: " && l[4] == "Llama3: ";
    assert "\nLlama3-70b: " == "\n" + l[1];
    assert "\n\nAnthropic: " == "\n\n" + l[2];
    assert "\nGPT-3.5-turbo: " == "\n" + l[3];
    assert "\nLlama3: " == "\n" + l[4];
    RegroupLines(l[0], CellStr(c[0]), l[1], CellStr(c[1]), l[2], CellStr(c[2]), l[3], CellStr(c[3]), l[4], CellStr(c[4]),
                 "\n", "\n\n");
  }

  lemma RegroupLines(l0: string, c0: string, l1: string, c1: string, l2: string, c2: string, l3: string, c3: string,
                     l4: string, c4: string, n: string, nn: string)
    ensures l0 + c0 + (n + l1) + c1 + (nn + l2) + c2 + (n + l3) + c3 + (n + l4) + c4 ==
            l0 + c0 + n + l1 + c1 + nn + l2 + c2 + n + l3 + c3 + n + l4 + c4
  {
  }

  /** A missing verdict column raises `KeyError` for the first one missing, in display order. */
  lemma VerdictsFirstMissing(columns: seq<string>, row: seq<Cell>, i: nat)
    requires i < 5 && VerdictColumns[i] !in columns
    requires forall j :: 0 <= j < i ==> VerdictColumns[j] in columns
    ensures Verdicts(columns, row) == Err(KeyError(VerdictColumns[i]))
  {
    var vc := VerdictColumns;
    assert vc[0] == "gpt4o" && vc[1] == "llama3_70b" && vc[2] == "anthropic" && vc[3] == "gpt" && vc[4] == "llama3";
    if i >= 1 {
      assert vc[0] in columns;
    }
    if i >= 2 {
      assert vc[1] in columns;
    }
    if i >= 3 {
      assert vc[2] in columns;
    }
    if i >= 4 {
      assert vc[3] in columns;
    }
  }

  /** `load_entry(index)`: row `index` by position, both reasoning files, and the shown
      fields in the order the source reads them. */
  function LoadEntry(f: Frame, index: nat, files: map<string, StoredFile>): (r: Result<EntryView, PyError>)
    ensures index >= |f.rows| ==> r == Err(OutOfBounds)
  {
    if index >= |f.rows| then Err(OutOfBounds)
    else
      var row := f.rows[index];
      var jobId :- Field(f.columns, row, "job_id");
      var cvId :- Field(f.columns, row, "cv_id");
      var llama3 := LoadReasoning(Llama3, CellStr(jobId), CellStr(cvId), files);
      var gpt4o := LoadReasoning(Gpt4o, CellStr(jobId), CellStr(cvId), files);
      var title :- Field(f.columns, row, "job_title");
      var description :- Field(f.columns, row, "job_description");
      var category :- Field(f.columns, row, "cv_category");
      var cv :- Field(f.columns, row, "cv");
      var verdicts :- Verdicts(f.columns, row);
      Ok(EntryView(title, description, category, cv, verdicts, llama3, gpt4o))
  }

  /** A loaded entry shows the cells of row `index` and the reasoning stored for that
      row's job and CV ids. */
  lemma LoadEntryShowsRow(f: Frame, index: nat, files: map<string, StoredFile>)
    requires LoadEntry(f, index, files).Ok?
    ensures index < |f.rows|
    ensures "job_id" in f.columns && "cv_id" in f.columns && "job_title" in f.columns && "cv" in f.columns
    ensures "job_description" in f.columns && "cv_category" in f.columns
    ensures LoadEntry(f, index, files).value.jobTitle == CellAt(f.rows[index], IndexOf(f.columns, "job_title").value)
    ensures LoadEntry(f, index, files).value.jobDescription ==
      CellAt(f.rows[index], IndexOf(f.columns, "job_description").value)
    ensures LoadEntry(f, index, files).value.cvCategory == CellAt(f.rows[index], IndexOf(f.columns, "cv_category").value)
    ensures forall i :: 0 <= i < 5 ==> VerdictColumns[i] in f.columns
    ensures LoadEntry(f, index, files).value.verdicts == VerdictText(VerdictCells(f.columns, f.rows[index]))
    ensures LoadEntry(f, index, files).value.cv == CellAt(f.rows[index], IndexOf(f.columns, "cv").value)
    ensures LoadEntry(f, index, files).value.llama3 ==
      LoadReasoning(Llama3, CellStr(CellAt(f.rows[index], IndexOf(f.columns, "job_id").value)),
                    CellStr(CellAt(f.rows[index], IndexOf(f.columns, "cv_id").value)), files)
    ensures LoadEntry(f, index, files).value.gpt4o ==
      LoadReasoning(Gpt4o, CellStr(CellAt(f.rows[index], IndexOf(f.columns, "job_id").value)),
                    CellStr(CellAt(f.rows[index], IndexOf(f.columns, "cv_id").value)), files)
  {
    VerdictsOk(f.columns, f.rows[index]);
    VerdictsText(f.columns, f.rows[index]);
  }

  // ---------------------------------------------------------------------------
  // Recording decisions

  const DecisionColumn := "user_decision"

  /** `final_verdict.loc[index, "user_decision"] = decision` on a frame whose labels are
      its positions: a missing column is added filled with missing values, and an
      index one past the end appends a row of missing values first. */
  function SetDecision(f: Frame, index: nat, decision: string): (r: Frame)
    requires Rectangular(f) && index <= |f.rows|
    ensures Rectangular(r) && DecisionColumn in r.columns
    ensures |r.rows| == if index < |f.rows| then |f.rows| else |f.rows| + 1
  {
    var columns := if DecisionColumn in f.columns then f.columns else f.columns + [DecisionColumn];
    var widened := if DecisionColumn in f.columns then f.rows
                   else seq(|f.rows|, i requires 0 <= i < |f.rows| => f.rows[i] + [NaN]);
    var rows := if index < |f.rows| then widened else widened + [NaNs(|columns|)];
    var k := IndexOf(columns, DecisionColumn).value;
    Frame(columns, rows[index := rows[index][k := S(decision)]])
  }

  /** The decision lands in row `index` of the decision column, and the existing
      columns keep their order. */
  lemma SetDecisionWrites(f: Frame, index: nat, decision: string)
    requires Rectangular(f) && index <= |f.rows|
    ensures f.columns <= SetDecision(f, index, decision).columns
    ensures CellAt(SetDecision(f, index, decision).rows[index],
                   IndexOf(SetDecision(f, index, decision).columns, DecisionColumn).value) == S(decision)
  {
  }

  /** Every other row keeps its cells, and gains a missing decision only where the
      column is new. */
  lemma SetDecisionKeepsOthers(f: Frame, index: nat, decision: string)
    requires Rectangular(f) && index <= |f.rows|
    ensures forall i :: 0 <= i < |f.rows| && i != index ==>
      SetDecision(f, index, decision).rows[i] ==
        f.rows[i] + (if DecisionColumn in f.columns then [] else [NaN])
  {
  }

  /** Earlier decisions stay as they were when a later row is written. */
  lemma SetDecisionKeepsEarlier(f: Frame, index: nat, decision: string, i: nat)
    requires Rectangular(f) && index <= |f.rows| && DecisionColumn in f.columns && i < index
    ensures SetDecision(f, index, decision).columns == f.columns
    ensures SetDecision(f, index, decision).rows[i] == f.rows[i]
  {
  }

  /** Decisions recorded one after another from row `start`, as the buttons do. */
  function Record(f: Frame, start: nat, decisions: seq<string>): (r: Frame)
    requires Rectangular(f) && start <= |f.rows|
    ensures Rectangular(r)
    ensures decisions != [] ==> DecisionColumn in r.columns
    ensures |r.rows| >= |f.rows| && |r.rows| >= start + |decisions|
    decreases |decisions|
  {
    if decisions == [] then f
    else Record(SetDecision(f, start, decisions[0]), start + 1, decisions[1..])
  }

  /** Once a decision column exists, recording more decisions keeps the columns and the
      rows before `start`. */
  lemma {:induction false} RecordKeepsEarlier(f: Frame, start: nat, decisions: seq<string>, i: nat)
    requires Rectangular(f) && start <= |f.rows| && DecisionColumn in f.columns && i < start
    ensures Record(f, start, decisions).columns == f.columns
    ensures Record(f, start, decisions).rows[i] == f.rows[i]
    decreases |decisions|
  {
    if decisions != [] {
      var g := SetDecision(f, start, decisions[0]);
      SetDecisionKeepsEarlier(f, start, decisions[0], i);
      RecordKeepsEarlier(g, start + 1, decisions[1..], i);
    }
  }

  /** The first of a run of decisions stays in row `start`. */
  lemma RecordedFirst(f: Frame, start: nat, decisions: seq<string>)
    requires Rectangular(f) && start <= |f.rows| && decisions != []
    ensures DecisionColumn in Record(f, start, decisions).columns
    ensures CellAt(Record(f, start, decisions).rows[start],
                   IndexOf(Record(f, start, decisions).columns, DecisionColumn).value) == S(decisions[0])
  {
    var g := SetDecision(f, start, decisions[0]);
    var rest := decisions[1..];
    assert Record(f, start, decisions) == Record(g, start + 1, rest);
    SetDecisionWrites(f, start, decisions[0]);
    if rest != [] {
      RecordKeepsEarlier(g, start + 1, rest, start);
    }
  }

  /** After a run of decisions from row `start`, row `start + j` holds the `j`-th
      decision: each click records into its own row, in order. */
  lemma {:induction false} RecordedInOrder(f: Frame, start: nat, decisions: seq<string>, j: nat)
    requires Rectangular(f) && start <= |f.rows| && j < |decisions|
    ensures DecisionColumn in Record(f, start, decisions).columns
    ensures CellAt(Record(f, start, decisions).rows[start + j],
                   IndexOf(Record(f, start, decisions).columns, DecisionColumn).value) == S(decisions[j])
    decreases |decisions|
  {
    var g := SetDecision(f, start, decisions[0]);
    var rest := decisions[1..];
    assert Record(f, start, decisions) == Record(g, start + 1, rest);
    if j == 0 {
      RecordedFirst(f, start, decisions);
    } else {
      assert rest[j - 1] == decisions[j];
      RecordedInOrder(g, start + 1, rest, j - 1);
    }
  }

  /** The review screen: the table, the global cursor, and what the last save wrote. */
  class ReviewSession {
    var table: Frame
    var currentIndex: nat
    var saved: Option<Frame>

    /** The cursor never passes the end of the table; the table has a cell per column. */
    predicate Valid()
      reads this
    {
      Rectangular(table) && currentIndex <= |table.rows|
    }

    /** The table as read from the CSV file, the cursor at row 0. */
    constructor (loaded: Frame)
      requires Rectangular(loaded)
      ensures Valid() && table == loaded && currentIndex == 0 && saved == None
    {
      table := loaded;
      currentIndex := 0;
      saved := None;
    }

    /** `update_decision(decision)`: record the decision in the current row, save the
        table, advance the cursor by one and load the row it now points at. */
    method UpdateDecision(decision: string, files: map<string, StoredFile>) returns (r: Result<EntryView, PyError>)
      requires Valid()
      modifies this
      ensures Valid()
      ensures table == SetDecision(old(table), old(currentIndex), decision)
      ensures saved == Some(table)
      ensures currentIndex == old(currentIndex) + 1
      ensures r == LoadEntry(table, currentIndex, files)
    {
      table := SetDecision(table, currentIndex, decision);
      saved := Some(table);
      currentIndex := currentIndex + 1;
      r := LoadEntry(table, currentIndex, files);
    }

    method Shortlist(files: map<string, StoredFile>) returns (r: Result<EntryView, PyError>)
      requires Valid()
      modifies this
      ensures Valid()
      ensures table == SetDecision(old(table), old(currentIndex), "Shortlist")
      ensures saved == Some(table) && currentIndex == old(currentIndex) + 1
      ensures r == LoadEntry(table, currentIndex, files)
    {
      r := UpdateDecision("Shortlist", files);
    }

    method Reject(files: map<string, StoredFile>) returns (r: Result<EntryView, PyError>)
      requires Valid()
      modifies this
      ensures Valid()
      ensures table == SetDecision(old(table), old(currentIndex), "Reject")
      ensures saved == Some(table) && currentIndex == old(currentIndex) + 1
      ensures r == LoadEntry(table, currentIndex, files)
    {
      r := UpdateDecision("Reject", files);
    }

    method Kiv(files: map<string, StoredFile>) returns (r: Result<EntryView, PyError>)
      requires Valid()
      modifies this
      ensures Valid()
      ensures table == SetDecision(old(table), old(currentIndex), "KIV")
      ensures saved == Some(table) && currentIndex == old(currentIndex) + 1
      ensures r == LoadEntry(table, currentIndex, files)
    {
      r := UpdateDecision("KIV", files);
    }

    /** `load_first_entry()`: row 0, wherever the cursor is. */
    function LoadFirstEntry(files: map<string, StoredFile>): (r: Result<EntryView, PyError>)
      reads this
      ensures |table.rows| == 0 ==> r == Err(OutOfBounds)
      ensures r == LoadEntry(table, 0, files)
    {
      LoadEntry(table, 0, files)
    }
  }

  /** Past the last row the buttons keep going: a decision at the end appends a row of
      missing values holding only that decision, and loading the next row fails. */
  lemma DecisionAtEnd(f: Frame, decision: string, files: map<string, StoredFile>)
    requires Rectangular(f)
    ensures |SetDecision(f, |f.rows|, decision).rows| == |f.rows| + 1
    ensures forall j :: (0 <= j < |SetDecision(f, |f.rows|, decision).columns| &&
      SetDecision(f, |f.rows|, decision).columns[j] != DecisionColumn) ==>
      SetDecision(f, |f.rows|, decision).rows[|f.rows|][j] == NaN
    ensures LoadEntry(SetDecision(f, |f.rows|, decision), |f.rows| + 1, files) == Err(OutOfBounds)
  {
    var g := SetDecision(f, |f.rows|, decision);
    var k := IndexOf(g.columns, DecisionColumn).value;
    forall j | 0 <= j < |g.columns| && g.columns[j] != DecisionColumn
      ensures g.rows[|f.rows|][j] == NaN
    {
      assert j != k;
    }
  }
}
