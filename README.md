# Rezumat resume evaluator — a Dafny model of its bookkeeping core

Rezumat scores resumes against job descriptions with LLM calls. This project models the
parts of the repository that are plain program logic around those calls:

- **Two-stage evaluators** (`Evaluators`, resume-evaluator/src/evaluators/two_stage_evaluators.py).
  A loop over `(model_name, grader)` pairs calls each grader with the stage payload.
  It records each result, dumps it with indent 4 to `{job_id}_{model_name}.json` or
  `{job_id}_{cv_id}_{model_name}.json`, and sleeps once after every full success.
  When no grader returned, it logs "All models failed". The file system, the LLM-chain
  calls, the sleep counter and the log are the fields of a `World` class.
- **Provider and prompt dispatch** (`Chains`, chains.py). This is the case-insensitive
  registry of four chat-model providers plus the `jd`/`cv` prompt switch, each with its
  own `ValueError`.
- **The app's data and view handlers** (`AppData`, `AppView`, app.py, over the small
  pandas model in `Frames`). They cover reading job evaluations back, turning the resume
  input into `(cv_id, text)` pairs, the two left merges, the yes/no/kiv counts, the top-5
  selection, the candidate lookup, the input-type switch and the reset button.
- **Markdown builders**. `Helper` models helper.py. `ManualEval` covers the research
  review UI's `format_json_to_markdown`. `GradioApp` covers the demo form's
  `process_input`. The bullet-list loop all three share lives in `Markdown`, with a
  parser that reads a block back.
- **PDF result mapping** (`PdfParser`, both pdf_parser.py files). It maps parser outcomes
  to results and applies the page-join rule, including the `cv[0]` failure on an empty
  result.
- **Manual review cursor** (`ManualEval.ReviewSession`). It writes a decision into the
  current row, advances the cursor by one and loads that row.

Foreign behaviour enters as parameters:

- a grader is a function from payload to `Returned(json) | Raised(message)`;
- what pypdf makes of a file is a `ParseOutcome`;
- JSON decoding is a `JsonText` carrying its decoded value or error;
- the thread pool's completion order is a schedule;
- `uuid4` is a function from position to id;
- `tabulate` is a function argument.

Python exceptions that propagate are `Err(PyError)` values. Python's `None` results are
`Option`s.

## Model

| member | source | states |
|---|---|---|
| Evaluators.World.Invoke | resume-evaluator/src/evaluators/two_stage_evaluators.py:6 | the chain's outcome is returned and one call is appended to the call log; nothing else changes |
| Evaluators.World.Dump | resume-evaluator/src/evaluators/two_stage_evaluators.py:10-12 | a writable path now holds the value with the given indent; an unwritable one leaves every file as it was and yields the OS error text |
| Evaluators.World.Sleep | resume-evaluator/src/evaluators/two_stage_evaluators.py:13 | exactly one more sleep is counted; files, calls and log are unchanged |
| Evaluators.World.Log | resume-evaluator/src/evaluators/two_stage_evaluators.py:16-18 | exactly one line is appended to the log |
| Evaluators.EvalOne | resume-evaluator/src/evaluators/two_stage_evaluators.py:4-18 | one pass of the loop body (invoke, record, dump, sleep, or log and go on) moves the world and `model_results` exactly as the `Step` specification says |
| Evaluators.EvalModels | resume-evaluator/src/evaluators/two_stage_evaluators.py:3-24 | the whole loop plus the final `if not model_results` branch leaves the world in the state `Evaluate` describes |
| Evaluators.TwoStageEvalJd | resume-evaluator/src/evaluators/two_stage_evaluators.py:2-24 | the JD stage is the shared loop with payload `{"job_description"}` and file `{job_id}_{model_name}.json` |
| Evaluators.TwoStageEvalCv | resume-evaluator/src/evaluators/two_stage_evaluators.py:26-48 | the CV stage is the shared loop with payload `{"job_requirements", "resume"}` and file `{job_id}_{cv_id}_{model_name}.json` |
| Evaluators.StepCalls | resume-evaluator/src/evaluators/two_stage_evaluators.py:5-6 | one iteration makes exactly one grader call, the model's own, with the stage payload |
| Evaluators.StepFiles | resume-evaluator/src/evaluators/two_stage_evaluators.py:7-13 | one iteration writes the model's artifact (its result, indent 4) exactly when invoke and write succeed, and touches no other file |
| Evaluators.RunCalls | resume-evaluator/src/evaluators/two_stage_evaluators.py:4-18 | every model is invoked once, in list order, with exactly the stage payload, whether or not earlier models raised |
| Evaluators.RunSleeps | resume-evaluator/src/evaluators/two_stage_evaluators.py:13 | the number of sleeps is the number of models whose invoke and write both succeeded; a failure never sleeps |
| Evaluators.RunResultsKeys | resume-evaluator/src/evaluators/two_stage_evaluators.py:7 | `model_results` holds exactly the names of models whose invoke returned, including those whose write then failed |
| Evaluators.RunFilesOrigin | resume-evaluator/src/evaluators/two_stage_evaluators.py:10-12 | the files after a run are the old ones plus the artifacts of fully successful models; every other path keeps its content |
| Evaluators.RunFilesWritten | resume-evaluator/src/evaluators/two_stage_evaluators.py:7-12 | a fully successful model's file holds its result with indent 4 unless a later success writes the same path; for a repeated name, the last one wins |
| Evaluators.AllFailedIffNoneReturned | resume-evaluator/src/evaluators/two_stage_evaluators.py:20-24 | the "All models failed" line is logged if and only if every invoke raised |
| Evaluators.RunLog | resume-evaluator/src/evaluators/two_stage_evaluators.py:4-18 | the loop adds to the log exactly one "Error with {model} for job_id: {id}. Error: {e}" line per model that raised or whose file could not be written, in invocation order, and nothing else |
| Evaluators.AllRaisedLines | resume-evaluator/src/evaluators/two_stage_evaluators.py:15-17 | when every model raises, there is one error line per model, the i-th carrying the i-th model's name and exception message |
| Evaluators.AllFailedWritesNothing | resume-evaluator/src/evaluators/two_stage_evaluators.py:32-48 | when every model raises, no file is written, no sleep is taken, and the whole log is the old log, one error line per model in order, then the all-failed message |
| Evaluators.EvaluateEffects | resume-evaluator/src/evaluators/two_stage_evaluators.py:28-48 | a whole call makes every expected call, sleeps once per full success, leaves each last fully successful model's result in its file, and extends the log by the error lines plus the all-failed message exactly when every invoke raised |
| Evaluators.ArtifactNameInjective | resume-evaluator/src/evaluators/two_stage_evaluators.py:34 | different model names give different artifact paths, so artifacts of distinct models never overwrite each other |
| Chains.Registry | resume-evaluator/src/evaluators/chains.py:24-32 | a key is found exactly when it is one of the four provider names, and the provider found carries that name |
| Chains.GetModel | resume-evaluator/src/evaluators/chains.py:21-39 | succeeds exactly when the lower-cased text names a provider and then builds that provider with the given settings; otherwise `ValueError("Invalid model text: " + lower-cased text)` |
| Chains.EvalPrompt | resume-evaluator/src/evaluators/chains.py:47-58 | a prompt exists exactly for "jd" and "cv" |
| Chains.GetEvalChain | resume-evaluator/src/evaluators/chains.py:41-65 | succeeds if and only if the provider and the eval type are both valid; the provider error takes precedence over "Invalid type"; the returned name is the lower-cased provider name, not the model id |
| Chains.GetEvalChainCaseInsensitive | resume-evaluator/src/evaluators/chains.py:43-45 | provider names that lower-case alike ("Groq", "GROQ") build the same chain |
| Chains.ProviderNameAccepted | resume-evaluator/src/evaluators/chains.py:24-35 | each registry name, and any text that lower-cases to it, is accepted and selects its own provider |
| Chains.PromptMatchesPayload | resume-evaluator/src/evaluators/chains.py:47-56 | the prompt's input variables are exactly the keys of the payload the matching evaluator stage sends |
| AppData.ReadJobData | resume-evaluator/src/app.py:61-69 | the loop over the `*.json` files returns the `JobData` specification: one `(job_id, value)` pair per file, or the first decoding error |
| AppData.JobDataOk | resume-evaluator/src/app.py:64-68 | reading succeeds if and only if every file decodes, and then gives one pair per file, in order, with the id from the file name and the decoded value |
| AppData.JobDataErr | resume-evaluator/src/app.py:66-67 | a failure is the decoding error of the first undecodable file |
| AppData.JobIdOfArtifact | resume-evaluator/src/app.py:65 | the job id read back from `{dir}/{job_id}_{model_name}.json` equals `job_id` if and only if `job_id` holds no "_" (a round trip with the evaluators' file names) |
| AppData.UploadFolder.Save | resume-evaluator/src/app.py:33-38 | the upload is copied under its base name into the folder, replacing a file of that name; a destination that cannot be written raises its `OSError` and leaves the folder unchanged |
| AppData.SaveUploads | resume-evaluator/src/app.py:50-52 | the saving loop leaves the folder and the outcome the `SaveLoop` specification gives |
| AppData.SaveLoopErrSticky | resume-evaluator/src/app.py:50-52 | once a copy has raised, later uploads change neither the folder nor the error |
| AppData.SaveLoopOk | resume-evaluator/src/app.py:50-52 | saving succeeds if and only if every ".pdf" upload can be copied, and then leaves the `SaveAll` folder |
| AppData.SaveLoopFailsAt | resume-evaluator/src/app.py:36-37 | when the j-th upload is the first whose copy fails, the folder holds the copies of the uploads before it and the loop raises that copy's `OSError` |
| AppData.SaveFailsSomewhere | resume-evaluator/src/app.py:50-52 | saving fails somewhere if and only if some upload is the first unwritable ".pdf", and that upload is unique |
| AppData.ProcessCvData | resume-evaluator/src/app.py:44-58 | Text mode with a non-empty text gives exactly one `(id, text)` pair; File mode runs the saving loop, re-raises a copy's `OSError`, and otherwise gives one `(uuid(k), cv)` pair per PDF in the upload folder after saving (earlier uploads included), in completion order, or re-raises exactly the error `process_pdfs` raised; otherwise `None` |
| AppData.SaveAllOnlyPdfs | resume-evaluator/src/app.py:50-52 | saving adds nothing to the folder but copies of uploads whose name ends in ".pdf" |
| AppData.SaveAllKeepsPdfs | resume-evaluator/src/app.py:50-52 | after saving, the folder has a file under the name of every ".pdf" upload |
| AppData.FitScoresKeepRows | resume-evaluator/src/app.py:75-85 | the two left merges fail only when "job_id" or "cv_id" is missing; otherwise every fit-score row starts some output row, matched or not |
| Frames.LeftMergeKeepsRows | resume-evaluator/src/app.py:82-83 | a left merge never drops or shrinks a left row |
| Frames.LeftMergeUnique | resume-evaluator/src/app.py:82-83 | with unique right keys, a left merge keeps the left rows one for one and in order, each extended by the cells of its match without the key column, or by one missing value per non-key right column |
| Frames.MergeRowsFromLeft | resume-evaluator/src/app.py:82-83 | every merged row extends some left row, so a merge invents no rows |
| Frames.SortValuesDesc | resume-evaluator/src/app.py:249 | sorting a column gives a permutation of the rows in non-increasing order, with missing values last; errors for an unknown column or an unorderable cell |
| Frames.CountIsPositions | resume-evaluator/src/app.py:245-247 | the count `len(df[df[col] == x])` is the number of positions holding `x` |
| AppView.ProcessResultsBy | resume-evaluator/src/app.py:211-276 | `None` or an empty frame gives the failure tuple with the initial view shown; an exception inside the `try` gives the failure tuple with its message; a list raises at `.empty`; otherwise the nine success values |
| AppView.SummaryCounts | resume-evaluator/src/app.py:244-247 | yes, no and kiv count the rows whose suitability equals that exact string, and together they never exceed the total |
| AppView.TopCandidatesSpec | resume-evaluator/src/app.py:249-250 | the top candidates are "yes"/"kiv" rows only, each shown at most as often as it occurs in that pool (a sub-multiset), at most five and as many as exist up to five, ordered by non-increasing recalibrated score; no qualifying row left out scores higher than one shown |
| AppView.SummaryChoices | resume-evaluator/src/app.py:250-261 | the dropdown choices are exactly the chosen column of the top-candidates frame, in order |
| AppView.FailureDropsMessage | resume-evaluator/src/app.py:216-226 | the failure tuple's tenth value, the debug message, is dropped by delivery; the state is cleared and the initial view stays up |
| AppView.DisplayCandidateInfo | resume-evaluator/src/app.py:278-294 | `None` or an empty frame gives "No candidates found"; a list raises; a frame without "cv_id" raises `KeyError` |
| AppView.DisplayNoMatch | resume-evaluator/src/app.py:282-286 | when no row carries the selected `cv_id`, the result is ("No matching candidates found", "", "") |
| AppView.DisplayFirstMatch | resume-evaluator/src/app.py:288-294 | otherwise the first matching row's `cv_text`, strengths and concerns are shown, with default texts where a column is absent |
| AppView.DropdownMissesCandidate | resume-evaluator/src/app.py:250-261 | as written, with CV texts that are never CV ids, every dropdown choice finds no candidate |
| AppView.ChoicesFindCandidates | resume-evaluator/src/app.py:278-294 | with the dropdown filled from `cv_id`, every choice finds the first row with that id |
| AppView.ChoicesNonEmpty | resume-evaluator/src/app.py:261 | the dropdown offers a choice whenever some row is "yes" or "kiv" |
| AppView.UpdateInputType | resume-evaluator/src/app.py:200-204 | exactly one of the resume text box and the file upload is visible, the text box if and only if the choice is "Text" |
| AppView.ResetAsWrittenFails | resume-evaluator/src/app.py:206-209 | as written, the reset returns nine values for ten outputs, and the handler raises |
| AppView.ResetRestoresStart | resume-evaluator/src/app.py:308-312 | the corrected reset restores empty texts, "Text", no upload, the initial view shown, results hidden, and the sliders at 50/20/20/10, which sum to 100 |
| Helper.FormatJobDescriptionAnalysis | resume-evaluator/src/utils/helper.py:3-43 | the `+=` accumulation gives the `JobDescriptionMarkdown` specification, or the first exception |
| Helper.AppendSection | resume-evaluator/src/utils/helper.py:14-17 | one item loop followed by the placeholder check equals the list-section specification |
| Helper.InvalidJsonGivesMessage | resume-evaluator/src/utils/helper.py:4-7 | undecodable text yields exactly "Error: Invalid JSON data provided.", which never looks like an analysis |
| Helper.TextLikeValue | resume-evaluator/src/utils/helper.py:5 | JSON text renders like the dict it decodes to, so a dict input is used as-is |
| Helper.AnalysisStartsWithHeader | resume-evaluator/src/utils/helper.py:9-13 | every analysis starts with "# Job Description Analysis\n\n## Technical Skills\n\n### Essential\n" |
| Helper.TechnicalSkillsRequired | resume-evaluator/src/utils/helper.py:14 | without `technical_skills` the call raises `KeyError`; where it succeeds, that key is present and holds an object |
| Helper.SectionOfList | resume-evaluator/src/utils/helper.py:20-41 | a list of strings, or an absent key, renders as one "- item" line per item, or as the placeholder line alone when the list is empty |
| Helper.BlockRoundTrip | resume-evaluator/src/utils/helper.py:14-17 | reading a section back gives its items in order, or the placeholder alone exactly for an empty list |
| Helper.AnalysisLayout | resume-evaluator/src/utils/helper.py:9-43 | a well-formed analysis renders Essential, Advantageous, Soft Skills, Level of Experience ("Not specified" when absent) and Education, in that order, each with its own placeholder |
| Markdown.AppendBullets | resume-evaluator/src/utils/helper.py:14-15 | the `+=` loop appends exactly the bullet block, one line per item, in order |
| Markdown.ParseBulletsOfBullets | research/manual_eval_ui/main.py:22-33 | round trip: a bullet block of one-line items parses back to exactly those items |
| PdfParser.ParsePdf | rezumat/preprocessing/parsers/pdf_parser.py:16-27 | a missing path raises `FileNotFoundError` before parsing; an empty or corrupt file yields ""; otherwise one string per page |
| PdfParser.ParseLog | rezumat/preprocessing/parsers/pdf_parser.py:17-26 | one line is logged exactly for a missing file or a swallowed parse error |
| PdfParser.JoinCv | rezumat/preprocessing/parsers/pdf_parser.py:44 | several pages are joined with one space and a single page is kept unchanged; "" and [] fail at `cv[0]` |
| PdfParser.JoinLength | rezumat/preprocessing/parsers/pdf_parser.py:44 | the join keeps every page character and adds exactly one space between pages |
| PdfParser.PdfEntries | rezumat/preprocessing/parsers/pdf_parser.py:35 | the listing keeps exactly the entries whose names end in ".pdf" |
| PdfParser.GlobRootAsWritten | rezumat/preprocessing/parsers/pdf_parser.py:35 | the root is globbed as given: it fails with `AttributeError` if and only if the folder is a `str` |
| PdfParser.ParseAllSpec | rezumat/preprocessing/parsers/pdf_parser.py:34-41 | parsing every PDF succeeds if and only if none is missing, a failure is `FileNotFoundError`, and success gives each PDF's `parse_pdf` result in order |
| PdfParser.JoinAllSpec | rezumat/preprocessing/parsers/pdf_parser.py:44 | joining succeeds if and only if every result has at least one page, a failure is `IndexError`, and success gives each result's pages joined with one space |
| PdfParser.PdfsResultSpec | rezumat/preprocessing/parsers/pdf_parser.py:33-44 | the batch succeeds if and only if every PDF has at least one page, and then gives one joined text per PDF in completion order; a missing file raises `FileNotFoundError`, otherwise an empty or corrupt PDF raises `IndexError` |
| PdfParser.ParseAndJoin | rezumat/preprocessing/parsers/pdf_parser.py:38-44 | the collecting loop and the join loop give the `PdfsResult` specification |
| PdfParser.ProcessPdfsAsWritten | rezumat/preprocessing/parsers/pdf_parser.py:30-44 | as written: a `str` folder raises `AttributeError` at line 35 before any PDF is parsed; a `Path` folder gives the `PdfsResult` specification, so it succeeds if and only if the folder is a `Path` and every PDF is joinable |
| PdfParser.ProcessPdfs | rezumat/preprocessing/parsers/pdf_parser.py:30-44 | corrected (`Path(pdf_path).glob` on line 35): for a `str` or a `Path` folder, succeeds if and only if every PDF has at least one page, then gives one joined text per PDF in completion order; a missing file raises `FileNotFoundError`; otherwise an empty or corrupt PDF fails the whole batch with `IndexError` |
| PdfParser.ProcessPdf | resume-evaluator/src/preprocessing/parsers/pdf_parser.py:15-17 | one string per page; every pypdf failure propagates |
| PdfParser.LoadResumes | resume-evaluator/src/preprocessing/parsers/pdf_parser.py:8-28 | `cv_data` gets one joined text per `*.pdf` in completion order, and a zero-page or unreadable PDF fails the script |
| ManualEval.FormatJsonToMarkdown | research/manual_eval_ui/main.py:17-68 | the `+=` accumulation gives the `JsonMarkdown` specification, or the first exception |
| ManualEval.MarkdownOpening | research/manual_eval_ui/main.py:20-21 | output begins with "# Assessment:\n\n- **Suitability:** {suitability}\n" |
| ManualEval.NoDefaults | research/manual_eval_ui/main.py:18-21 | with no defaults, a missing "assessment" or "suitability" raises `KeyError` |
| ManualEval.EveryKeyRequired | research/manual_eval_ui/main.py:17-66 | a record renders only if every key path the function subscripts is present: the five assessment keys, the original and recalibrated scores, the explicit missing skills, the inferred experiences and the five job-analysis keys; a record missing any of them raises |
| ManualEval.AssessmentRendering | research/manual_eval_ui/main.py:20-33 | reasons, missing skills, potential concerns and strengths follow the suitability line in that order, each under its header with one "    - item" line per item |
| ManualEval.InferredRoundTrip | research/manual_eval_ui/main.py:49-51 | inferred experiences come out as one "  - skill: inference" line per dict entry, and reading them back gives every entry once, in order |
| ManualEval.LoadReasoning | research/manual_eval_ui/main.py:70-90 | an absent file gives "Reasoning not available"; a readable one gives its data; any read or decode failure gives "Error loading reasoning: …" |
| ManualEval.ReasoningPathNames | research/manual_eval_ui/main.py:71 | the reasoning file is `{job_id}_{cv_id}_groq.json` or `…_gpt4o.json` inside that model's output folder |
| ManualEval.ReasoningPathsDiffer | research/manual_eval_ui/main.py:71-82 | the two models' reasoning for a pair lives in different files |
| ManualEval.LoadEntryShowsRow | research/manual_eval_ui/main.py:92-104 | a loaded entry shows row `index`'s job title, job description, CV category and CV, the verdict text built from that row's five verdict cells, and the reasoning stored for that row's ids |
| ManualEval.VerdictsOk | research/manual_eval_ui/main.py:101 | the verdict text is built if and only if all five verdict columns exist |
| ManualEval.VerdictsFirstMissing | research/manual_eval_ui/main.py:101 | otherwise the first missing verdict column, in display order, raises `KeyError` |
| ManualEval.VerdictsText | research/manual_eval_ui/main.py:101 | with all five columns present, the verdict text is made of the row's cells in those columns, in display order |
| ManualEval.VerdictTextLines | research/manual_eval_ui/main.py:101 | the verdict text is one labelled line per verdict: GPT-4o, Llama3-70b, a blank line, then Anthropic, GPT-3.5-turbo and Llama3 |
| ManualEval.SetDecisionWrites | research/manual_eval_ui/main.py:108 | the decision lands in the current row of `user_decision`, and the existing columns keep their order |
| ManualEval.SetDecisionKeepsOthers | research/manual_eval_ui/main.py:108 | every other row keeps its cells |
| ManualEval.RecordedInOrder | research/manual_eval_ui/main.py:106-111 | successive clicks record the j-th decision in row start + j |
| ManualEval.ReviewSession.UpdateDecision | research/manual_eval_ui/main.py:106-111 | writes the decision into row `current_index` only, saves, advances the cursor by exactly one and loads the new row |
| ManualEval.ReviewSession.Shortlist | research/manual_eval_ui/main.py:113-114 | records "Shortlist" |
| ManualEval.ReviewSession.Reject | research/manual_eval_ui/main.py:116-117 | records "Reject" |
| ManualEval.ReviewSession.Kiv | research/manual_eval_ui/main.py:119-120 | records "KIV" |
| ManualEval.ReviewSession.LoadFirstEntry | research/manual_eval_ui/main.py:122-123 | shows row 0, whatever the cursor, and fails on an empty table |
| ManualEval.DecisionAtEnd | research/manual_eval_ui/main.py:106-111 | past the last row, a decision appends a row of missing values holding only that decision, and the next load fails |
| GradioApp.ComponentValue | resume-evaluator/src/gradio_app.py:66 | the upload component hands over `None` when no file was chosen, the list of chosen files when it accepts several, the one file otherwise |
| GradioApp.UploadText | resume-evaluator/src/gradio_app.py:16-23 | a list of files fails with "'list' object has no attribute 'name'" at `file_upload.name`; one file gives its text |
| GradioApp.ProcessInput | resume-evaluator/src/gradio_app.py:5-32 | the `+=` accumulation gives the `Content` specification, for one file or a list |
| GradioApp.ReadUpload | resume-evaluator/src/gradio_app.py:16-26 | a list fails on its missing `name`; a PDF gives its pages, each followed by "\n"; any other file gives its decoded contents; a failure gives its message |
| GradioApp.ListUploadFails | resume-evaluator/src/gradio_app.py:66 | on the page as built, any file chosen in "File" mode reaches the handler as a list, and the summary shows the `AttributeError` in place of the file section |
| GradioApp.SingleUploadShown | resume-evaluator/src/gradio_app.py:15-26 | with a single-file component, a readable file is shown under "## Uploaded File Content" and an unreadable one shows its own error |
| GradioApp.MainSectionIff | resume-evaluator/src/gradio_app.py:9-10 | "## Main Text Input\n\n{text}\n\n" opens the summary if and only if the text is non-empty |
| GradioApp.ExtraCases | resume-evaluator/src/gradio_app.py:13-26 | the additional-text section appears exactly for "Text" with a non-empty text, and the file section (or its error) exactly for "File" with an upload; never both |
| GradioApp.KeyOnlyByLength | resume-evaluator/src/gradio_app.py:29 | keys of equal length give the same summary, so no key character reaches the output |
| GradioApp.KeyMasked | resume-evaluator/src/gradio_app.py:29 | after "API Key: " come exactly `len(api_key)` asterisks |
| GradioApp.WeightageLast | resume-evaluator/src/gradio_app.py:30 | the weightage block ends the summary |
| GradioApp.WeightageLines | resume-evaluator/src/gradio_app.py:30 | the weightage lists technical, soft, experience and education in that order, one line each with "%" |
| GradioApp.ResetInterface | resume-evaluator/src/gradio_app.py:34-49 | returns the components' initial values, with the sliders at 60/10/10/10 as declared at lines 46-49; those weights sum to 90, not 100 |
| GradioApp.SubmitAfterReset | resume-evaluator/src/gradio_app.py:34-37 | submitting right after a reset echoes only the settings and the weights 60/10/10/10 |

## Findings

| source | as written | input that shows it | evidently intended | confidence | as-written member | corrected member |
|---|---|---|---|---|---|---|
| resume-evaluator/src/app.py:250-261 | the dropdown lists `cv_text`, but `display_candidate_info` looks the selection up in `cv_id` | any result frame with a "yes" candidate whose text is not an id | fill the dropdown with `cv_id` | medium, not executed | AppView.DropdownMissesCandidate | AppView.ChoicesFindCandidates |
| resume-evaluator/src/app.py:206-209 | `reset_interface` returns 9 values, but the reset button has 10 outputs | any click on Reset | one value per output, with the two view visibilities | high, not executed | AppView.ResetAsWrittenFails | AppView.ResetRestoresStart |
| rezumat/preprocessing/parsers/pdf_parser.py:35 | `pdf_path.glob` is called on the argument itself, which the signature allows to be a `str` | `process_pdfs("data/input/pdf")` | `Path(pdf_path).glob`, as on line 32 | medium, not executed | PdfParser.ProcessPdfsAsWritten | PdfParser.ProcessPdfs |
| resume-evaluator/src/gradio_app.py:66 | the upload component accepts several files, so `process_input` receives a list and `file_upload.name` raises inside the `try` | "File" mode with any file chosen | a single-file component (`file_count="single"`), whose file the handler reads | high, not executed | GradioApp.ListUploadFails | GradioApp.SingleUploadShown |

## Left out

- LLM calls: `grader.invoke`, the LangChain chat-model classes, `PromptTemplate` and `JsonOutputParser` are foreign. A grader is a function from payload to outcome, and a chain is the record of its parts.
- Prompt template text (resume-evaluator/prompts/resume_eval.py and the two-stage prompts) is constant text. It is not part of this model.
- `time.sleep(2.1)`: only the number of sleep calls is modelled, not durations.
- Evaluators.World.Dump: a `json.dump` that fails midway and leaves a partial file is modelled as leaving the old content. Which paths fail is a given map.
- The evaluators return `None` on both exits. The model exposes the all-failed branch as its log line instead.
- PDF text extraction (pypdf, PyPDF2) is foreign, so a file's parse outcome is an input. The thread pool and `as_completed` order are a schedule argument that visits every PDF once. `tqdm` is not modelled.
- `uuid4` is an id function argument. Uniqueness of ids is not claimed.
- `calculate_fit_scores` and `CandidateEvaluationWeights` (the weighted score and weight validation) are in modules that are not part of this model. The fit-score frame is an input, and `recalibrated_overall_score` is a given integer column.
- `process_input` of app.py (the pipeline driver), `process_job_description` and `evaluate_cv` call `process_all_jobs`/`process_all_pairs`, which are not part of this model.
- app.py imports `process_pdfs` from the resume-evaluator parser module, whose shown version has no such function. `ProcessCvData` uses the rezumat `process_pdfs`.
- Frames.SortValuesDesc: pandas' default sort is not stable. The model sorts stably, so among equal scores its order is one of those pandas may produce, not necessarily the same one.
- Frames, PyJson: cells and decoded JSON values have no float variant. Scores, `level_of_exp`, the scores given to `tabulate` and the inferred-experience values are integers, strings or other JSON values, so a float such as 7.5 and its `str()` rendering are not modelled.
- Frames.SortValuesDesc: the `TypeError` message for an unorderable score column is a placeholder of the model's own. Python's text names the two operand types ("'<' not supported between instances of 'str' and 'int'"). The message reaches only the dropped tenth output value and the log.
- Frames.SortValuesDesc: only integer and missing scores are ordered. A string-only or boolean score column raises `TypeError` in the model, where pandas would sort it.
- PyJson.Repr: strings are always quoted with single quotes and never escaped. Python switches to double quotes for a string holding a single quote and escapes backslashes and control characters.
- AppView.NotEnoughMessage: only the two counts of Gradio's error text are kept. The handler's name and its listing of wanted outputs and received values are left out.
- The `logging.error` call before `process_cv_data` re-raises a saving or parsing error is not modelled. The error itself is.
- `to_csv` writes, the module-level CSV load and `demo.launch()` are I/O. `ManualEval.ReviewSession` keeps the last saved table as a field instead.
- `tabulate`'s table layout is a function argument, and `json.dumps(indent=2)` of the reasoning panes is shown as the decoded data.
- Logging: the evaluators' error lines are modelled as a log sequence. Other `logging` calls are not.
- Gradio layout and event wiring are left out. The number of outputs a handler is wired to is modelled only where it decides the outcome (Reset, `process_results`).
- Config files (directory wiping, `.env` loading, logging handlers) are I/O.
- Lower-casing covers ASCII letters only. Python's `str.lower` also folds other letters.
