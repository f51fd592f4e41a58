/** The results view of resume-evaluator/src/app.py: the Gradio handlers that
    summarise the evaluated frame (`process_results`), show one candidate
    (`display_candidate_info`), switch the resume input (`update_input_type`) and
    reset the form (`reset_interface`).  A handler's return values go to its output
    components in order, as Gradio delivers them. */
module AppView {
  import opened Wrappers
  import opened PyText
  import opened PyJson
  import opened Frames

  /** What the `eval_results` state holds: nothing yet, a data frame, or some other
      value such as a list of records. */
  datatype Stored = NoneStored | FrameStored(f: Frame) | ListStored(items: seq<Json>)

  /** A value a handler hands to one output component. */
  datatype UiValue =
    | Visibility(visible: bool)                            // gr.update(visible=...)
    | NoValue                                              // None
    | Text(s: string)
    | Number(n: int)
    | Choice(choices: seq<Cell>, selected: Option<Cell>)   // gr.Dropdown(choices=..., value=...)
    | CellValue(c: Cell)
    | FrameValue(f: Frame)

  /** The error Gradio raises when a handler returns fewer values than it has
      outputs.  Only the gist of Gradio's wording is kept: the counts, without the
      handler's name or its listing of the wanted outputs and received values. */
  function NotEnoughMessage(needed: nat, received: nat): string {
    "An event handler didn't receive enough output values (needed: " + NatToString(needed) +
    ", received: " + NatToString(received) + ")."
  }

  /** How Gradio hands a handler's return values to its `n` outputs: too few values
      raise, extra values are dropped. */
  function Deliver(values: seq<UiValue>, n: nat): (r: Result<seq<UiValue>, PyError>)
    ensures r.Ok? <==> |values| >= n
    ensures r.Ok? ==> |r.value| == n && r.value <= values
    ensures r.Err? ==> r.error == ValueError(NotEnoughMessage(n, |values|))
  {
    if |values| < n then Err(ValueError(NotEnoughMessage(n, |values|))) else Ok(values[..n])
  }

  /** What a Python `.empty` on a list raises. */
  const ListHasNoEmpty := AttributeError("'list' object has no attribute 'empty'")

  // ---------------------------------------------------------------------------
  // process_results

  const ScoreColumn := "recalibrated_overall_score"
  const NoResultsMessage := "Error: No results received from process_input function"

  /** The outputs of `process_results`: initial view, results view, four counts, the
      dropdown, the job description and the state. */
  const ResultsOutputs := 9

  /** The ten values of every failure return: initial view shown, results hidden,
      everything else cleared, and a debug message as a tenth value. */
  function FailureValues(message: string): (r: seq<UiValue>)
    ensures |r| == ResultsOutputs + 1
  {
    [Visibility(true), Visibility(false), NoValue, NoValue, NoValue, NoValue, NoValue, Text(""), NoValue, Text(message)]
  }

  /** Rows whose suitability is "yes" or "kiv". */
  predicate Qualifies(row: seq<Cell>, sk: nat) {
    CellAt(row, sk) == S("yes") || CellAt(row, sk) == S("kiv")
  }

  /** The "yes" and "kiv" rows, in frame order. */
  function Pool(f: Frame, sk: nat): (r: Frame)
    requires Rectangular(f)
    ensures Rectangular(r) && r.columns == f.columns
    ensures r.rows == FilterIn(f.rows, sk, [S("yes"), S("kiv")])
    ensures forall row :: row in r.rows <==> row in f.rows && Qualifies(row, sk)
  {
    var rows := FilterIn(f.rows, sk, [S("yes"), S("kiv")]);
    assert forall i :: 0 <= i < |rows| ==> rows[i] in f.rows;
    Frame(f.columns, rows)
  }

  /** `results_df[results_df["suitability"].isin(["yes", "kiv"])]
      .sort_values(by="recalibrated_overall_score", ascending=False).head(5)`. */
  function TopCandidates(f: Frame): (r: Result<Frame, PyError>)
    requires Rectangular(f)
    ensures r.Ok? ==> Rectangular(r.value) && r.value.columns == f.columns
    ensures "suitability" !in f.columns ==> r == Err(KeyError("suitability"))
  {
    match IndexOf(f.columns, "suitability")
    case None => Err(KeyError("suitability"))
    case Some(sk) =>
      var sorted :- SortValuesDesc(Pool(f, sk), ScoreColumn);
      Ok(Head(sorted, 5))
  }

  /** `top` is a best-first selection from `pool`: no row of the pool left out of
      `top` has a higher score than a row in it. */
  predicate BestFirst(top: seq<seq<Cell>>, pool: seq<seq<Cell>>, k: nat) {
    forall row, i :: row in pool && row !in top && 0 <= i < |top| ==> !Above(Key(row, k), Key(top[i], k))
  }

  /** The top candidates are at most five distinct "yes" or "kiv" rows of the frame
      (a row shows at most as often as it occurs in the pool), ordered by
      non-increasing score with missing scores last, as many as there are up to five,
      and none of the qualifying rows left out scores higher than one shown. */
  lemma TopCandidatesSpec(f: Frame, top: Frame)
    requires Rectangular(f)
    requires TopCandidates(f) == Ok(top)
    ensures "suitability" in f.columns && ScoreColumn in f.columns
    ensures |top.rows| <= 5
    ensures forall i :: 0 <= i < |top.rows| ==>
      top.rows[i] in f.rows && Qualifies(top.rows[i], IndexOf(f.columns, "suitability").value)
    ensures SortedDesc(top.rows, IndexOf(f.columns, ScoreColumn).value)
    ensures |top.rows| == Min(5, |FilterIn(f.rows, IndexOf(f.columns, "suitability").value, [S("yes"), S("kiv")])|)
    ensures BestFirst(top.rows, FilterIn(f.rows, IndexOf(f.columns, "suitability").value, [S("yes"), S("kiv")]),
                      IndexOf(f.columns, ScoreColumn).value)
    ensures multiset(top.rows) <= multiset(FilterIn(f.rows, IndexOf(f.columns, "suitability").value, [S("yes"), S("kiv")]))
  {
    var sk := IndexOf(f.columns, "suitability").value;
    var pool := Pool(f, sk);
    var sr := SortValuesDesc(pool, ScoreColumn);
    assert top == Head(sr.value, 5);
    BestPrefix(pool.rows, sr.value.rows, top.rows, IndexOf(f.columns, ScoreColumn).value);
  }

  /** The first up to five rows of a best-first ordering of `pool`. */
  lemma BestPrefix(pool: seq<seq<Cell>>, sorted: seq<seq<Cell>>, top: seq<seq<Cell>>, k: nat)
    requires multiset(sorted) == multiset(pool) && SortedDesc(sorted, k)
    requires top <= sorted && |top| == Min(5, |sorted|)
    ensures |top| <= 5 && |top| == Min(5, |pool|)
    ensures forall i :: 0 <= i < |top| ==> top[i] in pool
    ensures multiset(top) <= multiset(pool)
    ensures SortedDesc(top, k)
    ensures BestFirst(top, pool, k)
  {
    assert |sorted| == |multiset(sorted)| == |multiset(pool)| == |pool|;
    assert sorted == top + sorted[|top|..];
    assert multiset(sorted) == multiset(top) + multiset(sorted[|top|..]);
    forall i | 0 <= i < |top|
      ensures top[i] in pool
    {
      assert top[i] == sorted[i];
      assert sorted[i] in multiset(pool);
    }
    SortedPrefix(top, sorted, k);
    forall row, i | row in pool && row !in top && 0 <= i < |top|
      ensures !Above(Key(row, k), Key(top[i], k))
    {
      assert row in multiset(sorted);
      var j :| 0 <= j < |sorted| && sorted[j] == row;
      assert top[i] == sorted[i];
    }
  }

  function Min(a: nat, b: nat): nat {
    if a < b then a else b
  }

  lemma SortedPrefix(top: seq<seq<Cell>>, sorted: seq<seq<Cell>>, k: nat)
    requires top <= sorted && SortedDesc(sorted, k)
    ensures SortedDesc(top, k)
  {
    forall i, j | 0 <= i < j < |top|
      ensures !Above(Key(top[j], k), Key(top[i], k))
    {
      assert top[i] == sorted[i] && top[j] == sorted[j];
    }
  }

  /** The numbers and choices `process_results` shows. */
  datatype Summary = Summary(total: nat, yes: nat, no: nat, kiv: nat, choices: seq<Cell>, jobDescription: Cell)

  /** The `try` block of `process_results` for a non-empty frame, with the dropdown
      filled from column `choiceColumn` of the top candidates; every step that
      raises ends the block with that exception. */
  function SummarizeBy(f: Frame, choiceColumn: string): (r: Result<Summary, PyError>)
    requires Rectangular(f) && !IsEmpty(f)
    ensures r.Ok? ==> r.value.total == |f.rows| && |r.value.choices| <= 5
  {
    var suitability :- Column(f, "suitability");
    var top :- TopCandidates(f);
    var choices :- Column(top, choiceColumn);
    var jobText :- Column(f, "job_text");
    TopCandidatesSpec(f, top);
    Ok(Summary(|f.rows|, CountEq(suitability, S("yes")), CountEq(suitability, S("no")), CountEq(suitability, S("kiv")),
               choices, jobText[0]))
  }

  /** The nine values of the success return. */
  function SuccessValues(s: Summary, f: Frame): (r: seq<UiValue>)
    ensures |r| == ResultsOutputs
  {
    [Visibility(false), Visibility(true), Number(s.total), Number(s.yes), Number(s.no), Number(s.kiv),
     Choice(s.choices, if s.choices == [] then None else Some(s.choices[0])),
     CellValue(s.jobDescription), FrameValue(f)]
  }

  /** Whether `process_results` reaches its success return for what is stored. */
  predicate Summarized(st: Stored, choiceColumn: string) {
    st.FrameStored? && Rectangular(st.f) && !IsEmpty(st.f) && SummarizeBy(st.f, choiceColumn).Ok?
  }

  /** `process_results(results_df)`, the dropdown taken from `choiceColumn`.  `.empty`
      is evaluated before the `isinstance` check, so a list raises out of the
      handler instead of returning the "DataFrame expected" tuple. */
  function ProcessResultsBy(st: Stored, choiceColumn: string): (r: Result<seq<UiValue>, PyError>)
    requires st.FrameStored? ==> Rectangular(st.f)
    ensures r.Err? <==> st.ListStored?
    ensures r.Err? ==> r.error == ListHasNoEmpty
    ensures r.Ok? ==> Deliver(r.value, ResultsOutputs).Ok?
    ensures st.NoneStored? || (st.FrameStored? && IsEmpty(st.f)) ==> r == Ok(FailureValues(NoResultsMessage))
    ensures st.FrameStored? && !IsEmpty(st.f) && SummarizeBy(st.f, choiceColumn).Err? ==>
      r == Ok(FailureValues("Error processing results: " + ErrorText(SummarizeBy(st.f, choiceColumn).error)))
    ensures Summarized(st, choiceColumn) ==> r == Ok(SuccessValues(SummarizeBy(st.f, choiceColumn).value, st.f))
  {
    match st
    case NoneStored => Ok(FailureValues(NoResultsMessage))
    case ListStored(_) => Err(ListHasNoEmpty)
    case FrameStored(f) =>
      if IsEmpty(f) then Ok(FailureValues(NoResultsMessage))
      else
        match SummarizeBy(f, choiceColumn)
        case Err(e) => Ok(FailureValues("Error processing results: " + ErrorText(e)))
        case Ok(s) => Ok(SuccessValues(s, f))
  }

  /** The dropdown column as written: the top candidates' CV texts. */
  const AsWrittenChoiceColumn := "cv_text"
  /** The column `display_candidate_info` looks the selection up in. */
  const IntendedChoiceColumn := "cv_id"

  /** The state the handler leaves behind: a frame after success, `None` otherwise. */
  function StoredAfter(delivered: seq<UiValue>): Stored
    requires |delivered| == ResultsOutputs
  {
    if delivered[8].FrameValue? then FrameStored(delivered[8].f) else NoneStored
  }

  /** On the failure path the debug message is a tenth value and never shown, the
      state is cleared and the initial view stays up. */
  lemma FailureDropsMessage(message: string)
    ensures Deliver(FailureValues(message), ResultsOutputs).Ok?
    ensures message != "" ==> Text(message) !in Deliver(FailureValues(message), ResultsOutputs).value
    ensures StoredAfter(Deliver(FailureValues(message), ResultsOutputs).value) == NoneStored
  {
    var d := Deliver(FailureValues(message), ResultsOutputs).value;
    assert d == FailureValues(message)[..9];
  }

  /** The counts: yes, no and kiv count exactly the rows whose suitability equals that
      string, so together they never exceed the total. */
  lemma SummaryCounts(f: Frame, choiceColumn: string, s: Summary)
    requires Rectangular(f) && !IsEmpty(f) && SummarizeBy(f, choiceColumn) == Ok(s)
    ensures "suitability" in f.columns
    ensures s.yes == |Positions(Column(f, "suitability").value, S("yes"))|
    ensures s.no == |Positions(Column(f, "suitability").value, S("no"))|
    ensures s.kiv == |Positions(Column(f, "suitability").value, S("kiv"))|
    ensures s.yes + s.no + s.kiv <= s.total
  {
    var col := Column(f, "suitability").value;
    SummaryCountsAre(f, choiceColumn, s);
    CountIsPositions(col, S("yes"));
    CountIsPositions(col, S("no"));
    CountIsPositions(col, S("kiv"));
    CountThree(col, S("yes"), S("no"), S("kiv"));
  }

  lemma SummaryCountsAre(f: Frame, choiceColumn: string, s: Summary)
    requires Rectangular(f) && !IsEmpty(f) && SummarizeBy(f, choiceColumn) == Ok(s)
    ensures "suitability" in f.columns && s.total == |Column(f, "suitability").value|
    ensures s.yes == CountEq(Column(f, "suitability").value, S("yes"))
    ensures s.no == CountEq(Column(f, "suitability").value, S("no"))
    ensures s.kiv == CountEq(Column(f, "suitability").value, S("kiv"))
  {
  }

  /** The choices are the `choiceColumn` cells of the top candidates, in order. */
  lemma SummaryChoices(f: Frame, choiceColumn: string, s: Summary)
    requires Rectangular(f) && !IsEmpty(f) && SummarizeBy(f, choiceColumn) == Ok(s)
    ensures TopCandidates(f).Ok? && choiceColumn in f.columns
    ensures Column(TopCandidates(f).value, choiceColumn) == Ok(s.choices)
  {
  }

  // ---------------------------------------------------------------------------
  // display_candidate_info

  /** The first row whose cell in column `k` is `id`. */
  predicate FirstWithId(rows: seq<seq<Cell>>, k: nat, id: Cell, i: nat) {
    i < |rows| && CellAt(rows[i], k) == id && forall j :: 0 <= j < i ==> CellAt(rows[j], k) != id
  }

  /** The first match is the first row with that key. */
  lemma {:induction false} MatchesFirst(rows: seq<seq<Cell>>, k: nat, id: Cell)
    requires Matches(rows, k, id) != []
    ensures exists i: nat :: FirstWithId(rows, k, id, i) && Matches(rows, k, id)[0] == rows[i]
    decreases |rows|
  {
    var init := rows[..|rows| - 1];
    assert forall j :: 0 <= j < |init| ==> init[j] == rows[j];
    if Matches(init, k, id) != [] {
      MatchesFirst(init, k, id);
      var i: nat :| FirstWithId(init, k, id, i) && Matches(init, k, id)[0] == init[i];
      assert FirstWithId(rows, k, id, i);
    } else {
      forall j | 0 <= j < |init|
        ensures CellAt(rows[j], k) != id
      {
        assert init[j] !in Matches(init, k, id);
      }
      assert FirstWithId(rows, k, id, |rows| - 1);
    }
  }

  /** `results_df["cv_id"] == cv_id`: a missing value, or no selection, equals nothing. */
  function IdMatches(rows: seq<seq<Cell>>, k: nat, cvId: Option<Cell>): (r: seq<seq<Cell>>)
    ensures cvId.None? || cvId.value.NaN? ==> r == []
    ensures cvId.Some? && cvId.value.Val? ==> r == Matches(rows, k, cvId.value)
  {
    if cvId.None? || cvId.value.NaN? then [] else Matches(rows, k, cvId.value)
  }

  /** `candidate_info[name]`. */
  function Field(columns: seq<string>, row: seq<Cell>, name: string): (r: Result<Cell, PyError>)
    ensures r.Err? <==> name !in columns
    ensures r.Err? ==> r.error == KeyError(name)
    ensures r.Ok? ==> r.value == CellAt(row, IndexOf(columns, name).value)
  {
    match IndexOf(columns, name)
    case None => Err(KeyError(name))
    case Some(j) => Ok(CellAt(row, j))
  }

  /** `candidate_info.get(name, default)`. */
  function FieldOr(columns: seq<string>, row: seq<Cell>, name: string, default: Cell): (r: Cell)
    ensures name !in columns ==> r == default
    ensures name in columns ==> r == CellAt(row, IndexOf(columns, name).value)
  {
    match IndexOf(columns, name)
    case None => default
    case Some(j) => CellAt(row, j)
  }

  const NoCandidates := (S("No candidates found"), S(""), S(""))
  const NoMatch := (S("No matching candidates found"), S(""), S(""))
  const NoStrengths := S("No strengths information available")
  const NoConcerns := S("No concerns information available")

  /** `display_candidate_info(cv_id, results_df)`: the selected candidate's CV text,
      strengths and concerns. */
  function DisplayCandidateInfo(cvId: Option<Cell>, st: Stored): (r: Result<(Cell, Cell, Cell), PyError>)
    requires st.FrameStored? ==> Rectangular(st.f)
    ensures st.NoneStored? || (st.FrameStored? && IsEmpty(st.f)) ==> r == Ok(NoCandidates)
    ensures st.ListStored? ==> r == Err(ListHasNoEmpty)
    ensures st.FrameStored? && !IsEmpty(st.f) && "cv_id" !in st.f.columns ==> r == Err(KeyError("cv_id"))
  {
    match st
    case NoneStored => Ok(NoCandidates)
    case ListStored(_) => Err(ListHasNoEmpty)
    case FrameStored(f) =>
      if IsEmpty(f) then Ok(NoCandidates)
      else
        var ids :- Column(f, "cv_id");
        var matching := IdMatches(f.rows, IndexOf(f.columns, "cv_id").value, cvId);
        if matching == [] then Ok(NoMatch)
        else
          var info := matching[0];
          var text :- Field(f.columns, info, "cv_text");
          Ok((text, FieldOr(f.columns, info, "strengths", NoStrengths), FieldOr(f.columns, info, "concerns", NoConcerns)))
  }

  /** Some row carries `id` in column `k`. */
  predicate HasId(rows: seq<seq<Cell>>, k: nat, id: Cell) {
    exists i :: 0 <= i < |rows| && CellAt(rows[i], k) == id
  }

  /** In a non-empty frame with a "cv_id" column, nothing matches when there is no
      selection, a missing value is selected or no row carries the selection. */
  lemma DisplayNoMatch(cvId: Option<Cell>, f: Frame)
    requires Rectangular(f) && !IsEmpty(f) && "cv_id" in f.columns
    requires cvId.None? || cvId.value.NaN? || !HasId(f.rows, IndexOf(f.columns, "cv_id").value, cvId.value)
    ensures DisplayCandidateInfo(cvId, FrameStored(f)) == Ok(NoMatch)
  {
    if cvId.Some? && cvId.value.Val? {
      NoMatches(f.rows, IndexOf(f.columns, "cv_id").value, cvId.value);
    }
  }

  /** Otherwise the first row carrying the selection is shown: its CV text, a
      `KeyError` when the frame has no "cv_text" column, and its strengths and
      concerns, or their default texts where the frame lacks those columns. */
  lemma DisplayFirstMatch(cvId: Option<Cell>, f: Frame)
    requires Rectangular(f) && !IsEmpty(f) && "cv_id" in f.columns
    requires cvId.Some? && cvId.value.Val? && HasId(f.rows, IndexOf(f.columns, "cv_id").value, cvId.value)
    ensures DisplayCandidateInfo(cvId, FrameStored(f)).Err? <==> "cv_text" !in f.columns
    ensures DisplayCandidateInfo(cvId, FrameStored(f)).Err? ==> DisplayCandidateInfo(cvId, FrameStored(f)).error == KeyError("cv_text")
    ensures DisplayCandidateInfo(cvId, FrameStored(f)).Ok? ==>
      exists i: nat :: FirstWithId(f.rows, IndexOf(f.columns, "cv_id").value, cvId.value, i) &&
        DisplayCandidateInfo(cvId, FrameStored(f)).value ==
        (CellAt(f.rows[i], IndexOf(f.columns, "cv_text").value),
         FieldOr(f.columns, f.rows[i], "strengths", NoStrengths),
         FieldOr(f.columns, f.rows[i], "concerns", NoConcerns))
  {
    var k := IndexOf(f.columns, "cv_id").value;
    var j :| 0 <= j < |f.rows| && CellAt(f.rows[j], k) == cvId.value;
    assert f.rows[j] in Matches(f.rows, k, cvId.value);
    MatchesFirst(f.rows, k, cvId.value);
  }

  // ---------------------------------------------------------------------------
  // The dropdown holds CV texts, the lookup wants CV ids

  /** Each choice is the `choiceColumn` cell of a qualifying row of the frame. */
  lemma ChoiceFromRow(f: Frame, choiceColumn: string, s: Summary, i: nat)
    requires Rectangular(f) && !IsEmpty(f) && SummarizeBy(f, choiceColumn) == Ok(s)
    requires i < |s.choices|
    ensures choiceColumn in f.columns && "suitability" in f.columns
    ensures exists j :: (0 <= j < |f.rows| &&
      Qualifies(f.rows[j], IndexOf(f.columns, "suitability").value) &&
      CellAt(f.rows[j], IndexOf(f.columns, choiceColumn).value) == s.choices[i])
  {
    SummaryChoices(f, choiceColumn, s);
    var top := TopCandidates(f).value;
    TopCandidatesSpec(f, top);
    var k := IndexOf(f.columns, choiceColumn).value;
    assert s.choices[i] == top.rows[i][k];
    assert top.rows[i] in f.rows;
    var j :| 0 <= j < |f.rows| && f.rows[j] == top.rows[i];
    assert CellAt(f.rows[j], k) == top.rows[i][k];
  }

  /** The dropdown offers at least one choice whenever some row qualifies. */
  lemma ChoicesNonEmpty(f: Frame, choiceColumn: string, s: Summary, j: nat)
    requires Rectangular(f) && !IsEmpty(f) && SummarizeBy(f, choiceColumn) == Ok(s)
    requires "suitability" in f.columns
    requires j < |f.rows| && Qualifies(f.rows[j], IndexOf(f.columns, "suitability").value)
    ensures s.choices != []
  {
    SummaryChoices(f, choiceColumn, s);
    TopCandidatesSpec(f, TopCandidates(f).value);
    var sk := IndexOf(f.columns, "suitability").value;
    assert f.rows[j] in FilterIn(f.rows, sk, [S("yes"), S("kiv")]);
  }

  /** As written, the dropdown lists CV texts: when no CV text is also a CV id, which
      is how the pipeline names them, every choice the dropdown offers, and it offers
      one as soon as a candidate qualifies, finds no candidate. */
  lemma DropdownMissesCandidate(f: Frame, c: Cell)
    requires Rectangular(f) && !IsEmpty(f) && SummarizeBy(f, AsWrittenChoiceColumn).Ok?
    requires "cv_id" in f.columns
    requires forall i, j :: 0 <= i < |f.rows| && 0 <= j < |f.rows| ==>
      CellAt(f.rows[i], IndexOf(f.columns, AsWrittenChoiceColumn).value) != CellAt(f.rows[j], IndexOf(f.columns, "cv_id").value)
    requires c in SummarizeBy(f, AsWrittenChoiceColumn).value.choices
    ensures DisplayCandidateInfo(Some(c), FrameStored(f)) == Ok(NoMatch)
  {
    var s := SummarizeBy(f, AsWrittenChoiceColumn).value;
    var i :| 0 <= i < |s.choices| && s.choices[i] == c;
    ChoiceFromRow(f, AsWrittenChoiceColumn, s, i);
    DisplayNoMatch(Some(c), f);
  }

  /** With the dropdown filled from the CV ids, every choice that is not a missing
      value finds its candidate: the display shows the first row with that id, or a
      `KeyError` when the frame carries no CV text. */
  lemma ChoicesFindCandidates(f: Frame, c: Cell)
    requires Rectangular(f) && !IsEmpty(f) && SummarizeBy(f, IntendedChoiceColumn).Ok?
    requires c in SummarizeBy(f, IntendedChoiceColumn).value.choices && c.Val?
    ensures HasId(f.rows, IndexOf(f.columns, "cv_id").value, c)
    ensures DisplayCandidateInfo(Some(c), FrameStored(f)).Ok? <==> "cv_text" in f.columns
    ensures DisplayCandidateInfo(Some(c), FrameStored(f)).Ok? ==>
      exists i: nat :: FirstWithId(f.rows, IndexOf(f.columns, "cv_id").value, c, i) &&
        DisplayCandidateInfo(Some(c), FrameStored(f)).value.0 == CellAt(f.rows[i], IndexOf(f.columns, "cv_text").value)
  {
    var s := SummarizeBy(f, IntendedChoiceColumn).value;
    var i :| 0 <= i < |s.choices| && s.choices[i] == c;
    ChoiceFromRow(f, IntendedChoiceColumn, s, i);
    DisplayFirstMatch(Some(c), f);
  }

  // ---------------------------------------------------------------------------
  // update_input_type and reset_interface

  /** `update_input_type(choice)`: the visibility of the resume text box and of the
      file upload. */
  function UpdateInputType(choice: string): (r: (UiValue, UiValue))
    ensures r.0.Visibility? && r.1.Visibility?
    ensures r.0.visible != r.1.visible
    ensures r.0.visible <==> choice == "Text"
  {
    if choice == "Text" then (Visibility(true), Visibility(false)) else (Visibility(false), Visibility(true))
  }

  /** The outputs of the reset button: the job description, the input type, the resume
      text, the upload, the initial and results views and the four weight sliders. */
  const ResetOutputs := 10

  /** The sliders' initial values: technical skills, soft skills, experience, education. */
  const InitialWeights := [50, 20, 20, 10]

  /** `reset_interface()` as written: nine values. */
  function ResetInterfaceAsWritten(): (r: seq<UiValue>)
    ensures |r| == 9
  {
    [Text(""), Text("Text"), Text(""), NoValue, Text(""), Number(50), Number(20), Number(20), Number(10)]
  }

  /** As written the reset button fails: nine values for ten outputs. */
  lemma ResetAsWrittenFails()
    ensures Deliver(ResetInterfaceAsWritten(), ResetOutputs) == Err(ValueError(NotEnoughMessage(10, 9)))
  {
  }

  /** `reset_interface()` with a value for every output: the initial view shown and the
      results view hidden. */
  function ResetInterface(): (r: seq<UiValue>)
    ensures |r| == ResetOutputs
  {
    [Text(""), Text("Text"), Text(""), NoValue, Visibility(true), Visibility(false), Number(50), Number(20), Number(20), Number(10)]
  }

  /** The corrected reset restores the start screen: empty texts, "Text" input, no
      upload, initial view up, results hidden, and each slider at its initial value,
      which together make the 100 the weightage heading asks for. */
  lemma ResetRestoresStart()
    ensures Deliver(ResetInterface(), ResetOutputs).Ok?
    ensures Deliver(ResetInterface(), ResetOutputs).value[..4] == [Text(""), Text("Text"), Text(""), NoValue]
    ensures Deliver(ResetInterface(), ResetOutputs).value[4] == Visibility(true)
    ensures Deliver(ResetInterface(), ResetOutputs).value[5] == Visibility(false)
    ensures forall i :: 0 <= i < 4 ==> Deliver(ResetInterface(), ResetOutputs).value[6 + i] == Number(InitialWeights[i])
    ensures InitialWeights[0] + InitialWeights[1] + InitialWeights[2] + InitialWeights[3] == 100
  {
    var d := Deliver(ResetInterface(), ResetOutputs).value;
    assert d == ResetInterface();
  }
}
