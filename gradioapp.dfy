/** resume-evaluator/src/gradio_app.py: a form that echoes what was entered (the main
    text, an additional text or an uploaded file, the connection settings with the API
    key masked, and the four weights) as one markdown summary, and a reset button. */
module GradioApp {
  import opened Wrappers
  import opened PyText
  import opened Markdown

  /** An uploaded file.  What reading it yields is given: for a name ending in ".pdf",
      the text of each page or the message of the exception the PDF reader raised; for
      any other name, the contents decoded as UTF-8 or the decoding error's message. */
  datatype Upload = Upload(name: string, pdfPages: Result<seq<string>, string>, decoded: Result<string, string>)

  /** What the upload component hands the click handler: one file, or a list of files
      when the component accepts several. */
  datatype UploadValue = OneFile(file: Upload) | FileList(files: seq<Upload>)

  /** The page declares its upload component with `file_count="multiple"`. */
  const PageAcceptsSeveral := true

  /** The component's value for the files the user chose: `None` when none was chosen,
      the list of them when it accepts several, the one chosen file otherwise (such a
      component lets the user choose at most one). */
  function ComponentValue(chosen: seq<Upload>, several: bool): (r: Option<UploadValue>)
    requires several || |chosen| <= 1
    ensures r.None? <==> chosen == []
    ensures r.Some? && several ==> r.value == FileList(chosen)
    ensures r.Some? && !several ==> r.value == OneFile(chosen[0])
  {
    if chosen == [] then None
    else if several then Some(FileList(chosen))
    else Some(OneFile(chosen[0]))
  }

  /** The inputs of the submit button, in the order the click handler lists them. */
  datatype Form = Form(textInput: string, additionalText: string, fileUpload: Option<UploadValue>, inputType: string,
                       apiKey: string, interface: string, model: string,
                       technicalSkills: int, softSkills: int, experience: int, education: int)

  const MainHeading := "## Main Text Input\n\n"
  const AdditionalHeading := "## Additional Text Input\n\n"
  const UploadHeading := "## Uploaded File Content\n\n"
  const FileErrorPrefix := "Error processing file: "
  const KeyLabel := "API Key: "
  /** The message of the `AttributeError` raised by asking a list for its `name`. */
  const ListNoName := "'list' object has no attribute 'name'"

  /** The text of an upload: the pages, each followed by a newline, or the contents. */
  function FileText(u: Upload): (r: Result<string, string>)
    ensures EndsWith(u.name, ".pdf") ==> (r.Ok? <==> u.pdfPages.Ok?)
    ensures EndsWith(u.name, ".pdf") && r.Ok? ==> r.value == Bullets("", u.pdfPages.value)
    ensures !EndsWith(u.name, ".pdf") ==> r == u.decoded
  {
    if EndsWith(u.name, ".pdf") then
      var pages :- u.pdfPages;
      Ok(Bullets("", pages))
    else u.decoded
  }

  /** The text of the component's value: a list has no `name`, so reading it raises
      before any file is opened. */
  function UploadText(v: UploadValue): (r: Result<string, string>)
    ensures v.FileList? ==> r == Err(ListNoName)
    ensures v.OneFile? ==> r == FileText(v.file)
  {
    match v
    case OneFile(u) => FileText(u)
    case FileList(_) => Err(ListNoName)
  }

  /** The one section that may follow the main text. */
  datatype Extra = NoExtra | AdditionalText(text: string) | FileContent(content: string) | FileError(message: string)

  /** Which section the form calls for: the additional text for "Text" with a non-empty
      text, the file for "File" with an upload, nothing otherwise. */
  function ExtraOf(f: Form): Extra {
    if f.inputType == "Text" && f.additionalText != "" then AdditionalText(f.additionalText)
    else if f.inputType == "File" && f.fileUpload.Some? then
      match UploadText(f.fileUpload.value)
      case Ok(content) => FileContent(content)
      case Err(e) => FileError(e)
    else NoExtra
  }

  function RenderExtra(e: Extra): string {
    match e
    case NoExtra => ""
    case AdditionalText(t) => AdditionalHeading + t + "\n\n"
    case FileContent(c) => UploadHeading + c + "\n\n"
    case FileError(m) => FileErrorPrefix + m + "\n\n"
  }

  function MainPart(text: string): string {
    if text != "" then MainHeading + text + "\n\n" else ""
  }

  /** The connection settings, the key shown as one '*' per character. */
  function DetailsPart(apiKey: string, interface: string, model: string): string {
    KeyLabel + Stars(|apiKey|) + "\nInterface: " + interface + "\nModel: " + model + "\n"
  }

  /** One weight: its name, its value and a percent sign. */
  function WeightLine(name: string, weight: int): string {
    name + ": " + IntToString(weight) + "%"
  }

  /** The four weights, one "- " line each; the last line has no newline. */
  function WeightagePart(technical: int, soft: int, experience: int, education: int): string {
    "Weightage:\n" + "- " + WeightLine("Technical Skills", technical) + "\n" + "- " + WeightLine("Soft Skills", soft) +
    "\n" + "- " + WeightLine("Experience", experience) + "\n" + "- " + WeightLine("Education", education)
  }

  /** The summary `process_input` returns, section by section. */
  function Content(f: Form): string {
    MainPart(f.textInput) + RenderExtra(ExtraOf(f)) + DetailsPart(f.apiKey, f.interface, f.model) +
    WeightagePart(f.technicalSkills, f.softSkills, f.experience, f.education)
  }

  /** Reading an upload: the pages one at a time for a PDF, the decoded contents
      otherwise, or the message of the exception either raises; a list of files
      fails on its missing `name`. */
  method ReadUpload(value: UploadValue) returns (r: Result<string, string>)
    ensures r == UploadText(value)
  {
    if value.FileList? {
      return Err(ListNoName);
    }
    var upload := value.file;
    if EndsWith(upload.name, ".pdf") {
      match upload.pdfPages {
        case Ok(pages) =>
          var text := AppendBullets("", "", pages);
          assert "" + Bullets("", pages) == Bullets("", pages);
          r := Ok(text);
        case Err(e) =>
          r := Err(e);
      }
    } else {
      r := upload.decoded;
    }
  }

  /** `process_input(...)`: the summary accumulated with `+=`, one formatted string
      per step. */
  method ProcessInput(f: Form) returns (content: string)
    ensures content == Content(f)
  {
    content := "";
    if f.textInput != "" {
      content := content + (MainHeading + f.textInput + "\n\n");
      assert content == MainPart(f.textInput);
    }
    if f.inputType == "Text" && f.additionalText != "" {
      content := content + (AdditionalHeading + f.additionalText + "\n\n");
    } else if f.inputType == "File" && f.fileUpload.Some? {
      var fileContent := ReadUpload(f.fileUpload.value);
      match fileContent {
        case Ok(text) =>
          content := content + (UploadHeading + text + "\n\n");
        case Err(e) =>
          content := content + (FileErrorPrefix + e + "\n\n");
      }
    } else {
      assert content == MainPart(f.textInput) + "";
    }
    content := content + (KeyLabel + Stars(|f.apiKey|) + "\nInterface: " + f.interface + "\nModel: " + f.model + "\n");
    content := content + ("Weightage:\n" + "- " + WeightLine("Technical Skills", f.technicalSkills) + "\n" +
                          "- " + WeightLine("Soft Skills", f.softSkills) + "\n" + "- " + WeightLine("Experience", f.experience) +
                          "\n" + "- " + WeightLine("Education", f.education));
  }

  // ---------------------------------------------------------------------------
  // Properties of the summary

  /** Each optional section appears exactly under its condition, so the additional text
      and the file can never both appear; a file that cannot be read still leaves a
      summary, with the error in the file's place. */
  lemma ExtraCases(f: Form)
    ensures ExtraOf(f).AdditionalText? <==> f.inputType == "Text" && f.additionalText != ""
    ensures ExtraOf(f).AdditionalText? ==> ExtraOf(f).text == f.additionalText
    ensures ExtraOf(f).FileContent? <==>
      f.inputType == "File" && f.fileUpload.Some? && UploadText(f.fileUpload.value).Ok?
    ensures ExtraOf(f).FileContent? ==> ExtraOf(f).content == UploadText(f.fileUpload.value).value
    ensures ExtraOf(f).FileError? <==>
      f.inputType == "File" && f.fileUpload.Some? && UploadText(f.fileUpload.value).Err?
    ensures ExtraOf(f).FileError? ==> ExtraOf(f).message == UploadText(f.fileUpload.value).error
    ensures ExtraOf(f).NoExtra? <==>
      !(f.inputType == "Text" && f.additionalText != "") && !(f.inputType == "File" && f.fileUpload.Some?)
  {
  }

  /** On the page as built, the component accepts several files, so any file chosen in
      "File" mode reaches the handler as a list, and the summary shows the
      `AttributeError` in the file's place: the upload section never appears. */
  lemma ListUploadFails(f: Form, chosen: seq<Upload>)
    requires f.inputType == "File" && chosen != []
    requires f.fileUpload == ComponentValue(chosen, PageAcceptsSeveral)
    ensures ExtraOf(f) == FileError(ListNoName)
    ensures Content(f) == MainPart(f.textInput) + FileErrorPrefix + ListNoName + "\n\n" +
      DetailsPart(f.apiKey, f.interface, f.model) + WeightagePart(f.technicalSkills, f.softSkills, f.experience, f.education)
  {
  }

  /** With a component that accepts one file, as the handler expects, a readable file
      chosen in "File" mode is shown under the upload heading, and one that cannot be
      read shows its own error. */
  lemma SingleUploadShown(f: Form, u: Upload)
    requires f.inputType == "File"
    requires f.fileUpload == ComponentValue([u], false)
    ensures FileText(u).Ok? ==> RenderExtra(ExtraOf(f)) == UploadHeading + FileText(u).value + "\n\n"
    ensures FileText(u).Err? ==> RenderExtra(ExtraOf(f)) == FileErrorPrefix + FileText(u).error + "\n\n"
  {
  }

  /** The summary opens with the main-text section exactly when a main text was given. */
  lemma MainSectionIff(f: Form)
    ensures MainHeading + f.textInput + "\n\n" <= Content(f) <==> f.textInput != ""
  {
    var e := ExtraOf(f);
    ExtraOpening(e);
    var d := DetailsPart(f.apiKey, f.interface, f.model);
    assert |d| > 3 && d[3] == ' ';
    SectionFirst(f.textInput, RenderExtra(e), d, WeightagePart(f.technicalSkills, f.softSkills, f.experience, f.education));
  }

  /** Every section that can follow the main text starts differently from it. */
  lemma ExtraOpening(e: Extra)
    ensures RenderExtra(e) == "" || (|RenderExtra(e)| > 3 && RenderExtra(e)[3] != MainHeading[3])
  {
    match e
    case NoExtra =>
    case AdditionalText(t) => assert RenderExtra(e)[3] == AdditionalHeading[3];
    case FileContent(c) => assert RenderExtra(e)[3] == UploadHeading[3];
    case FileError(m) => assert RenderExtra(e)[3] == FileErrorPrefix[3];
  }

  lemma SectionFirst(text: string, extra: string, details: string, weightage: string)
    requires extra == "" || (|extra| > 3 && extra[3] != MainHeading[3])
    requires |details| > 3 && details[3] != MainHeading[3]
    ensures MainHeading + text + "\n\n" <= MainPart(text) + extra + details + weightage <==> text != ""
  {
    var rest := extra + details + weightage;
    if text == "" {
      assert MainPart(text) + extra + details + weightage == rest;
      assert rest[3] != MainHeading[3];
      assert (MainHeading + text + "\n\n")[3] == MainHeading[3];
    } else {
      assert MainPart(text) + extra + details + weightage == (MainHeading + text + "\n\n") + rest;
    }
  }

  /** The key enters the summary only through its length: two forms that differ only
      in keys of the same length give the same summary. */
  lemma KeyOnlyByLength(f: Form, key: string)
    requires |key| == |f.apiKey|
    ensures Content(f.(apiKey := key)) == Content(f)
  {
  }

  /** The key line is "API Key: " and then nothing but '*', one per key character. */
  lemma KeyMasked(f: Form)
    ensures KeyLabel + Stars(|f.apiKey|) + "\n" <= DetailsPart(f.apiKey, f.interface, f.model)
    ensures forall i :: |KeyLabel| <= i < |KeyLabel| + |f.apiKey| ==> DetailsPart(f.apiKey, f.interface, f.model)[i] == '*'
  {
  }

  /** The weightage ends the summary. */
  lemma WeightageLast(f: Form)
    ensures EndsWith(Content(f), WeightagePart(f.technicalSkills, f.softSkills, f.experience, f.education))
  {
    var w := WeightagePart(f.technicalSkills, f.softSkills, f.experience, f.education);
    var c := Content(f);
    assert c[|c| - |w|..] == w;
  }

  /** The four weight lines, in the order the summary shows them. */
  function WeightLines(f: Form): (r: seq<string>)
    ensures |r| == 4
  {
    [WeightLine("Technical Skills", f.technicalSkills), WeightLine("Soft Skills", f.softSkills),
     WeightLine("Experience", f.experience), WeightLine("Education", f.education)]
  }

  /** Read back line by line, the weightage lists the technical, soft-skill, experience
      and education weights in that order, each on its own line. */
  lemma WeightageLines(f: Form)
    ensures WeightagePart(f.technicalSkills, f.softSkills, f.experience, f.education) + "\n" ==
      "Weightage:\n" + Bullets("- ", WeightLines(f))
    ensures ParseBullets("- ", Bullets("- ", WeightLines(f))) == Some(WeightLines(f))
  {
    var lines := WeightLines(f);
    var p, a, b, c, d := "- ", lines[0], lines[1], lines[2], lines[3];
    Bullets4(p, a, b, c, d);
    assert lines == [a, b, c, d];
    Regroup("Weightage:\n", p, "\n", a, b, c, d);
    WeightLineOneLine("Technical Skills", f.technicalSkills);
    WeightLineOneLine("Soft Skills", f.softSkills);
    WeightLineOneLine("Experience", f.experience);
    WeightLineOneLine("Education", f.education);
    ParseBulletsOfBullets(p, lines);
  }

  lemma Regroup(h: string, p: string, nl: string, a: string, b: string, c: string, d: string)
    ensures h + p + a + nl + p + b + nl + p + c + nl + p + d + nl ==
            h + (p + a + nl + (p + b + nl + (p + c + nl + (p + d + nl))))
  {
  }

  lemma Bullets4(p: string, a: string, b: string, c: string, d: string)
    ensures Bullets(p, [a, b, c, d]) == p + a + "\n" + (p + b + "\n" + (p + c + "\n" + (p + d + "\n")))
  {
    assert [a, b, c, d][1..] == [b, c, d];
    assert [b, c, d][1..] == [c, d];
    assert [c, d][1..] == [d];
    assert [d][1..] == [];
    assert p + d + "\n" + "" == p + d + "\n";
    assert Bullets(p, [d]) == p + d + "\n";
    assert Bullets(p, [c, d]) == p + c + "\n" + (p + d + "\n");
    assert Bullets(p, [b, c, d]) == p + b + "\n" + (p + c + "\n" + (p + d + "\n"));
  }

  /** A weight line is one line: a name without newlines, then digits and signs. */
  lemma WeightLineOneLine(name: string, weight: int)
    requires '\n' !in name
    ensures '\n' !in WeightLine(name, weight)
  {
    assert '\n' !in IntToString(weight);
  }

  // ---------------------------------------------------------------------------
  // reset_interface

  /** The values the reset button writes into the main text, the input type, the
      additional text, the upload, the output and the four weight sliders. */
  datatype ResetValues = ResetValues(textInput: string, inputType: string, additionalText: string,
                                     fileUpload: Option<UploadValue>, output: string,
                                     technicalSkills: int, softSkills: int, experience: int, education: int)

  /** The values those components start with when the page is built. */
  const InitialValues := ResetValues("", "Text", "", None, "", 60, 10, 10, 10)

  /** `reset_interface()`. */
  function ResetInterface(): (r: ResetValues)
    ensures r == InitialValues
    ensures r.technicalSkills + r.softSkills + r.experience + r.education == 90
  {
    ResetValues("", "Text", "", None, "", 60, 10, 10, 10)
  }

  /** The form after the reset button: the key, interface and model are not among its
      outputs and keep their values. */
  function ApplyReset(f: Form): (r: Form)
    ensures r.apiKey == f.apiKey && r.interface == f.interface && r.model == f.model
    ensures r.textInput == ResetInterface().textInput && r.inputType == ResetInterface().inputType
    ensures r.additionalText == ResetInterface().additionalText && r.fileUpload == ResetInterface().fileUpload
    ensures r.technicalSkills == ResetInterface().technicalSkills && r.softSkills == ResetInterface().softSkills
    ensures r.experience == ResetInterface().experience && r.education == ResetInterface().education
  {
    var v := ResetInterface();
    f.(textInput := v.textInput, inputType := v.inputType, additionalText := v.additionalText,
       fileUpload := v.fileUpload, technicalSkills := v.technicalSkills, softSkills := v.softSkills,
       experience := v.experience, education := v.education)
  }

  /** Submitting right after a reset echoes only the settings and the initial weights. */
  lemma SubmitAfterReset(f: Form)
    ensures Content(ApplyReset(f)) ==
      DetailsPart(f.apiKey, f.interface, f.model) + WeightagePart(60, 10, 10, 10)
  {
    var g := ApplyReset(f);
    OnlySettings(g);
  }

  /** A form with no main text and an empty additional text echoes only the settings. */
  lemma OnlySettings(g: Form)
    requires g.textInput == "" && g.inputType == "Text" && g.additionalText == ""
    ensures Content(g) ==
      DetailsPart(g.apiKey, g.interface, g.model) + WeightagePart(g.technicalSkills, g.softSkills, g.experience, g.education)
  {
    assert ExtraOf(g) == NoExtra;
    var d := DetailsPart(g.apiKey, g.interface, g.model);
    var w := WeightagePart(g.technicalSkills, g.softSkills, g.experience, g.education);
    assert MainPart(g.textInput) == "";
    assert RenderExtra(ExtraOf(g)) == "";
    EmptyLead(d, w);
    assert Content(g) == "" + "" + d + w;
  }

  lemma EmptyLead(d: string, w: string)
    ensures "" + "" + d + w == d + w
  {
  }

  /** The initial weights read "60%", "10%", "10%" and "10%". */
  lemma InitialWeightText()
    ensures IntToString(60) == "60" && IntToString(10) == "10"
  {
    assert DigitChar(0) == '0' && DigitChar(1) == '1' && DigitChar(6) == '6';
    assert NatToString(6) == "6" && NatToString(1) == "1";
  }
}
