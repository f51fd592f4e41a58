/** `format_job_description_analysis` of resume-evaluator/src/utils/helper.py: renders
    the first-stage analysis of a job description (a JSON object) as markdown, one
    section per requirement list, with a placeholder line for an empty list. */
module Helper {
  import opened Wrappers
  import opened PyText
  import opened PyJson
  import opened Markdown

  /** The argument: JSON text still to be decoded, or an already decoded value. */
  datatype AnalysisInput = RawText(text: JsonText) | Decoded(data: Json)

  const InvalidJsonMessage := "Error: Invalid JSON data provided."
  const Header := "# Job Description Analysis\n\n## Technical Skills\n\n### Essential\n"

  const NoEssential := "No essential technical skills listed"
  const NoAdvantageous := "No advantageous technical skills listed"
  const NoSoftSkills := "No soft skills listed"
  const NotSpecified := "Not specified"
  const NoEducation := "No specific education requirements listed"

  const AdvantageousHeading := "\n### Advantageous\n"
  const SoftSkillsHeading := "\n## Soft Skills\n"
  const LevelHeading := "\n## Level of Experience\n"
  const EducationHeading := "\n## Education\n"

  /** `md` followed by one list section: a line per item of `container.get(key, [])`,
      then the placeholder line when that value is falsy (absent, empty, or false). */
  function ListSection(md: string, container: Json, key: string, placeholder: string): (r: Result<string, PyError>)
    ensures r.Ok? ==> md <= r.value
  {
    var v :- Get(container, key, JArr([]));
    var items :- Iterate(v);
    var listed := md + Bullets("- ", Strs(items));
    Ok(if Truthy(v) then listed else listed + "- " + placeholder + "\n")
  }

  /** `md` followed by the two technical-skills sections of `data["technical_skills"]`. */
  function TechnicalSections(md: string, skills: Json): (r: Result<string, PyError>)
    ensures r.Ok? ==> md <= r.value
  {
    var essential :- ListSection(md, skills, "essential", NoEssential);
    ListSection(essential + AdvantageousHeading, skills, "advantageous", NoAdvantageous)
  }

  /** `md` followed by the soft skills, level of experience and education sections. */
  function OtherSections(md: string, data: Json): (r: Result<string, PyError>)
    ensures r.Ok? ==> md <= r.value
  {
    var soft :- ListSection(md + SoftSkillsHeading, data, "soft_skills", NoSoftSkills);
    var level :- Get(data, "level_of_exp", JStr(NotSpecified));
    ListSection(soft + LevelHeading + "- " + Str(level) + "\n" + EducationHeading, data, "education", NoEducation)
  }

  /** The markdown for decoded data; the first exception raised is the result. */
  function Analysis(data: Json): Result<string, PyError> {
    var skills :- Subscript(data, "technical_skills");
    var technical :- TechnicalSections(Header, skills);
    OtherSections(technical, data)
  }

  /** What `format_job_description_analysis` returns, or the exception it raises. */
  function JobDescriptionMarkdown(input: AnalysisInput): Result<string, PyError> {
    match input
    case RawText(t) => (match Loads(t)
                        case Err(_) => Ok(InvalidJsonMessage)
                        case Ok(data) => Analysis(data))
    case Decoded(data) => Analysis(data)
  }

  /** The second `get` with a `None` default gives the same truth value as the value
      the loop visited. */
  lemma GetTruthy(container: Json, key: string, v: Json)
    requires Get(container, key, JArr([])) == Ok(v)
    ensures Get(container, key, JNull).Ok?
    ensures Truthy(Get(container, key, JNull).value) == Truthy(v)
  {
  }

  /** One list section as the source writes it: the loop over
      `container.get(key, [])`, then `if not container.get(key):` the placeholder. */
  method AppendSection(md: string, container: Json, key: string, placeholder: string) returns (r: Result<string, PyError>)
    ensures r == ListSection(md, container, key, placeholder)
  {
    var v :- Get(container, key, JArr([]));
    var items :- Iterate(v);
    var markdown := AppendBullets(md, "- ", Strs(items));
    GetTruthy(container, key, v);
    var again := Get(container, key, JNull).value;
    if !Truthy(again) {
      markdown := markdown + "- " + placeholder + "\n";
    }
    return Ok(markdown);
  }

  /** `format_job_description_analysis(json_data)`, the markdown accumulated step by
      step; an exception ends it. */
  method FormatJobDescriptionAnalysis(input: AnalysisInput) returns (r: Result<string, PyError>)
    ensures r == JobDescriptionMarkdown(input)
  {
    var data: Json;
    match input {
      case RawText(t) =>
        var loaded := Loads(t);
        if loaded.Err? {
          return Ok(InvalidJsonMessage);
        }
        data := loaded.value;
      case Decoded(d) =>
        data := d;
    }
    var markdown := "# Job Description Analysis\n\n";
    markdown := markdown + "## Technical Skills\n\n";
    markdown := markdown + "### Essential\n";
    assert markdown == Header;
    var skills :- Subscript(data, "technical_skills");
    markdown :- AppendSection(markdown, skills, "essential", NoEssential);
    markdown := markdown + "\n### Advantageous\n";
    // `data["technical_skills"]` is evaluated again and gives the same object.
    var skillsAgain := Subscript(data, "technical_skills").value;
    markdown :- AppendSection(markdown, skillsAgain, "advantageous", NoAdvantageous);
    var technical := markdown;
    markdown := markdown + "\n## Soft Skills\n";
    markdown :- AppendSection(markdown, data, "soft_skills", NoSoftSkills);
    markdown := markdown + "\n## Level of Experience\n";
    var level :- Get(data, "level_of_exp", JStr(NotSpecified));
    markdown := markdown + "- " + Str(level) + "\n";
    markdown := markdown + "\n## Education\n";
    markdown :- AppendSection(markdown, data, "education", NoEducation);
    assert TechnicalSections(Header, skills) == Ok(technical);
    return Ok(markdown);
  }

  // ---------------------------------------------------------------------------
  // Properties

  /** Text that does not decode gives exactly the error message, which no analysis
      can be mistaken for. */
  lemma InvalidJsonGivesMessage(t: JsonText)
    requires t.parsed.Err?
    ensures JobDescriptionMarkdown(RawText(t)) == Ok(InvalidJsonMessage)
    ensures !(Header <= InvalidJsonMessage)
  {
    assert |InvalidJsonMessage| < |Header|;
  }

  /** Text is decoded first, so it renders like the value it decodes to. */
  lemma TextLikeValue(t: JsonText)
    requires t.parsed.Ok?
    ensures JobDescriptionMarkdown(RawText(t)) == JobDescriptionMarkdown(Decoded(t.parsed.value))
  {
  }

  /** An analysis always opens with the title and the essential-skills heading. */
  lemma AnalysisStartsWithHeader(data: Json)
    requires Analysis(data).Ok?
    ensures Header <= Analysis(data).value
  {
  }

  /** `technical_skills` is the one required key: without it the call raises a
      `KeyError`, and where it succeeds the data is an object and so is its
      `technical_skills` value. */
  lemma TechnicalSkillsRequired(data: Json)
    ensures data.JObj? && Lookup(data.members, "technical_skills").None? ==>
      Analysis(data) == Err(KeyError("technical_skills"))
    ensures Analysis(data).Ok? ==>
      data.JObj? && Lookup(data.members, "technical_skills").Some? &&
      Lookup(data.members, "technical_skills").value.JObj?
  {
  }

  /** The text of a section for a list of strings: the items in order, or the
      placeholder alone when the list is empty. */
  function Block(xs: seq<string>, placeholder: string): string {
    if xs == [] then "- " + placeholder + "\n" else Bullets("- ", xs)
  }

  function StrArr(xs: seq<string>): Json {
    JArr(seq(|xs|, i requires 0 <= i < |xs| => JStr(xs[i])))
  }

  /** Strings render as themselves. */
  lemma StrsOfStrings(xs: seq<string>)
    ensures Iterate(StrArr(xs)) == Ok(StrArr(xs).items) && Strs(StrArr(xs).items) == xs
  {
  }

  /** `md` followed by a block. */
  function AddBlock(md: string, xs: seq<string>, placeholder: string): (r: string)
    ensures r == md + Block(xs, placeholder)
  {
    if xs == [] then md + "- " + placeholder + "\n" else md + Bullets("- ", xs)
  }

  /** A list of strings, or no key at all, renders as its block: the placeholder when
      the list is empty or absent, the items otherwise. */
  lemma SectionOfList(md: string, ms: seq<(string, Json)>, key: string, xs: seq<string>, placeholder: string)
    requires Lookup(ms, key) == None || Lookup(ms, key) == Some(StrArr(xs))
    requires Lookup(ms, key) == None ==> xs == []
    ensures ListSection(md, JObj(ms), key, placeholder) == Ok(AddBlock(md, xs, placeholder))
  {
    StrsOfStrings(xs);
    assert Bullets("- ", []) == "";
    assert md + "" == md;
  }

  /** Reading a block back gives its items, or the placeholder alone: no item is lost,
      reordered or invented, and the placeholder shows exactly for an empty list. */
  lemma BlockRoundTrip(xs: seq<string>, placeholder: string)
    requires forall i :: 0 <= i < |xs| ==> '\n' !in xs[i]
    requires '\n' !in placeholder
    ensures ParseBullets("- ", Block(xs, placeholder)) == Some(if xs == [] then [placeholder] else xs)
  {
    if xs == [] {
      ParseBulletsOfBullets("- ", [placeholder]);
      assert Bullets("- ", [placeholder]) == "- " + placeholder + "\n" + Bullets("- ", []);
    } else {
      ParseBulletsOfBullets("- ", xs);
    }
  }

  /** A job analysis in the shape the first stage produces. */
  datatype JobAnalysis = JobAnalysis(essential: seq<string>, advantageous: seq<string>, softSkills: seq<string>,
                                     level: Option<string>, education: seq<string>)

  function TechnicalJson(a: JobAnalysis): Json {
    JObj([("essential", StrArr(a.essential)), ("advantageous", StrArr(a.advantageous))])
  }

  /** The JSON object for an analysis; an absent level leaves the key out. */
  function ToJson(a: JobAnalysis): Json {
    JObj([("technical_skills", TechnicalJson(a)),
          ("soft_skills", StrArr(a.softSkills)), ("education", StrArr(a.education))] +
         (if a.level.Some? then [("level_of_exp", JStr(a.level.value))] else []))
  }

  function Level(a: JobAnalysis): string {
    if a.level.Some? then a.level.value else NotSpecified
  }

  /** The document for an analysis, section by section in the fixed order. */
  function Document(a: JobAnalysis): string {
    var essential := AddBlock(Header, a.essential, NoEssential);
    var advantageous := AddBlock(essential + AdvantageousHeading, a.advantageous, NoAdvantageous);
    var soft := AddBlock(advantageous + SoftSkillsHeading, a.softSkills, NoSoftSkills);
    AddBlock(soft + LevelHeading + "- " + Level(a) + "\n" + EducationHeading, a.education, NoEducation)
  }

  /** The technical-skills object of an analysis renders as its two blocks. */
  lemma TechnicalLayout(a: JobAnalysis)
    ensures TechnicalSections(Header, TechnicalJson(a)) ==
      Ok(AddBlock(AddBlock(Header, a.essential, NoEssential) + AdvantageousHeading, a.advantageous, NoAdvantageous))
  {
    var ms := TechnicalJson(a).members;
    SectionOfList(Header, ms, "essential", a.essential, NoEssential);
    assert Lookup(ms[1..], "advantageous") == Some(StrArr(a.advantageous));
    SectionOfList(AddBlock(Header, a.essential, NoEssential) + AdvantageousHeading, ms, "advantageous", a.advantageous, NoAdvantageous);
  }

  lemma AnalysisLookups(a: JobAnalysis)
    ensures Lookup(ToJson(a).members, "soft_skills") == Some(StrArr(a.softSkills))
    ensures Lookup(ToJson(a).members, "education") == Some(StrArr(a.education))
    ensures Get(ToJson(a), "level_of_exp", JStr(NotSpecified)) == Ok(JStr(Level(a)))
  {
    SoftLookup(a);
    EducationLookup(a);
    LookupLevel(a);
  }

  lemma SoftLookup(a: JobAnalysis)
    ensures Lookup(ToJson(a).members, "soft_skills") == Some(StrArr(a.softSkills))
  {
    var ms := ToJson(a).members;
    assert ms[0].0 != "soft_skills";
    assert ms[1] == ("soft_skills", StrArr(a.softSkills));
  }

  lemma EducationLookup(a: JobAnalysis)
    ensures Lookup(ToJson(a).members, "education") == Some(StrArr(a.education))
  {
    var ms := ToJson(a).members;
    assert ms[0].0 != "education" && ms[1].0 != "education";
    assert ms[1..][1..] == ms[2..];
    assert ms[2] == ("education", StrArr(a.education));
  }

  lemma LookupLevel(a: JobAnalysis)
    ensures Lookup(ToJson(a).members, "level_of_exp") == if a.level.Some? then Some(JStr(a.level.value)) else None
  {
    var ms := ToJson(a).members;
    assert Lookup(ms[3..], "level_of_exp") == if a.level.Some? then Some(JStr(a.level.value)) else None;
    assert ms[0].0 != "level_of_exp" && ms[1].0 != "level_of_exp" && ms[2].0 != "level_of_exp";
  }

  /** The soft skills, level and education parts of an analysis. */
  lemma OtherLayout(md: string, a: JobAnalysis)
    ensures OtherSections(md, ToJson(a)) ==
      Ok(AddBlock(AddBlock(md + SoftSkillsHeading, a.softSkills, NoSoftSkills) + LevelHeading + "- " + Level(a) + "\n" + EducationHeading,
                  a.education, NoEducation))
  {
    var ms := ToJson(a).members;
    AnalysisLookups(a);
    SectionOfList(md + SoftSkillsHeading, ms, "soft_skills", a.softSkills, NoSoftSkills);
    var soft := AddBlock(md + SoftSkillsHeading, a.softSkills, NoSoftSkills);
    SectionOfList(soft + LevelHeading + "- " + Level(a) + "\n" + EducationHeading, ms, "education", a.education, NoEducation);
  }

  /** Every well-formed analysis renders as its document: essential, advantageous,
      soft skills, level of experience ("Not specified" when absent) and education,
      in that order, each list as its block. */
  lemma AnalysisLayout(a: JobAnalysis)
    ensures Analysis(ToJson(a)) == Ok(Document(a))
  {
    assert Lookup(ToJson(a).members, "technical_skills") == Some(TechnicalJson(a));
    TechnicalLayout(a);
    OtherLayout(TechnicalSections(Header, TechnicalJson(a)).value, a);
  }
}
