/** The dataset descriptor, the choice between reading a file as text or as
    a data URL, and the two prompt templates built from a list of
    descriptors (frontend/src/utils/upload-dataset.ts). */
module UploadDataset {
  import opened Common
  import opened Text

  /** `DatasetInfo`: `path` and `content` are optional fields. */
  datatype DatasetInfo = DatasetInfo(
    name: string,
    extension: string,
    size: nat,
    path: Option<string>,
    content: Option<string>)

  /** The two ways `processDatasetFile` can read a file. */
  datatype Encoding = AsText | AsDataUrl

  /** What a `FileReader` delivers: the content, or an error event (the
      promise rejects). */
  datatype ReadOutcome = Loaded(content: string) | ReadFailed(error: string)

  /** The reader, as an oracle: what reading this file would give in each
      mode (`readAsText`, `readAsDataURL`). */
  datatype Reader = Reader(asText: ReadOutcome, asDataUrl: ReadOutcome)

  function ReadWith(reader: Reader, e: Encoding): ReadOutcome
  {
    match e
    case AsText => reader.asText
    case AsDataUrl => reader.asDataUrl
  }

  /** The size limit below which a textual file is read as text. */
  const TextLimit: nat := 1024 * 1024

  /** The type says "text", or the name (case-sensitively) ends in one of
      the three textual extensions. */
  predicate LooksTextual(f: File)
  {
    Contains(f.mimeType, "text")
    || EndsWith(f.name, ".csv") || EndsWith(f.name, ".json") || EndsWith(f.name, ".txt")
  }

  /** Text for small textual files, a data URL for everything else. */
  function ChooseEncoding(f: File): (e: Encoding)
    ensures e == AsText <==> LooksTextual(f) && f.Size() < 1048576
  {
    if LooksTextual(f) && f.Size() < TextLimit then AsText else AsDataUrl
  }

  /** The limit is strict: one byte under it reads as text, the limit
      itself as a data URL. */
  lemma EncodingBoundary(name: string, mimeType: string, under: seq<byte>, at: seq<byte>)
    requires EndsWith(name, ".csv")
    requires |under| == 1048575 && |at| == 1048576
    ensures ChooseEncoding(File(name, mimeType, under)) == AsText
    ensures ChooseEncoding(File(name, mimeType, at)) == AsDataUrl
  {
  }

  /** `file.name.split('.').pop()?.toLowerCase() || ''`. */
  function Extension(name: string): string
  {
    Lower(LastSegment(name, '.'))
  }

  lemma LowerKeepsDots(s: string)
    ensures '.' in Lower(s) <==> '.' in s
  {
    if '.' in Lower(s) {
      var i :| 0 <= i < |s| && Lower(s)[i] == '.';
      assert s[i] == '.';
    }
    if '.' in s {
      var i :| 0 <= i < |s| && s[i] == '.';
      assert Lower(s)[i] == '.';
    }
  }

  /** The extension is the lower-cased text after the last '.', the whole
      lower-cased name when there is no '.', and empty exactly when the
      name is empty or ends in '.'. */
  lemma ExtensionSpec(name: string)
    ensures var ext := Extension(name);
      && '.' !in ext
      && EndsWith(Lower(name), ext)
      && (|ext| < |name| ==> name[|name| - |ext| - 1] == '.')
      && ('.' !in name ==> ext == Lower(name))
      && (ext == "" <==> name == "" || name[|name| - 1] == '.')
  {
    var r := LastSegment(name, '.');
    LastSegmentSpec(name, '.');
    LowerKeepsDots(r);
    var ext := Extension(name);
    assert Lower(name)[|name| - |r|..] == Lower(r);
    if name != "" && name[|name| - 1] == '.' {
      assert |r| == 0;
    }
  }

  /** `processDatasetFile`: the read is chosen by `ChooseEncoding`; a read
      failure yields `null` (here `None`) instead of a rejection. */
  function ProcessDatasetFile(f: File, reader: Reader): (r: Option<DatasetInfo>)
    ensures r.None? <==> ReadWith(reader, ChooseEncoding(f)).ReadFailed?
    ensures r.Some? ==>
      && r.value.name == f.name
      && r.value.size == f.Size()
      && r.value.extension == Extension(f.name)
      && r.value.path == Some("/workspace/uploads/" + f.name)
      && r.value.content == Some(ReadWith(reader, ChooseEncoding(f)).content)
  {
    match ReadWith(reader, ChooseEncoding(f))
    case ReadFailed(_) => None
    case Loaded(content) =>
      Some(DatasetInfo(f.name, Extension(f.name), f.Size(),
        Some("/workspace/uploads/" + f.name), Some(content)))
  }

  // ---------------------------------------------------------------------
  // Prompt templates

  /** The opening lines both templates share. */
  const UploadHeaderLine: string :=
    "I've uploaded the following" + " dataset file(s) to the" + " workspace/uploads directory:"

  function Names(ds: seq<DatasetInfo>): (names: seq<string>)
    ensures |names| == |ds|
    ensures forall i :: 0 <= i < |ds| ==> names[i] == ds[i].name
  {
    seq(|ds|, i requires 0 <= i < |ds| => ds[i].name)
  }

  /** One "- name" line per dataset, in input order. */
  function NameLines(names: seq<string>): (lines: seq<string>)
    ensures |lines| == |names|
    ensures forall i :: 0 <= i < |names| ==> lines[i] == "- " + names[i]
  {
    seq(|names|, i requires 0 <= i < |names| => "- " + names[i])
  }

  /** `generateDatasetAnalysisInstructions`. */
  function AnalysisInstructions(ds: seq<DatasetInfo>): (r: string)
    ensures r == "" <==> |ds| == 0
  {
    if |ds| == 0 then ""
    else "\n" + UploadHeaderLine + "\n" + Join(NameLines(Names(ds)), "\n") + "\n"
  }

  /** The fixed lines that follow the file list in the ML template, from the
      blank line after the list to the closing sentence. */
  const CrispDmLines: seq<string> := [
    "",
    "Please use this " + "dataset to build an " + "end-to-end machine " + "learning solution " +
      "following the " + "CRISP-DM " + "methodology. I need " + "a comprehensive " +
      "analysis with the " + "following steps:",
    "",
    "1. Business " + "Understanding",
    "   - Identify " + "specific business " + "problems this data " + "could help solve",
    "   - Define clear " + "objectives, success " + "criteria, and key " + "performance " +
      "indicators",
    "   - Explain how " + "solving this " + "problem creates " + "business value",
    "",
    "2. Data " + "Understanding",
    "   - Perform " + "exploratory data " + "analysis (EDA) with " + "visualizations",
    "   - Identify " + "patterns, " + "correlations, and " + "potential insights",
    "   - Assess data " + "quality, " + "completeness, and " + "distribution",
    "   - Identify " + "outliers and " + "anomalies",
    "",
    "3. Data Preparation",
    "   - Implement " + "thorough data " + "cleaning procedures:",
    "     * Handle " + "missing values with " + "appropriate " + "imputation " + "techniques",
    "     * Remove or " + "transform outliers",
    "     * Fix " + "inconsistencies and " + "errors in the data",
    "   - Feature " + "Engineering:",
    "     * Create new " + "features that " + "better represent " + "underlying patterns",
    "     * Transform " + "existing features " + "(normalization, " + "standardization, " + "etc.)",
    "     * Encode " + "categorical " + "variables " + "appropriately",
    "   - Feature " + "Selection:",
    "     * Identify the " + "most important " + "features using " + "statistical methods",
    "     * Remove " + "redundant or " + "irrelevant features",
    "     * Apply " + "dimensionality " + "reduction if needed",
    "",
    "4. Modeling",
    "   - Develop " + "multiple models " + "appropriate for the " + "problem:",
    "     * Try " + "different " + "algorithms " + "(decision trees, " + "neural networks, " +
      "etc.)",
    "     * Implement " + "cross-validation to " + "ensure robustness",
    "     * Tune " + "hyperparameters " + "systematically",
    "   - Compare model " + "performance using " + "appropriate metrics",
    "   - Explain model " + "selection rationale " + "and tradeoffs",
    "",
    "5. Evaluation",
    "   - Evaluate model " + "performance against " + "business objectives",
    "   - Analyze model " + "errors and edge " + "cases",
    "   - Perform " + "sensitivity analysis",
    "   - Assess model " + "fairness and bias",
    "   - Validate model " + "on holdout data",
    "",
    "6. Deployment",
    "   - Provide a " + "clear " + "implementation " + "strategy",
    "   - Outline " + "monitoring and " + "maintenance " + "requirements",
    "   - Create a " + "deployment pipeline " + "with validation " + "steps",
    "   - Suggest A/B " + "testing approach if " + "applicable",
    "",
    "7. Final Report",
    "   - Generate a " + "comprehensive " + "report with:",
    "     * Executive " + "summary for " + "business " + "stakeholders",
    "     * Technical " + "details of the " + "implementation",
    "     * " + "Visualizations of " + "results and model " + "performance",
    "     * " + "Recommendations for " + "future improvements",
    "   - Provide a link " + "to a web interface " + "(like Streamlit, " + "Gradio, or Flask) " +
      "that demonstrates " + "the model working " + "correctly",
    "",
    "Let's start by " + "understanding what " + "this data " + "represents and what " +
      "business problems " + "we can solve with " + "it. Please be " + "thorough in your " +
      "analysis and " + "implementation."
  ]

  /** The fixed text after the file list: a line break, then the lines. */
  const CrispDmBody: string := Join(CrispDmLines, "\n") + "\n"
  const CrispDmText: string := "\n" + CrispDmBody

  /** `generateMLPipelineInstructions`. */
  function MLPipelineInstructions(ds: seq<DatasetInfo>): (r: string)
    ensures r == "" <==> |ds| == 0
  {
    if |ds| == 0 then ""
    else "\n" + UploadHeaderLine + "\n" + Join(NameLines(Names(ds)), "\n") + CrispDmText
  }

  lemma ShiftLineBreak(p: string, t: string)
    ensures p + ("\n" + t) == (p + "\n") + t
  {
  }

  /** For a non-empty list the ML template is the analysis template
      followed by the fixed CRISP-DM text. */
  lemma MLExtendsAnalysis(ds: seq<DatasetInfo>)
    requires |ds| > 0
    ensures MLPipelineInstructions(ds) == AnalysisInstructions(ds) + CrispDmBody
  {
    var prefix := "\n" + UploadHeaderLine + "\n" + Join(NameLines(Names(ds)), "\n");
    ShiftLineBreak(prefix, CrispDmBody);
  }

  /** Both templates read nothing but the `name` fields. */
  lemma TemplatesDependOnlyOnNames(ds: seq<DatasetInfo>, es: seq<DatasetInfo>)
    requires |ds| == |es|
    requires forall i :: 0 <= i < |ds| ==> ds[i].name == es[i].name
    ensures AnalysisInstructions(ds) == AnalysisInstructions(es)
    ensures MLPipelineInstructions(ds) == MLPipelineInstructions(es)
  {
    assert Names(ds) == Names(es);
  }

  lemma HeaderIsOneLine()
    ensures '\n' !in UploadHeaderLine
  {
    assert '\n' !in "I've uploaded the following";
    assert '\n' !in " dataset file(s) to the";
    assert '\n' !in " workspace/uploads directory:";
  }

  /** Read line by line, the analysis prompt is a blank line, the header,
      one "- name" line per dataset in input order, and a final empty
      line: every name appears on its own line, once, in order. */
  lemma AnalysisLines(ds: seq<DatasetInfo>)
    requires |ds| > 0
    requires forall i :: 0 <= i < |ds| ==> '\n' !in ds[i].name
    ensures SplitOn(AnalysisInstructions(ds), '\n')
      == ["", UploadHeaderLine] + NameLines(Names(ds)) + [""]
  {
    var lines := NameLines(Names(ds));
    forall i | 0 <= i < |lines| ensures '\n' !in lines[i] {
      assert lines[i] == "- " + ds[i].name;
    }
    HeaderIsOneLine();
    SplitFramedLines(UploadHeaderLine, lines, '\n');
    var j := Join(lines, "\n");
    assert AnalysisInstructions(ds) == "\n" + (UploadHeaderLine + "\n" + (j + "\n"));
  }
}
