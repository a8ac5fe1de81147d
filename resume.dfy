/**
 * The resume agent (linkedAI/agents/resume_agent.py): loading the resume text
 * once at construction, and the fallbacks applied to the language model's
 * replies for the match and tweak tools. The file system, the PDF reader and
 * the model are inputs: a resume file is described by what each read of it
 * yields, and the model by the reply it gives to what the prompt is built from.
 */
module Resume {
  import opened Wrappers
  import opened Strings
  import opened ChatModels

  /** Position of the last `c` in `s`, or -1 (Python's `s.rfind(c)`). */
  function LastIndexOf(s: string, c: char): (i: int)
    ensures -1 <= i < |s|
    ensures i >= 0 ==> s[i] == c
    ensures forall k :: i < k < |s| ==> s[k] != c
  {
    if |s| == 0 then -1
    else if s[|s| - 1] == c then |s| - 1
    else LastIndexOf(s[..|s| - 1], c)
  }

  /**
   * `PurePath(name).suffix` of a final path component: from its last `.` on,
   * when that dot is neither the first nor the last character; "" otherwise.
   */
  function Suffix(name: string): (suffix: string)
    ensures suffix == "" || (&& suffix[0] == '.' && |suffix| >= 2 && |suffix| < |name|
                             && name[|name| - |suffix|..] == suffix && '.' !in suffix[1..])
    ensures suffix == "" <==> (forall k :: 0 < k < |name| ==> name[k] != '.') || (|name| > 0 && name[|name| - 1] == '.')
  {
    var i := LastIndexOf(name, '.');
    if 0 < i < |name| - 1 then name[i..] else ""
  }

  /** `resume_path.suffix.lower() == ".pdf"`, with the lowering on ASCII letters. */
  predicate IsPdf(name: string) {
    LowerAscii(Suffix(name)) == ".pdf"
  }

  /** What `page.extract_text()` gives: a text, `None`, or an exception. */
  datatype PageText = Extracted(text: string) | NoText | ExtractFails

  /**
   * A resume path. For an existing file, `name` is its final component, `pdf`
   * the pages `PdfReader` finds (`None` when opening it raises) and `text` the
   * result of `read_text(encoding="utf-8")` (`None` when that raises).
   */
  datatype ResumeFile = Missing | Present(name: string, pdf: Option<seq<PageText>>, text: Option<string>)

  /** The text a page contributes, when it is a non-empty string. */
  predicate HasText(p: PageText) {
    p.Extracted? && p.text != ""
  }

  /**
   * The texts the page loop collects: the non-empty ones, in page order;
   * `None` when some page's extraction raises.
   */
  function PageTexts(pages: seq<PageText>): (r: Option<seq<string>>)
    ensures r.None? <==> exists k :: 0 <= k < |pages| && pages[k].ExtractFails?
    ensures r.Some? ==> forall k :: 0 <= k < |r.value| ==> r.value[k] != ""
  {
    if |pages| == 0 then Some([])
    else
      var last := pages[|pages| - 1];
      match PageTexts(pages[..|pages| - 1])
      case None => None
      case Some(init) =>
        if last.ExtractFails? then None
        else if HasText(last) then Some(init + [last.text])
        else Some(init)
  }

  /**
   * The collected texts are exactly the non-empty page texts: none is left out
   * and none is made up, so there are none exactly when no page has text.
   */
  lemma {:induction false} PageTextsContents(pages: seq<PageText>)
    requires PageTexts(pages).Some?
    ensures var parts := PageTexts(pages).value;
      && (forall t :: t in parts <==> exists k :: 0 <= k < |pages| && HasText(pages[k]) && pages[k].text == t)
      && (|parts| == 0 <==> forall k :: 0 <= k < |pages| ==> !HasText(pages[k]))
  {
    if |pages| > 0 {
      var init := pages[..|pages| - 1];
      var last := pages[|pages| - 1];
      PageTextsContents(init);
      var parts := PageTexts(pages).value;
      forall t | t in parts ensures exists k :: 0 <= k < |pages| && HasText(pages[k]) && pages[k].text == t {
        if t in PageTexts(init).value {
          var k :| 0 <= k < |init| && HasText(init[k]) && init[k].text == t;
          assert pages[k] == init[k];
        } else {
          assert HasText(pages[|pages| - 1]) && pages[|pages| - 1].text == t;
        }
      }
      forall k | 0 <= k < |pages| && HasText(pages[k]) ensures pages[k].text in parts {
        if k < |init| {
          assert init[k] == pages[k];
        }
      }
      if |parts| > 0 {
        assert parts[0] in parts;
      }
    }
  }

  /**
   * The positions of the pages that have text: each such page once, in page
   * order, and no other page.
   */
  function TextIndices(pages: seq<PageText>): (idx: seq<int>)
    ensures forall j :: 0 <= j < |idx| ==> 0 <= idx[j] < |pages| && HasText(pages[idx[j]])
    ensures forall j, j' :: 0 <= j < j' < |idx| ==> idx[j] < idx[j']
    ensures forall k :: 0 <= k < |pages| && HasText(pages[k]) ==> k in idx
  {
    if |pages| == 0 then []
    else
      var init := TextIndices(pages[..|pages| - 1]);
      assert forall j :: 0 <= j < |init| ==> pages[init[j]] == pages[..|pages| - 1][init[j]];
      if HasText(pages[|pages| - 1]) then init + [|pages| - 1] else init
  }

  /**
   * The collected texts are the texts of the pages that have one, in page order
   * and each exactly once: text `j` is that of the `j`-th page with text.
   */
  lemma {:induction false} PageTextsInOrder(pages: seq<PageText>)
    requires PageTexts(pages).Some?
    ensures var parts := PageTexts(pages).value; var idx := TextIndices(pages);
      && |parts| == |idx|
      && forall j :: 0 <= j < |parts| ==> parts[j] == pages[idx[j]].text
  {
    if |pages| > 0 {
      var init, last := pages[..|pages| - 1], pages[|pages| - 1];
      PageTextsInOrder(init);
      var initParts, initIdx := PageTexts(init).value, TextIndices(init);
      var parts, idx := PageTexts(pages).value, TextIndices(pages);
      assert parts == initParts + (if HasText(last) then [last.text] else []);
      assert idx == initIdx + (if HasText(last) then [|pages| - 1] else []);
      forall j | 0 <= j < |initParts| ensures parts[j] == pages[idx[j]].text {
        assert init[initIdx[j]] == pages[initIdx[j]];
      }
    }
  }

  /** What `_load_resume` returns for a resume path. */
  function ResumeText(file: ResumeFile): string {
    match file
    case Missing => ""
    case Present(name, pdf, text) =>
      if IsPdf(name) then
        match pdf
        case None => ""
        case Some(pages) =>
          match PageTexts(pages)
          case None => ""
          case Some(parts) => Join(parts, '\n')
      else text.GetOr("")
  }

  /**
   * The loaded resume is empty exactly when the file is missing, reading it
   * raises, or there is no text in it: for a PDF, no page has a non-empty
   * text; otherwise the file is empty.
   */
  lemma ResumeTextEmpty(file: ResumeFile)
    ensures ResumeText(file) == "" <==>
      || file.Missing?
      || (&& IsPdf(file.name)
          && (|| file.pdf.None?
              || (exists k :: 0 <= k < |file.pdf.value| && file.pdf.value[k].ExtractFails?)
              || (forall k :: 0 <= k < |file.pdf.value| ==> !HasText(file.pdf.value[k]))))
      || (!IsPdf(file.name) && (file.text.None? || file.text.value == ""))
  {
    if file.Present? && IsPdf(file.name) && file.pdf.Some? {
      var r := PageTexts(file.pdf.value);
      if r.Some? {
        JoinEmpty(r.value, '\n');
        PageTextsContents(file.pdf.value);
      }
    }
  }

  /**
   * A resume read from a PDF is its non-empty page texts joined by newlines,
   * in page order and each once; splitting it on newlines gives them back when
   * none holds a newline.
   */
  lemma ResumeTextPages(file: ResumeFile)
    requires file.Present? && IsPdf(file.name) && file.pdf.Some? && PageTexts(file.pdf.value).Some?
    ensures var pages := file.pdf.value; var parts := PageTexts(pages).value; var idx := TextIndices(pages);
      && ResumeText(file) == Join(parts, '\n')
      && |parts| == |idx| && (forall j :: 0 <= j < |parts| ==> parts[j] == pages[idx[j]].text)
      && ((forall k :: 0 <= k < |parts| ==> '\n' !in parts[k]) && |parts| > 0 ==> Split(ResumeText(file), '\n') == parts)
  {
    PageTextsInOrder(file.pdf.value);
    var parts := PageTexts(file.pdf.value).value;
    if (forall k :: 0 <= k < |parts| ==> '\n' !in parts[k]) && |parts| > 0 {
      SplitJoin(parts, '\n');
    }
  }

  /** `_load_resume(resume_path)`: never raises; every failure reads as "". */
  method LoadResume(file: ResumeFile) returns (text: string)
    ensures text == ResumeText(file)
  {
    if file.Missing? {
      return "";
    }
    if !IsPdf(file.name) {
      return file.text.GetOr("");
    }
    if file.pdf.None? {
      return "";
    }
    var pages := file.pdf.value;
    var textParts: seq<string> := [];
    for i := 0 to |pages|
      invariant PageTexts(pages[..i]) == Some(textParts)
    {
      assert pages[..i + 1][..i] == pages[..i];
      var page := pages[i];
      if page.ExtractFails? {
        assert PageTexts(pages).None?;
        return "";
      }
      if page.Extracted? && page.text != "" {
        textParts := textParts + [page.text];
      }
    }
    assert pages[..|pages|] == pages;
    return Join(textParts, '\n');
  }

  /** The agent, holding the resume loaded when it was built. */
  class ResumeAgent {
    var resume: string

    /** `ResumeAgent(client, resume_path)`: loads the resume once; an empty one is only logged. */
    constructor (file: ResumeFile)
      ensures resume == ResumeText(file)
    {
      var text := LoadResume(file);
      resume := text;
    }

    /**
     * `run_resume_match`: the reply of `llm` to the resume and the jobs, read by
     * `validate` (`ResumeMatchResult.model_validate_json`, `None` for a
     * `ValidationError`). A missing or invalid reply gives exactly
     * `best_match_id = 0` and `reasoning = ""`; a valid one is returned as parsed.
     */
    function RunResumeMatch(args: ResumeMatchArgs, llm: (string, SearchResults) -> Option<string>,
                            validate: string -> Option<ResumeMatchResult>): (r: ResumeMatchResult)
      reads this
      ensures var reply := llm(resume, args.jobs);
        && (reply.Some? && validate(reply.value).Some? ==> r == validate(reply.value).value)
        && (reply.None? || validate(reply.value).None? ==> r == ResumeMatchResult(0, ""))
    {
      MatchOrFallback(llm(resume, args.jobs), validate)
    }

    /**
     * `run_resume_tweak`: the reply of `llm` to the resume and the job
     * description, with a missing reply read as ""; a non-empty reply is
     * returned verbatim.
     */
    function RunResumeTweak(args: ResumeTweakArgs, llm: (string, string) -> Option<string>): (r: ResumeTweakResult)
      reads this
      ensures var reply := llm(resume, args.jobDescription);
        && (r.suggestions == "" <==> reply.None? || reply.value == "")
        && (reply.Some? ==> r.suggestions == reply.value)
    {
      TweakOrEmpty(llm(resume, args.jobDescription))
    }

    /** `run_resume_tweak` as written: line 132 reads `resume_tweak_args.job`, a field `ResumeTweakArgs` does not have. */
    function RunResumeTweakAsWritten(args: ResumeTweakArgs, llm: (string, string) -> Option<string>): Result<ResumeTweakResult, AttributeError>
      reads this
    {
      Failure(MissingAttribute("job"))
    }
  }

  /** The branch after the match reply: the parsed result, or the `(0, "")` fallback. */
  function MatchOrFallback(reply: Option<string>, validate: string -> Option<ResumeMatchResult>): ResumeMatchResult {
    if reply.Some? && validate(reply.value).Some? then validate(reply.value).value else ResumeMatchResult(0, "")
  }

  /** `content or ""` after the tweak reply. */
  function TweakOrEmpty(reply: Option<string>): ResumeTweakResult {
    ResumeTweakResult(if reply.Some? then reply.value else "")
  }

  /**
   * The match fallback is the only way an unvalidated reply reaches the caller:
   * a result other than `(0, "")` is always the validated reading of the reply.
   */
  lemma MatchResultValidated(agent: ResumeAgent, args: ResumeMatchArgs, llm: (string, SearchResults) -> Option<string>,
                             validate: string -> Option<ResumeMatchResult>)
    ensures var r := agent.RunResumeMatch(args, llm, validate); var reply := llm(agent.resume, args.jobs);
      r != ResumeMatchResult(0, "") ==> reply.Some? && validate(reply.value) == Some(r)
  {
  }

  /** As written, `run_resume_tweak` raises on every call, whatever the arguments and the reply. */
  lemma ResumeTweakAsWrittenRaises(agent: ResumeAgent, args: ResumeTweakArgs, llm: (string, string) -> Option<string>)
    ensures agent.RunResumeTweakAsWritten(args, llm).Failure?
    ensures agent.RunResumeTweakAsWritten(args, llm).error == MissingAttribute("job")
  {
  }
}
