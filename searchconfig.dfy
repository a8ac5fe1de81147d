/**
 * The scraper's search configuration (linkedAI/scraper/data_models.py): the
 * experience-level and salary enums, the `Config` record with its defaults and
 * field validators, and `model_post_init`, which derives LinkedIn's query codes
 * from the filters.
 */
module SearchConfig {
  import opened Wrappers
  import opened Strings
  import opened Decimal
  import opened UrlCodec

  /**
   * One scraped posting. `JobCard` is imported from linkedAI/scraper/data_models.py
   * (scrape.py:5), which does not declare it; the fields are those every caller reads.
   */
  datatype JobCard = JobCard(title: string, company: string, location: string, description: string, link: string)

  datatype ExperienceLevel = EntryLevel | Associate | MidSenior | Director | Executive

  datatype Salary = S100K | S120K | S140K | S160K | S180K | S200K

  /** `level_map`: LinkedIn's `f_E` code of each experience level. */
  function LevelCode(l: ExperienceLevel): string {
    match l
    case EntryLevel => "1"
    case Associate => "2"
    case MidSenior => "3"
    case Director => "4"
    case Executive => "5"
  }

  /** `salary_map`: LinkedIn's `f_SB2` code of each salary floor. */
  function SalaryCode(s: Salary): string {
    match s
    case S100K => "4"
    case S120K => "5"
    case S140K => "6"
    case S160K => "7"
    case S180K => "8"
    case S200K => "9"
  }

  /** The inverse of `level_map`. */
  function LevelOfCode(code: string): Option<ExperienceLevel> {
    if code == "1" then Some(EntryLevel)
    else if code == "2" then Some(Associate)
    else if code == "3" then Some(MidSenior)
    else if code == "4" then Some(Director)
    else if code == "5" then Some(Executive)
    else None
  }

  /** The inverse of `salary_map`. */
  function SalaryOfCode(code: string): Option<Salary> {
    if code == "4" then Some(S100K)
    else if code == "5" then Some(S120K)
    else if code == "6" then Some(S140K)
    else if code == "7" then Some(S160K)
    else if code == "8" then Some(S180K)
    else if code == "9" then Some(S200K)
    else None
  }

  /** Each salary floor has its own code, and the code names it. */
  lemma SalaryCodeRoundTrip(s: Salary)
    ensures SalaryOfCode(SalaryCode(s)) == Some(s)
    ensures |SalaryCode(s)| == 1
  {
  }

  /** `",".join(level_map[l] for l in levels)`. */
  function JoinLevelCodes(levels: seq<ExperienceLevel>): string {
    Join(seq(|levels|, k requires 0 <= k < |levels| => LevelCode(levels[k])), ',')
  }

  /** A non-empty level list gives a non-empty `f_E` code: every level code is a digit. */
  lemma LevelCodesNonEmpty(levels: seq<ExperienceLevel>)
    requires |levels| > 0
    ensures JoinLevelCodes(levels) != ""
  {
    var codes := seq(|levels|, k requires 0 <= k < |levels| => LevelCode(levels[k]));
    JoinEmpty(codes, ',');
  }

  function LevelsOfCodes(codes: seq<string>): Option<seq<ExperienceLevel>> {
    if |codes| == 0 then Some([])
    else
      match (LevelOfCode(codes[0]), LevelsOfCodes(codes[1..]))
      case (Some(l), Some(ls)) => Some([l] + ls)
      case _ => None
  }

  /** Reads an `f_E` value back into the experience levels it lists, in order. */
  function DecodeLevelCodes(s: string): Option<seq<ExperienceLevel>> {
    LevelsOfCodes(Split(s, ','))
  }

  lemma {:induction false} LevelsOfCodesOf(levels: seq<ExperienceLevel>)
    ensures LevelsOfCodes(seq(|levels|, k requires 0 <= k < |levels| => LevelCode(levels[k]))) == Some(levels)
  {
    var codes := seq(|levels|, k requires 0 <= k < |levels| => LevelCode(levels[k]));
    if |levels| > 0 {
      LevelsOfCodesOf(levels[1..]);
      assert codes[1..] == seq(|levels[1..]|, k requires 0 <= k < |levels[1..]| => LevelCode(levels[1..][k]));
      assert LevelOfCode(codes[0]) == Some(levels[0]);
      assert levels == [levels[0]] + levels[1..];
    }
  }

  /** The comma-joined `f_E` value lists the chosen levels, in list order, and nothing else. */
  lemma LevelCodesRoundTrip(levels: seq<ExperienceLevel>)
    requires |levels| > 0
    ensures DecodeLevelCodes(JoinLevelCodes(levels)) == Some(levels)
  {
    var codes := seq(|levels|, k requires 0 <= k < |levels| => LevelCode(levels[k]));
    SplitJoin(codes, ',');
    LevelsOfCodesOf(levels);
  }

  /** Reads an `f_TPR` value back into the number of seconds. */
  function DecodeTimeRange(v: string): Option<int> {
    if |v| > 0 && v[0] == 'r' then ParseInt(v[1..]) else None
  }

  /** `f"r{t}"` is read back as `t`. */
  lemma TimeRangeRoundTrip(t: int)
    ensures DecodeTimeRange("r" + IntToDecimal(t)) == Some(t)
  {
    ParseIntRoundTrip(t);
    assert ("r" + IntToDecimal(t))[1..] == IntToDecimal(t);
  }

  const KeywordsEmptyMessage := "Keywords cannot be empty"
  const MaxTimeSincePost := 2592000
  const DefaultLocation := "United States"
  const DefaultMaxResults := 10

  /** A reason pydantic refuses to build a `Config`. */
  datatype ConfigError = EmptyKeywords | TimeSincePostOutOfRange(seconds: int)

  function ErrorMessage(e: ConfigError): string {
    match e
    case EmptyKeywords => KeywordsEmptyMessage
    case TimeSincePostOutOfRange(t) =>
      if t <= 1 then "Input should be greater than 1" else "Input should be less than or equal to 2592000"
  }

  /** Whether a supplied `time_since_post` passes `gt=1, le=2592000`. */
  predicate TimeSincePostAccepted(t: int) {
    1 < t <= MaxTimeSincePost
  }

  /**
   * The errors pydantic reports, in field order: `validate_keywords` rejects an
   * empty string and the bounds on `time_since_post` reject a supplied value
   * outside (1, 2592000]; an unsupplied `time_since_post` is not checked.
   */
  function ValidationErrors(keywords: string, timeSincePost: Option<int>): (errs: seq<ConfigError>)
    ensures errs == [] <==> keywords != "" && (timeSincePost.Some? ==> TimeSincePostAccepted(timeSincePost.value))
    ensures EmptyKeywords in errs <==> keywords == ""
    ensures forall t :: TimeSincePostOutOfRange(t) in errs <==> timeSincePost == Some(t) && !TimeSincePostAccepted(t)
    ensures |errs| <= 2 && (keywords == "" ==> errs[0] == EmptyKeywords)
  {
    (if keywords == "" then [EmptyKeywords] else [])
    + (if timeSincePost.Some? && !TimeSincePostAccepted(timeSincePost.value)
       then [TimeSincePostOutOfRange(timeSincePost.value)] else [])
  }

  /**
   * A validated search configuration. The declared fields are fixed at
   * construction; `fE`, `fTPR`, `fWT` and `fSB2` are the private attributes
   * `_f_E`, `_f_TPR`, `_f_WT` and `_f_SB2` that `model_post_init` assigns.
   * `fSB2 == None` means `_f_SB2` was never assigned: it is not declared as a
   * private attribute and is only set when a salary is chosen.
   */
  class Config {
    const keywords: string
    const location: string
    const timeSincePost: Option<int>
    const remote: bool
    const maxResults: int
    const experienceLevels: Option<seq<ExperienceLevel>>
    const salary: Option<Salary>

    var fE: Option<string>
    var fTPR: Option<string>
    var fWT: QueryValue
    var fSB2: Option<string>

    /** The derived codes agree with the filters, as `model_post_init` leaves them. */
    ghost predicate Valid()
      reads this
    {
      && ValidationErrors(keywords, timeSincePost) == []
      && fE == (if experienceLevels.Some? && |experienceLevels.value| > 0
                then Some(JoinLevelCodes(experienceLevels.value)) else None)
      && fTPR == (if timeSincePost.Some? && timeSincePost.value != 0
                  then Some("r" + IntToDecimal(timeSincePost.value)) else None)
      && fWT == (if remote then Str("2") else Int(1))
      && fSB2 == (if salary.Some? then Some(SalaryCode(salary.value)) else None)
    }

    /** Pydantic's constructor once validation has passed: fields, private defaults, then `model_post_init`. */
    constructor (keywords: string, location: string, timeSincePost: Option<int>, remote: bool,
                 maxResults: int, experienceLevels: Option<seq<ExperienceLevel>>, salary: Option<Salary>)
      requires ValidationErrors(keywords, timeSincePost) == []
      ensures this.keywords == keywords && this.location == location && this.timeSincePost == timeSincePost
      ensures this.remote == remote && this.maxResults == maxResults
      ensures this.experienceLevels == experienceLevels && this.salary == salary
      ensures Valid()
    {
      this.keywords := keywords;
      this.location := location;
      this.timeSincePost := timeSincePost;
      this.remote := remote;
      this.maxResults := maxResults;
      this.experienceLevels := experienceLevels;
      this.salary := salary;
      fE := None;
      fTPR := None;
      fWT := Int(1);
      fSB2 := None;
      new;
      PostInit();
    }

    /** `model_post_init`: each filter that is set overwrites its code; the others keep their value. */
    method PostInit()
      modifies this
      ensures fE == if experienceLevels.Some? && |experienceLevels.value| > 0
                    then Some(JoinLevelCodes(experienceLevels.value)) else old(fE)
      ensures fTPR == if timeSincePost.Some? && timeSincePost.value != 0
                      then Some("r" + IntToDecimal(timeSincePost.value)) else old(fTPR)
      ensures fWT == if remote then Str("2") else old(fWT)
      ensures fSB2 == if salary.Some? then Some(SalaryCode(salary.value)) else old(fSB2)
    {
      if experienceLevels.Some? && |experienceLevels.value| > 0 {
        fE := Some(JoinLevelCodes(experienceLevels.value));
      }
      if timeSincePost.Some? && timeSincePost.value != 0 {
        fTPR := Some("r" + IntToDecimal(timeSincePost.value));
      }
      if remote {
        fWT := Str("2");
      }
      if salary.Some? {
        fSB2 := Some(SalaryCode(salary.value));
      }
    }
  }

  /**
   * `Config(...)`: fails with the validation errors, in field order, or builds
   * the configuration. The parameters' defaults are those of the declaration.
   */
  method NewConfig(keywords: string, location: string := DefaultLocation, timeSincePost: Option<int> := None,
                   remote: bool := false, maxResults: int := DefaultMaxResults,
                   experienceLevels: Option<seq<ExperienceLevel>> := None, salary: Option<Salary> := None)
    returns (r: Result<Config, seq<ConfigError>>)
    ensures r.Failure? <==> ValidationErrors(keywords, timeSincePost) != []
    ensures r.Failure? ==> r.error == ValidationErrors(keywords, timeSincePost)
    ensures r.Success? ==> fresh(r.value) && r.value.Valid()
    ensures r.Success? ==> (&& r.value.keywords == keywords && r.value.location == location
                            && r.value.timeSincePost == timeSincePost && r.value.remote == remote
                            && r.value.maxResults == maxResults
                            && r.value.experienceLevels == experienceLevels && r.value.salary == salary)
  {
    var errs := ValidationErrors(keywords, timeSincePost);
    if errs != [] {
      return Failure(errs);
    }
    var c := new Config(keywords, location, timeSincePost, remote, maxResults, experienceLevels, salary);
    return Success(c);
  }

  /**
   * `Config(keywords=k)`: refused exactly when `k` is empty, with the message
   * "Keywords cannot be empty"; otherwise location "United States", not remote,
   * at most 10 results, no filter set, `_f_WT` the integer 1.
   */
  method NewDefaultConfig(keywords: string) returns (r: Result<Config, seq<ConfigError>>)
    ensures r.Failure? <==> keywords == ""
    ensures r.Failure? ==> r.error == [EmptyKeywords] && ErrorMessage(r.error[0]) == KeywordsEmptyMessage
    ensures r.Success? ==> fresh(r.value) && r.value.Valid()
    ensures r.Success? ==> (&& r.value.keywords == keywords && r.value.location == "United States"
                            && !r.value.remote && r.value.maxResults == 10
                            && r.value.fE.None? && r.value.fTPR.None? && r.value.fSB2.None?
                            && r.value.fWT == Int(1))
  {
    r := NewConfig(keywords);
  }
}
