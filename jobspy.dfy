/**
 * The adapter from JobSpy's result records to jobs: the request it sends with
 * its two clamped parameters, and the per-record mapping with its field
 * fallbacks, defaults and skips.
 *
 * The JobSpy library call and the conversion of its table to records are not
 * modelled: their outcome is an input, either the records or the failure.
 */
module JobSpy {
  import opened Wrappers
  import opened Text
  import opened Models

  // ---------------------------------------------------------------------------
  // The request

  const JOBSPY_SITES: seq<string> := ["indeed", "linkedin", "glassdoor", "zip_recruiter"]

  datatype Request = Request(sites: seq<string>, searchTerm: string, location: string, resultsWanted: int, hoursOld: int)

  /** `max(1, days * 24)`: the age bound in hours, at least one hour. */
  function HoursOld(days: int): (h: int)
    ensures h >= 1
    ensures days >= 1 ==> h == days * 24
    ensures days < 1 ==> h == 1
  {
    if days * 24 > 1 then days * 24 else 1
  }

  /** `max(10, min(results_wanted, 100))`: the wanted count, clamped into [10, 100]. */
  function Wanted(resultsWanted: int): (w: int)
    ensures 10 <= w <= 100
    ensures 10 <= resultsWanted <= 100 ==> w == resultsWanted
  {
    var m := if resultsWanted < 100 then resultsWanted else 100;
    if m > 10 then m else 10
  }

  /** The clamp never moves a value that is already in range, and moves others to the nearer end. */
  lemma WantedNearestEnd(resultsWanted: int)
    ensures resultsWanted < 10 ==> Wanted(resultsWanted) == 10
    ensures resultsWanted > 100 ==> Wanted(resultsWanted) == 100
    ensures Wanted(Wanted(resultsWanted)) == Wanted(resultsWanted)
  {
  }

  /** The request `_run` sends: the fixed sites, absent texts as empty ones, and the two clamped numbers. */
  function JobspyRequest(days: int, query: Option<string>, location: Option<string>, resultsWanted: int): (r: Request)
    ensures r.sites == JOBSPY_SITES
    ensures r.hoursOld >= 1 && 10 <= r.resultsWanted <= 100
  {
    Request(JOBSPY_SITES, query.GetOr(""), location.GetOr(""), Wanted(resultsWanted), HoursOld(days))
  }

  // ---------------------------------------------------------------------------
  // Records

  /** A cell of a result record. */
  datatype Raw = Null | Str(s: string) | Num(x: real) | Flag(b: bool) | When(t: Timestamp)

  type Record = map<string, Raw>

  /** Python truthiness of a cell: null, the empty text, zero and false are false; a date is always true. */
  predicate Truthy(v: Raw) {
    match v
    case Null => false
    case Str(s) => s != ""
    case Num(x) => x != 0.0
    case Flag(b) => b
    case When(_) => true
  }

  /** `r.get(key)`. */
  function Get(r: Record, key: string): Raw {
    if key in r then r[key] else Null
  }

  /** `r.get(lower) or r.get(upper)`: the first truthy of the two, else the second. */
  function Field(r: Record, lower: string, upper: string): (v: Raw)
    ensures Truthy(v) <==> Truthy(Get(r, lower)) || Truthy(Get(r, upper))
    ensures Truthy(Get(r, lower)) ==> v == Get(r, lower)
  {
    if Truthy(Get(r, lower)) then Get(r, lower) else Get(r, upper)
  }

  /**
   * A text field with its default: a falsy cell gives the default, a text its
   * text; any other cell fails the job's validation, which skips the record.
   */
  function TextOr(v: Raw, default: string): (r: Option<string>)
    ensures !Truthy(v) ==> r == Some(default)
    ensures Truthy(v) ==> (r.Some? <==> v.Str?)
  {
    if !Truthy(v) then Some(default) else if v.Str? then Some(v.s) else None
  }

  /** An optional text field: null is absent and a text is itself; any other cell fails validation. */
  function OptText(v: Raw): Option<Option<string>> {
    match v
    case Null => Some(None)
    case Str(s) => Some(Some(s))
    case _ => None
  }

  /** `float(x) if isinstance(x, (int, float)) else None`; a boolean is an int in Python. */
  function Amount(v: Raw): (a: Option<real>)
    ensures a.Some? <==> v.Num? || v.Flag?
  {
    match v
    case Num(x) => Some(x)
    case Flag(b) => Some(if b then 1.0 else 0.0)
    case _ => None
  }

  /** `", ".join(p for p in [city, state] if p)`. */
  function JoinPlace(city: string, state: string): (s: string)
    ensures s == "" <==> city == "" && state == ""
  {
    if city == "" then state else if state == "" then city else city + ", " + state
  }

  /** `(loc or ("Remote" if is_remote else "")) or "Unknown"`. */
  function PlaceOf(loc: string, isRemote: bool): (s: string)
    ensures s != ""
  {
    var withRemote := if loc != "" then loc else if isRemote then "Remote" else "";
    if withRemote != "" then withRemote else "Unknown"
  }

  /** The publication date: a date cell as is, a text through the ISO parser, anything else none. */
  function DateOf(v: Raw, parseIso: string -> Option<Timestamp>): Option<Timestamp> {
    if !Truthy(v) then None
    else match v
      case When(t) => Some(t)
      case Str(s) => parseIso(s)
      case _ => None
  }

  /** The text cells of a record, each with its fallback applied. */
  datatype Texts = Texts(url: string, title: string, company: string, location: string, description: string, site: string,
                         currency: Option<string>, jobType: Option<string>)

  /**
   * The text cells read from a record, or `None` when one of them would make
   * the job's construction raise: a cell that is not text where text is
   * required. The location cell is read only when there is neither a city nor
   * a state.
   */
  function ReadTexts(r: Record): Option<Texts> {
    var url := TextOr(Field(r, "job_url", "JOB_URL"), "");
    var title := TextOr(Field(r, "title", "TITLE"), "");
    var company := TextOr(Field(r, "company", "COMPANY"), "Unknown");
    var city := TextOr(Field(r, "city", "CITY"), "");
    var state := TextOr(Field(r, "state", "STATE"), "");
    var desc := TextOr(Field(r, "description", "DESCRIPTION"), "");
    var site := TextOr(Field(r, "site", "SITE"), "jobspy");
    var currency := OptText(Field(r, "currency", "CURRENCY"));
    var jobType := OptText(Field(r, "job_type", "JOB_TYPE"));
    if url.None? || title.None? || company.None? || city.None? || state.None?
       || desc.None? || site.None? || currency.None? || jobType.None? then None
    else
      var joined := JoinPlace(city.value, state.value);
      var loc := if joined != "" then Some(joined) else TextOr(Field(r, "location", "LOCATION"), "");
      if loc.None? then None
      else Some(Texts(url.value, title.value, company.value, loc.value, desc.value, site.value, currency.value, jobType.value))
  }

  /** The job built from a record's texts and its other cells. */
  function BuildJob(t: Texts, r: Record, parseIso: string -> Option<Timestamp>): Job {
    var isRemote := Truthy(Field(r, "is_remote", "IS_REMOTE"));
    NewJob(HashId("jobspy_" + t.site, t.url), t.title, t.company, PlaceOf(t.location, isRemote),
           t.url, "jobspy_" + Lower(t.site))
      .(description := t.description,
        date := DateOf(Field(r, "date_posted", "DATE_POSTED"), parseIso),
        tags := ["jobspy"],
        salaryMin := Amount(Field(r, "min_amount", "MIN_AMOUNT")),
        salaryMax := Amount(Field(r, "max_amount", "MAX_AMOUNT")),
        currency := t.currency,
        jobType := t.jobType)
  }

  /**
   * One record adapted, or `None` when it is skipped: because it has no url,
   * or because building the job would raise (a non-text cell where a text is
   * required, a negative salary).
   */
  function AdaptRecord(r: Record, parseIso: string -> Option<Timestamp>): Option<Job> {
    if TextOr(Field(r, "job_url", "JOB_URL"), "") == Some("") then None
    else
      match ReadTexts(r)
      case None => None
      case Some(t) =>
        var job := BuildJob(t, r, parseIso);
        if ValidJob(job) then Some(job) else None
  }

  /** Every adapted job is valid, and its url is the record's non-empty url text. */
  lemma AdaptedValid(r: Record, parseIso: string -> Option<Timestamp>)
    requires AdaptRecord(r, parseIso).Some?
    ensures var j := AdaptRecord(r, parseIso).value;
            && ValidJob(j) && j.url != ""
            && Field(r, "job_url", "JOB_URL") == Str(j.url)
            && j.tags == ["jobspy"]
  {
  }

  /** A record without a url, or with one that is not text, is skipped. */
  lemma NoUrlSkipped(r: Record, parseIso: string -> Option<Timestamp>)
    requires !Field(r, "job_url", "JOB_URL").Str? || Field(r, "job_url", "JOB_URL") == Str("")
    ensures AdaptRecord(r, parseIso).None?
  {
  }

  /**
   * The location of an adapted job: city and state joined when either is
   * there; otherwise the location cell; otherwise "Remote" for a remote job;
   * otherwise "Unknown".
   */
  lemma AdaptedLocation(r: Record, parseIso: string -> Option<Timestamp>, city: string, state: string, location: string)
    requires AdaptRecord(r, parseIso).Some?
    requires TextOr(Field(r, "city", "CITY"), "") == Some(city)
    requires TextOr(Field(r, "state", "STATE"), "") == Some(state)
    requires TextOr(Field(r, "location", "LOCATION"), "") == Some(location)
    ensures var j := AdaptRecord(r, parseIso).value;
            var remote := Truthy(Field(r, "is_remote", "IS_REMOTE"));
            && (city != "" && state != "" ==> j.location == city + ", " + state)
            && (city != "" && state == "" ==> j.location == city)
            && (city == "" && state != "" ==> j.location == state)
            && (city == "" && state == "" && location != "" ==> j.location == location)
            && (city == "" && state == "" && location == "" && remote ==> j.location == "Remote")
            && (city == "" && state == "" && location == "" && !remote ==> j.location == "Unknown")
  {
  }

  /** The company defaults to "Unknown", the site to "jobspy", and the source is "jobspy_" and the site in lower case. */
  lemma AdaptedNames(r: Record, parseIso: string -> Option<Timestamp>, site: string)
    requires AdaptRecord(r, parseIso).Some?
    requires TextOr(Field(r, "site", "SITE"), "jobspy") == Some(site)
    ensures var j := AdaptRecord(r, parseIso).value;
            && (!Truthy(Field(r, "company", "COMPANY")) ==> j.company == "Unknown")
            && (!Truthy(Field(r, "site", "SITE")) ==> site == "jobspy")
            && j.source == "jobspy_" + Lower(site)
            && j.id == HashId("jobspy_" + site, j.url)
  {
  }

  /** A salary bound is present exactly when its cell is a number, and then it is that number. */
  lemma AdaptedSalary(r: Record, parseIso: string -> Option<Timestamp>)
    requires AdaptRecord(r, parseIso).Some?
    ensures var j := AdaptRecord(r, parseIso).value;
            var lo := Field(r, "min_amount", "MIN_AMOUNT");
            var hi := Field(r, "max_amount", "MAX_AMOUNT");
            && (j.salaryMin.Some? <==> lo.Num? || lo.Flag?)
            && (j.salaryMax.Some? <==> hi.Num? || hi.Flag?)
            && (lo.Num? ==> j.salaryMin == Some(lo.x))
            && (hi.Num? ==> j.salaryMax == Some(hi.x))
  {
  }

  const SAMPLE_URL := "https://example.com/job/1"

  /** A record holding only a url. */
  function BareUrlRecord(): Record {
    map["job_url" := Str(SAMPLE_URL)]
  }

  lemma BareRecordTexts()
    ensures ReadTexts(BareUrlRecord()) == Some(Texts(SAMPLE_URL, "", "Unknown", "", "", "jobspy", None, None))
    ensures Field(BareUrlRecord(), "job_url", "JOB_URL") == Str(SAMPLE_URL)
    ensures Field(BareUrlRecord(), "is_remote", "IS_REMOTE") == Null
    ensures Field(BareUrlRecord(), "date_posted", "DATE_POSTED") == Null
    ensures Field(BareUrlRecord(), "min_amount", "MIN_AMOUNT") == Null
    ensures Field(BareUrlRecord(), "max_amount", "MAX_AMOUNT") == Null
  {
    var r := BareUrlRecord();
    assert r.Keys == {"job_url"};
  }

  /** A record holding only a url gives a job with every default: no title, company and location unknown, source "jobspy_jobspy". */
  lemma BareRecord(parseIso: string -> Option<Timestamp>)
    ensures var j := AdaptRecord(BareUrlRecord(), parseIso);
            && j.Some?
            && j.value.title == "" && j.value.company == "Unknown" && j.value.location == "Unknown"
            && j.value.source == "jobspy_jobspy" && j.value.date.None? && j.value.salaryMin.None?
  {
    var r := BareUrlRecord();
    BareRecordTexts();
    var t := Texts(SAMPLE_URL, "", "Unknown", "", "", "jobspy", None, None);
    assert Lower("jobspy") == "jobspy";
    var job := BuildJob(t, r, parseIso);
    assert ValidJob(job);
  }

  // ---------------------------------------------------------------------------
  // The record loop

  /** The adapter the record loop applies. */
  function Adapter(parseIso: string -> Option<Timestamp>): Record -> Option<Job> {
    r => AdaptRecord(r, parseIso)
  }

  /** The jobs of the records that `adapt` keeps, in record order. */
  function AdaptAll(records: seq<Record>, adapt: Record -> Option<Job>): seq<Job> {
    if records == [] then []
    else
      var n := |records| - 1;
      var init := AdaptAll(records[..n], adapt);
      match adapt(records[n])
      case Some(j) => init + [j]
      case None => init
  }

  /** The loop of `_run` over the records: a record that is skipped or fails is passed over and the loop goes on. */
  method AdaptRecords(records: seq<Record>, parseIso: string -> Option<Timestamp>) returns (jobs: seq<Job>)
    ensures jobs == AdaptAll(records, Adapter(parseIso))
  {
    jobs := [];
    for i := 0 to |records|
      invariant jobs == AdaptAll(records[..i], Adapter(parseIso))
    {
      assert records[..i + 1][..i] == records[..i];
      var adapted := AdaptRecord(records[i], parseIso);
      if adapted.None? {
        continue;
      }
      jobs := jobs + [adapted.value];
    }
    assert records[..|records|] == records;
  }

  /** The job of every record that adapts is produced. */
  lemma {:induction false} AdaptAllHas(records: seq<Record>, adapt: Record -> Option<Job>, i: nat, j: Job)
    requires i < |records| && adapt(records[i]) == Some(j)
    ensures j in AdaptAll(records, adapt)
  {
    var n := |records| - 1;
    if i < n {
      assert records[..n][i] == records[i];
      AdaptAllHas(records[..n], adapt, i, j);
    }
  }

  /** Every job produced is the job of some record. */
  lemma {:induction false} AdaptAllFrom(records: seq<Record>, adapt: Record -> Option<Job>, j: Job) returns (i: nat)
    requires j in AdaptAll(records, adapt)
    ensures i < |records| && adapt(records[i]) == Some(j)
  {
    var n := |records| - 1;
    if j in AdaptAll(records[..n], adapt) {
      i := AdaptAllFrom(records[..n], adapt, j);
      assert records[..n][i] == records[i];
    } else {
      i := n;
    }
  }

  /** There are never more jobs than records. */
  lemma {:induction false} AdaptAllLength(records: seq<Record>, adapt: Record -> Option<Job>)
    ensures |AdaptAll(records, adapt)| <= |records|
  {
    if records != [] {
      AdaptAllLength(records[..|records| - 1], adapt);
    }
  }

  /** Every job produced is valid and has a url. */
  lemma {:induction false} AdaptAllValid(records: seq<Record>, parseIso: string -> Option<Timestamp>)
    ensures forall j :: j in AdaptAll(records, Adapter(parseIso)) ==> ValidJob(j) && j.url != ""
  {
    forall j | j in AdaptAll(records, Adapter(parseIso)) ensures ValidJob(j) && j.url != "" {
      var i := AdaptAllFrom(records, Adapter(parseIso), j);
      AdaptedValid(records[i], parseIso);
    }
  }

  /** `_run`: the fetch, or its failure, then the record loop; a failed fetch gives no jobs. */
  method Run(fetched: Result<seq<Record>, string>, parseIso: string -> Option<Timestamp>) returns (jobs: seq<Job>)
    ensures fetched.Err? ==> jobs == []
    ensures fetched.Ok? ==> jobs == AdaptAll(fetched.value, Adapter(parseIso))
  {
    if fetched.Err? {
      return [];
    }
    jobs := AdaptRecords(fetched.value, parseIso);
  }
}
