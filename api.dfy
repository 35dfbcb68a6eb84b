/**
 * The two read endpoints that compute something: the job listing, which
 * filters the stored jobs, orders them newest first and cuts the list to the
 * requested size, and the diagnostic report over the individual scrapers.
 *
 * The stored jobs, the clock reading and each scraper's outcome are inputs;
 * the web framework around the endpoints is not modelled.
 */
module Api {
  import opened Wrappers
  import opened Text
  import opened Models
  import opened Scraper

  // ---------------------------------------------------------------------------
  // `get_jobs`

  /** The oldest publication time still listed: `days` days before `now`. */
  function Cutoff(now: Timestamp, days: int): Timestamp {
    now - days * SECONDS_PER_DAY
  }

  /** The text a query is looked for in. */
  function SearchText(j: Job): string {
    j.title + " " + j.company + " " + j.location + " " + j.description
  }

  /** The three tests of the listing: recent or undated, from the source asked for, and matching the query. */
  predicate Passes(j: Job, q: Option<string>, cutoff: Timestamp, source: Option<string>) {
    && (j.date.None? || j.date.value >= cutoff)
    && (source.None? || source.value == "" || j.source == source.value)
    && QueryMatches(q, SearchText(j))
  }

  /** The stored jobs that pass, in stored order. */
  function Matching(store: seq<Job>, q: Option<string>, cutoff: Timestamp, source: Option<string>): seq<Job> {
    if store == [] then []
    else
      var n := |store| - 1;
      var init := Matching(store[..n], q, cutoff, source);
      if Passes(store[n], q, cutoff, source) then init + [store[n]] else init
  }

  /** A job is listed before filtering is cut short exactly when it is stored and passes. */
  lemma {:induction false} MatchingMembers(store: seq<Job>, q: Option<string>, cutoff: Timestamp, source: Option<string>)
    ensures forall j :: j in Matching(store, q, cutoff, source) <==> j in store && Passes(j, q, cutoff, source)
    ensures |Matching(store, q, cutoff, source)| <= |store|
  {
    if store != [] {
      var n := |store| - 1;
      MatchingMembers(store[..n], q, cutoff, source);
      assert store == store[..n] + [store[n]];
    }
  }

  /** The sort key: the publication time, with an undated job older than every dated one. */
  predicate DateLe(a: Option<Timestamp>, b: Option<Timestamp>) {
    a.None? || (b.Some? && a.value <= b.value)
  }

  /** Newest first. */
  predicate NewestFirst(js: seq<Job>) {
    forall a, b :: 0 <= a < b < |js| ==> DateLe(js[b].date, js[a].date)
  }

  /** `x` placed into newest-first `t` before the first job no newer than it. */
  function InsertByDate(x: Job, t: seq<Job>): seq<Job> {
    if t == [] || DateLe(t[0].date, x.date) then [x] + t
    else [t[0]] + InsertByDate(x, t[1..])
  }

  /**
   * `sort(key=date or datetime.min, reverse=True)`: a stable sort, newest first.
   * Python's sort is stable also when reversed, so jobs with the same date keep
   * their order.
   */
  function SortByDate(js: seq<Job>): seq<Job> {
    if js == [] then [] else InsertByDate(js[0], SortByDate(js[1..]))
  }

  lemma {:induction false} InsertByDatePerm(x: Job, t: seq<Job>)
    ensures multiset(InsertByDate(x, t)) == multiset([x]) + multiset(t)
    decreases |t|
  {
    if t != [] && !DateLe(t[0].date, x.date) {
      InsertByDatePerm(x, t[1..]);
      assert t == [t[0]] + t[1..];
    }
  }

  lemma {:induction false} InsertByDateSpec(x: Job, t: seq<Job>)
    requires NewestFirst(t)
    ensures NewestFirst(InsertByDate(x, t))
    ensures multiset(InsertByDate(x, t)) == multiset([x]) + multiset(t)
    decreases |t|
  {
    InsertByDatePerm(x, t);
    if t != [] && !DateLe(t[0].date, x.date) {
      var rest := t[1..];
      InsertByDateSpec(x, rest);
      var r := InsertByDate(x, rest);
      forall b | 0 <= b < |r| ensures DateLe(r[b].date, t[0].date) {
        InsertedFrom(x, rest, r, b);
      }
    }
  }

  /** Each job of `r`, a reordering of `x` and `rest`, is `x` or a job of `rest`. */
  lemma InsertedFrom(x: Job, rest: seq<Job>, r: seq<Job>, b: nat)
    requires multiset(r) == multiset([x]) + multiset(rest) && b < |r|
    ensures r[b] == x || r[b] in rest
  {
    assert r[b] in multiset(r);
  }

  /** The sort is newest first and reorders the jobs without adding or losing any. */
  lemma {:induction false} SortByDateSpec(js: seq<Job>)
    ensures NewestFirst(SortByDate(js))
    ensures multiset(SortByDate(js)) == multiset(js)
  {
    if js != [] {
      SortByDateSpec(js[1..]);
      InsertByDateSpec(js[0], SortByDate(js[1..]));
      assert js == [js[0]] + js[1..];
    }
  }

  /** The jobs with date `d`, in order. */
  function WithDate(js: seq<Job>, d: Option<Timestamp>): seq<Job> {
    if js == [] then []
    else (if js[0].date == d then [js[0]] else []) + WithDate(js[1..], d)
  }

  lemma {:induction false} InsertByDateStable(x: Job, t: seq<Job>, d: Option<Timestamp>)
    ensures WithDate(InsertByDate(x, t), d) == (if x.date == d then [x] else []) + WithDate(t, d)
    decreases |t|
  {
    if t != [] && !DateLe(t[0].date, x.date) {
      InsertByDateStable(x, t[1..], d);
      var r := InsertByDate(x, t);
      assert r[1..] == InsertByDate(x, t[1..]);
    } else {
      var r := [x] + t;
      assert r[1..] == t;
    }
  }

  /** The sort is stable: the jobs of any one date come out in the order they went in. */
  lemma {:induction false} SortByDateStable(js: seq<Job>, d: Option<Timestamp>)
    ensures WithDate(SortByDate(js), d) == WithDate(js, d)
  {
    if js != [] {
      SortByDateStable(js[1..], d);
      InsertByDateStable(js[0], SortByDate(js[1..]), d);
    }
  }

  /** The listing: the passing jobs, newest first, at most `limit` of them. */
  function Listing(store: seq<Job>, q: Option<string>, cutoff: Timestamp, source: Option<string>, limit: nat): seq<Job> {
    var sorted := SortByDate(Matching(store, q, cutoff, source));
    if |sorted| <= limit then sorted else sorted[..limit]
  }

  /** `get_jobs`, over the stored jobs and the clock reading. The framework admits only the parameter ranges it declares. */
  method GetJobs(store: seq<Job>, q: Option<string>, days: int, limit: int, source: Option<string>, now: Timestamp)
    returns (r: JobsResponse)
    requires 1 <= days <= 30 && 1 <= limit <= 400
    ensures r.ok && r.error.None? && r.count == |r.jobs|
    ensures r.jobs == Listing(store, q, Cutoff(now, days), source, limit)
  {
    if store == [] {
      return NewJobsResponse(0, []);
    }
    var cutoff := Cutoff(now, days);
    var filtered: seq<Job> := [];
    for i := 0 to |store|
      invariant filtered == Matching(store[..i], q, cutoff, source)
    {
      var job := store[i];
      assert store[..i + 1][..i] == store[..i];
      if job.date.Some? && job.date.value < cutoff {
        continue;
      }
      if source.Some? && source.value != "" && job.source != source.value {
        continue;
      }
      if q.Some? && q.value != "" {
        if !Contains(Lower(SearchText(job)), Lower(q.value)) {
          continue;
        }
      }
      filtered := filtered + [job];
    }
    assert store[..|store|] == store;
    filtered := SortByDate(filtered);
    var limited := if |filtered| <= limit then filtered else filtered[..limit];
    r := NewJobsResponse(|limited|, limited);
  }

  /**
   * What the listing promises: at most `limit` jobs, all of them stored and
   * passing, newest first; as many as `limit` allows; and every passing job
   * cut off is no newer than any job listed.
   */
  lemma ListingSpec(store: seq<Job>, q: Option<string>, cutoff: Timestamp, source: Option<string>, limit: nat)
    ensures var out := Listing(store, q, cutoff, source, limit);
            var m := Matching(store, q, cutoff, source);
            && |out| == (if |m| <= limit then |m| else limit)
            && (forall j :: j in out ==> j in store && Passes(j, q, cutoff, source))
            && NewestFirst(out)
            && (forall a, b :: 0 <= a < |out| <= b < |SortByDate(m)| ==> DateLe(SortByDate(m)[b].date, out[a].date))
  {
    var m := Matching(store, q, cutoff, source);
    MatchingMembers(store, q, cutoff, source);
    SortByDateSpec(m);
    var sorted := SortByDate(m);
    var out := Listing(store, q, cutoff, source, limit);
    assert |sorted| == |m| by {
      assert |multiset(sorted)| == |multiset(m)|;
    }
    forall j | j in out ensures j in m {
      assert j in sorted;
      assert j in multiset(sorted);
    }
  }

  /** An empty store lists nothing. */
  lemma EmptyStoreListsNothing(q: Option<string>, cutoff: Timestamp, source: Option<string>, limit: nat)
    ensures Listing([], q, cutoff, source, limit) == []
  {
  }

  /** Every listed job with a date is no older than the cutoff; undated jobs pass the date test. */
  lemma ListedDates(j: Job, q: Option<string>, cutoff: Timestamp, source: Option<string>)
    requires Passes(j, q, cutoff, source)
    ensures j.date.Some? ==> j.date.value >= cutoff
    ensures source.Some? && source.value != "" ==> j.source == source.value
    ensures q.Some? && q.value != "" ==> Contains(Lower(SearchText(j)), Lower(q.value))
  {
  }

  // ---------------------------------------------------------------------------
  // `debug_scrapers`

  /** The scrapers the report covers, in the order it runs them. */
  const DEBUG_SCRAPERS: seq<string> := ["weworkremotely", "jobscollider", "remoteok", "remotive_api", "indeed_rss"]

  /** How one scraper run ended: the number of jobs it returned, or the text of the exception it raised. */
  datatype Outcome = Returned(count: nat) | Raised(message: string)

  /** One scraper's line of the report. */
  datatype Report = Report(name: string, ok: bool, count: nat, error: Option<string>)

  function ReportOf(name: string, o: Outcome): (r: Report)
    ensures r.name == name
    ensures r.ok <==> o.Returned?
    ensures o.Raised? ==> r.count == 0 && r.error == Some(o.message)
    ensures o.Returned? ==> r.count == o.count && r.error.None?
  {
    match o
    case Returned(n) => Report(name, true, n, None)
    case Raised(msg) => Report(name, false, 0, Some(msg))
  }

  function SumCounts(rs: seq<Report>): nat {
    if rs == [] then 0 else SumCounts(rs[..|rs| - 1]) + rs[|rs| - 1].count
  }

  /** The jobs the scrapers that returned found, independently of the report. */
  function ReturnedJobs(os: seq<Outcome>): nat {
    if os == [] then 0
    else ReturnedJobs(os[..|os| - 1]) + (match os[|os| - 1] case Returned(n) => n case Raised(_) => 0)
  }

  /** `debug_scrapers` with every name resolved, over each scraper's outcome. */
  method DebugScrapers(outcomes: seq<Outcome>) returns (results: seq<Report>, total: nat)
    requires |outcomes| == |DEBUG_SCRAPERS|
    ensures |results| == |DEBUG_SCRAPERS|
    ensures forall i :: 0 <= i < |results| ==> results[i] == ReportOf(DEBUG_SCRAPERS[i], outcomes[i])
    ensures total == SumCounts(results)
  {
    results := [];
    for i := 0 to |outcomes|
      invariant |results| == i
      invariant forall k :: 0 <= k < i ==> results[k] == ReportOf(DEBUG_SCRAPERS[k], outcomes[k])
    {
      results := results + [ReportOf(DEBUG_SCRAPERS[i], outcomes[i])];
    }
    total := 0;
    for i := 0 to |results|
      invariant total == SumCounts(results[..i])
    {
      assert results[..i + 1][..i] == results[..i];
      total := total + results[i].count;
    }
    assert results[..|results|] == results;
  }

  /** The total of the report is the number of jobs the scrapers that returned found: a failed scraper adds nothing. */
  lemma {:induction false} TotalIsReturnedJobs(outcomes: seq<Outcome>, results: seq<Report>)
    requires |results| == |outcomes| <= |DEBUG_SCRAPERS|
    requires forall i :: 0 <= i < |results| ==> results[i] == ReportOf(DEBUG_SCRAPERS[i], outcomes[i])
    ensures SumCounts(results) == ReturnedJobs(outcomes)
  {
    if results != [] {
      var n := |results| - 1;
      TotalIsReturnedJobs(outcomes[..n], results[..n]);
    }
  }

  /** The names `app/scraper.py` defines at module level. */
  const SCRAPER_MODULE_NAMES: set<string> :=
    {"USER_AGENT", "fetch_text", "_parse_date", "_within_days", "scrape_weworkremotely",
     "scrape_jobscollider", "scrape_remoteok", "scrape_all"}

  /** The names `debug_scrapers` imports from it before running anything. */
  const DEBUG_IMPORTS: seq<string> :=
    ["scrape_weworkremotely", "scrape_jobscollider", "scrape_remoteok", "scrape_remotive_api", "scrape_indeed_rss"]

  /** A `from ... import` of `names`: fails on the first name the module does not define. */
  function ImportNames(defined: set<string>, names: seq<string>): (r: Result<(), string>)
    ensures r.Ok? <==> forall i :: 0 <= i < |names| ==> names[i] in defined
  {
    if names == [] then Ok(())
    else if names[0] !in defined then Err(names[0])
    else ImportNames(defined, names[1..])
  }

  /** `debug_scrapers` as written: the import runs first, and only if it succeeds are the scrapers run. */
  function DebugScrapersAsWritten(outcomes: seq<Outcome>): (r: Result<nat, string>)
    requires |outcomes| == |DEBUG_SCRAPERS|
  {
    match ImportNames(SCRAPER_MODULE_NAMES, DEBUG_IMPORTS)
    case Err(name) => Err(name)
    case Ok(_) =>
      var rs := seq(|outcomes|, i requires 0 <= i < |outcomes| => ReportOf(DEBUG_SCRAPERS[i], outcomes[i]));
      Ok(SumCounts(rs))
  }

  /** Two of the imported scrapers do not exist, so as written the report fails on every request, whatever the scrapers would do. */
  lemma DebugImportAlwaysFails(outcomes: seq<Outcome>)
    requires |outcomes| == |DEBUG_SCRAPERS|
    ensures DebugScrapersAsWritten(outcomes) == Err("scrape_remotive_api")
  {
    assert DEBUG_IMPORTS[3] !in SCRAPER_MODULE_NAMES;
    var tail := DEBUG_IMPORTS[3..];
    assert DEBUG_IMPORTS[1..][1..][1..] == tail;
  }

  /** With every scraper resolved, the report covers all five and totals the jobs of those that returned. */
  method DebugScrapersTotal(outcomes: seq<Outcome>) returns (total: nat)
    requires |outcomes| == |DEBUG_SCRAPERS|
    ensures total == ReturnedJobs(outcomes)
  {
    var results;
    results, total := DebugScrapers(outcomes);
    TotalIsReturnedJobs(outcomes, results);
  }
}
