/**
 * The feed scrapers: the filter-and-build loop the three feed scrapers share,
 * the recency window, and the merge of the scrapers' results with first-wins
 * deduplication on the job url.
 *
 * Fetching and parsing a feed are left out: a scraper is handed its entries,
 * each with the publication time already parsed (or absent), and a failed
 * fetch is simply no entries.
 */
module Scraper {
  import opened Wrappers
  import opened Text
  import opened Models

  const WEWORKREMOTELY := "weworkremotely"
  const JOBSCOLLIDER := "jobscollider"
  const REMOTEOK := "remoteok"

  /** One feed entry: missing text fields read as empty, the date as parsed. */
  datatype FeedEntry = FeedEntry(title: string, link: string, summary: string, date: Option<Timestamp>)

  /** `_within_days`: an undated entry is always recent; a dated one is no older than `maxDays` days before `now`. */
  predicate WithinDays(dt: Option<Timestamp>, maxDays: int, now: Timestamp) {
    dt.None? || dt.value >= now - maxDays * SECONDS_PER_DAY
  }

  /** A wider window, or an earlier clock, keeps everything a narrower one keeps. */
  lemma WithinDaysMonotone(dt: Option<Timestamp>, d1: int, d2: int, now1: Timestamp, now2: Timestamp)
    requires d1 <= d2 && now2 <= now1 && WithinDays(dt, d1, now1)
    ensures WithinDays(dt, d2, now2)
  {
    assert d1 * SECONDS_PER_DAY <= d2 * SECONDS_PER_DAY;
  }

  /** An absent or empty query matches everything; otherwise it must occur in the text, ignoring case. */
  predicate QueryMatches(query: Option<string>, text: string) {
    query.None? || query.value == "" || Contains(Lower(text), Lower(query.value))
  }

  /** The three tests an entry must pass, in the order they are made. */
  predicate Keep(e: FeedEntry, days: int, query: Option<string>, now: Timestamp) {
    && WithinDays(e.date, days, now)
    && QueryMatches(query, e.title + " " + e.summary)
    && e.link != ""
  }

  /** The job built from a kept entry of the feed named `source`. */
  function FeedJob(e: FeedEntry, source: string): (j: Job)
    ensures ValidJob(j) <==> e.link != ""
  {
    NewJob(HashId(source, e.link), e.title, "Unknown", "Remote", e.link, source)
      .(description := e.summary, date := e.date, tags := ["rss"])
  }

  /** The jobs a feed yields: one per kept entry, in feed order. */
  function FeedJobs(entries: seq<FeedEntry>, source: string, now: Timestamp, days: int, query: Option<string>): seq<Job>
  {
    if entries == [] then []
    else
      var n := |entries| - 1;
      var init := FeedJobs(entries[..n], source, now, days, query);
      if Keep(entries[n], days, query, now) then init + [FeedJob(entries[n], source)] else init
  }

  /** The loop of `scrape_weworkremotely`, `scrape_jobscollider` and `scrape_remoteok`, for the feed named `source`. */
  method FeedToJobs(entries: seq<FeedEntry>, source: string, now: Timestamp, days: int, query: Option<string>)
    returns (out: seq<Job>)
    ensures out == FeedJobs(entries, source, now, days, query)
  {
    out := [];
    for i := 0 to |entries|
      invariant out == FeedJobs(entries[..i], source, now, days, query)
    {
      var entry := entries[i];
      assert entries[..i + 1][..i] == entries[..i];
      if !WithinDays(entry.date, days, now) {
        continue;
      }
      if query.Some? && query.value != "" && !Contains(Lower(entry.title + " " + entry.summary), Lower(query.value)) {
        continue;
      }
      if entry.link == "" {
        continue;
      }
      out := out + [FeedJob(entry, source)];
    }
    assert entries[..|entries|] == entries;
  }

  /**
   * Every job a feed yields comes from a kept entry: it has a url, the fixed
   * company, location and tag, the feed's name as source, a recent date, and
   * the query in its title and description.
   */
  lemma {:induction false} FeedJobsSound(entries: seq<FeedEntry>, source: string, now: Timestamp, days: int, query: Option<string>)
    ensures forall j :: j in FeedJobs(entries, source, now, days, query) ==>
              && (exists e :: e in entries && Keep(e, days, query, now) && j == FeedJob(e, source))
              && ValidJob(j) && j.url != ""
              && j.source == source && j.company == "Unknown" && j.location == "Remote" && j.tags == ["rss"]
              && WithinDays(j.date, days, now)
              && QueryMatches(query, j.title + " " + j.description)
  {
    if entries != [] {
      var n := |entries| - 1;
      FeedJobsSound(entries[..n], source, now, days, query);
      forall e | e in entries[..n] ensures e in entries { }
    }
  }

  /** The jobs of a leading part of the feed are a leading part of the feed's jobs. */
  lemma {:induction false} FeedJobsPrefix(entries: seq<FeedEntry>, source: string, now: Timestamp, days: int, query: Option<string>, m: nat)
    requires m <= |entries|
    ensures var pre := FeedJobs(entries[..m], source, now, days, query);
            var all := FeedJobs(entries, source, now, days, query);
            |pre| <= |all| && all[..|pre|] == pre
    decreases |entries|
  {
    if m < |entries| {
      var n := |entries| - 1;
      assert entries[..n][..m] == entries[..m];
      FeedJobsPrefix(entries[..n], source, now, days, query, m);
    } else {
      assert entries[..m] == entries;
    }
  }

  /**
   * The job of a kept entry sits right after the jobs of the entries before it:
   * no kept entry is lost, and jobs keep the order of their entries.
   */
  lemma FeedJobsPlacement(entries: seq<FeedEntry>, source: string, now: Timestamp, days: int, query: Option<string>, i: nat)
    requires i < |entries| && Keep(entries[i], days, query, now)
    ensures var k := |FeedJobs(entries[..i], source, now, days, query)|;
            var all := FeedJobs(entries, source, now, days, query);
            k < |all| && all[k] == FeedJob(entries[i], source)
  {
    assert entries[..i + 1][..i] == entries[..i];
    FeedJobsPrefix(entries, source, now, days, query, i + 1);
  }

  /** A dropped entry adds nothing: a feed whose entries are all dropped yields no jobs. */
  lemma {:induction false} FeedJobsNoneKept(entries: seq<FeedEntry>, source: string, now: Timestamp, days: int, query: Option<string>)
    requires forall e :: e in entries ==> !Keep(e, days, query, now)
    ensures FeedJobs(entries, source, now, days, query) == []
  {
    if entries != [] {
      var n := |entries| - 1;
      assert entries[n] in entries;
      forall e | e in entries[..n] ensures e in entries { }
      FeedJobsNoneKept(entries[..n], source, now, days, query);
    }
  }

  // ---------------------------------------------------------------------------
  // `scrape_all`

  /** What `asyncio.gather(..., return_exceptions=True)` yields per scraper. */
  datatype ScrapeResult = Failed | Succeeded(jobs: seq<Job>)

  /** The jobs of the successful results, one result after the other. */
  function Successful(results: seq<ScrapeResult>): seq<Job> {
    if results == [] then []
    else
      var n := |results| - 1;
      Successful(results[..n]) + (if results[n].Succeeded? then results[n].jobs else [])
  }

  function UrlsOf(js: seq<Job>): set<string> {
    set j | j in js :: j.url
  }

  /** The jobs in order, each dropped when an earlier job had the same url. */
  function Dedup(js: seq<Job>): seq<Job> {
    if js == [] then []
    else
      var n := |js| - 1;
      if js[n].url in UrlsOf(js[..n]) then Dedup(js[..n]) else Dedup(js[..n]) + [js[n]]
  }

  /** Job `i` is the first with its url. */
  predicate FirstOfUrl(js: seq<Job>, i: nat)
    requires i < |js|
  {
    forall k :: 0 <= k < i ==> js[k].url != js[i].url
  }

  /** The reference for the merge: the first job of each url, kept in place and in order. */
  function FirstOccurrences(js: seq<Job>): seq<Job> {
    if js == [] then []
    else
      var n := |js| - 1;
      FirstOccurrences(js[..n]) + (if FirstOfUrl(js, n) then [js[n]] else [])
  }

  /** The merge keeps exactly the first job of each url, in input order. */
  lemma {:induction false} DedupIsFirstOccurrences(js: seq<Job>)
    ensures Dedup(js) == FirstOccurrences(js)
  {
    if js != [] {
      var n := |js| - 1;
      DedupIsFirstOccurrences(js[..n]);
      if js[n].url in UrlsOf(js[..n]) {
        var j :| j in js[..n] && j.url == js[n].url;
        var k :| 0 <= k < n && js[..n][k] == j;
        assert js[k].url == js[n].url;
        assert !FirstOfUrl(js, n);
      } else {
        forall k | 0 <= k < n ensures js[k].url != js[n].url {
          assert js[..n][k] in js[..n];
        }
      }
    }
  }

  /** The merge drops only repeats: the same urls, no url twice, and only jobs from the input. */
  lemma {:induction false} DedupSpec(js: seq<Job>)
    ensures UrlsOf(Dedup(js)) == UrlsOf(js)
    ensures forall a, b :: 0 <= a < b < |Dedup(js)| ==> Dedup(js)[a].url != Dedup(js)[b].url
    ensures forall j :: j in Dedup(js) ==> j in js
  {
    if js != [] {
      var n := |js| - 1;
      var init := js[..n];
      DedupSpec(init);
      assert js == init + [js[n]];
      assert UrlsOf(js) == UrlsOf(init) + {js[n].url};
      var d := Dedup(init);
      if js[n].url !in UrlsOf(init) {
        assert UrlsOf(d + [js[n]]) == UrlsOf(d) + {js[n].url};
        forall a | 0 <= a < |d| ensures d[a].url != js[n].url {
          assert d[a] in d;
        }
      }
    }
  }

  /** The first job with a given url is the one the merge keeps. */
  lemma FirstWins(js: seq<Job>, i: nat)
    requires i < |js| && FirstOfUrl(js, i)
    ensures js[i] in Dedup(js)
  {
    DedupIsFirstOccurrences(js);
    FirstOccurrencesKeeps(js, i);
  }

  lemma {:induction false} FirstOccurrencesKeeps(js: seq<Job>, i: nat)
    requires i < |js| && FirstOfUrl(js, i)
    ensures js[i] in FirstOccurrences(js)
  {
    var n := |js| - 1;
    if i < n {
      assert FirstOfUrl(js[..n], i);
      FirstOccurrencesKeeps(js[..n], i);
    }
  }

  /** A job held by a successful result is among the successful jobs. */
  lemma {:induction false} SuccessfulHas(results: seq<ScrapeResult>, r: nat, j: Job)
    requires r < |results| && results[r].Succeeded? && j in results[r].jobs
    ensures j in Successful(results)
  {
    var n := |results| - 1;
    if r < n {
      assert results[..n][r] == results[r];
      SuccessfulHas(results[..n], r, j);
    }
  }

  /** Every successful job is held by some successful result: failed results contribute nothing. */
  lemma {:induction false} SuccessfulFrom(results: seq<ScrapeResult>, j: Job) returns (r: nat)
    requires j in Successful(results)
    ensures r < |results| && results[r].Succeeded? && j in results[r].jobs
  {
    var n := |results| - 1;
    if j in Successful(results[..n]) {
      r := SuccessfulFrom(results[..n], j);
      assert results[..n][r] == results[r];
    } else {
      r := n;
    }
  }

  /** One more result appends its jobs, or nothing when it failed. */
  lemma SuccessfulSnoc(results: seq<ScrapeResult>, r: nat)
    requires r < |results|
    ensures Successful(results[..r + 1]) == Successful(results[..r]) + (if results[r].Succeeded? then results[r].jobs else [])
  {
    assert results[..r + 1][..r] == results[..r];
  }

  /** One more job is kept exactly when its url is new, and its url joins the urls seen. */
  lemma DedupSnoc(flat: seq<Job>, job: Job)
    ensures Dedup(flat + [job]) == if job.url in UrlsOf(flat) then Dedup(flat) else Dedup(flat) + [job]
    ensures UrlsOf(flat + [job]) == UrlsOf(flat) + {job.url}
  {
    assert (flat + [job])[..|flat|] == flat;
  }

  /** The inner loop of `scrape_all` over one successful result. */
  method MergeResult(jobs0: seq<Job>, seen0: set<string>, res: seq<Job>, ghost before: seq<Job>)
    returns (jobs: seq<Job>, seen: set<string>)
    requires jobs0 == Dedup(before) && seen0 == UrlsOf(before)
    ensures jobs == Dedup(before + res) && seen == UrlsOf(before + res)
  {
    jobs, seen := jobs0, seen0;
    ghost var flat := before;
    for i := 0 to |res|
      invariant flat == before + res[..i]
      invariant jobs == Dedup(flat) && seen == UrlsOf(flat)
    {
      var job := res[i];
      DedupSnoc(flat, job);
      if job.url !in seen {
        seen := seen + {job.url};
        jobs := jobs + [job];
      }
      assert res[..i + 1] == res[..i] + [job];
      flat := flat + [job];
    }
    assert res[..|res|] == res;
  }

  /** `scrape_all`, over the results already gathered in scraper order. */
  method ScrapeAll(results: seq<ScrapeResult>) returns (jobs: seq<Job>)
    ensures jobs == Dedup(Successful(results))
  {
    jobs := [];
    var seen: set<string> := {};
    for r := 0 to |results|
      invariant jobs == Dedup(Successful(results[..r]))
      invariant seen == UrlsOf(Successful(results[..r]))
    {
      SuccessfulSnoc(results, r);
      if results[r].Succeeded? {
        ghost var before := Successful(results[..r]);
        jobs, seen := MergeResult(jobs, seen, results[r].jobs, before);
      } else {
        assert Successful(results[..r + 1]) == Successful(results[..r]);
      }
    }
    assert results[..|results|] == results;
  }

  /** Every merged job has a url no other merged job has, and comes from a successful result. */
  lemma ScrapeAllSound(results: seq<ScrapeResult>)
    ensures var out := Dedup(Successful(results));
            && (forall a, b :: 0 <= a < b < |out| ==> out[a].url != out[b].url)
            && (forall j :: j in out ==> exists r :: 0 <= r < |results| && results[r].Succeeded? && j in results[r].jobs)
  {
    DedupSpec(Successful(results));
    forall j | j in Dedup(Successful(results))
      ensures exists r :: 0 <= r < |results| && results[r].Succeeded? && j in results[r].jobs
    {
      var r := SuccessfulFrom(results, j);
    }
  }
}
