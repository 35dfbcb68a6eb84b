/**
 * The record types every part of the pipeline exchanges: a job posting and the
 * response envelope of the job listing endpoint, with the field constraints the
 * record declarations attach to them.
 */
module Models {
  import opened Wrappers

  /** A point in time, in seconds, already canonicalised to naive UTC. */
  type Timestamp = int

  const SECONDS_PER_DAY: int := 86400

  /**
   * A job id is the text "<tag>_<hash(link)>". The hash is opaque and taken to be
   * injective, so the id is identified with the pair it is computed from.
   */
  datatype JobId = HashId(tag: string, link: string)

  datatype Job = Job(
    id: JobId,
    title: string,
    company: string,
    location: string,
    url: string,
    description: string,
    source: string,
    date: Option<Timestamp>,
    tags: seq<string>,
    dateFormatted: Option<string>,
    postedAgo: Option<string>,
    rank: real,
    matchScore: Option<real>,
    yoeMin: Option<int>,
    yoeMax: Option<int>,
    salaryMin: Option<real>,
    salaryMax: Option<real>,
    currency: Option<string>,
    visaSponsorship: Option<bool>,
    jobType: Option<string>)

  /**
   * What validation accepts: a non-empty url (URL syntax itself is not modelled),
   * a match score within [0, 100], and no negative experience or salary bound.
   */
  predicate ValidJob(j: Job) {
    && j.url != ""
    && (j.matchScore.Some? ==> 0.0 <= j.matchScore.value <= 100.0)
    && (j.yoeMin.Some? ==> j.yoeMin.value >= 0)
    && (j.yoeMax.Some? ==> j.yoeMax.value >= 0)
    && (j.salaryMin.Some? ==> j.salaryMin.value >= 0.0)
    && (j.salaryMax.Some? ==> j.salaryMax.value >= 0.0)
  }

  /** A job built from its required fields; every other field takes its declared default. */
  function NewJob(id: JobId, title: string, company: string, location: string, url: string, source: string): (j: Job)
    ensures j.description == "" && j.tags == [] && j.rank == 0.0 && j.date.None?
    ensures j.matchScore.None? && j.yoeMin.None? && j.yoeMax.None? && j.salaryMin.None? && j.salaryMax.None?
    ensures j.currency.None? && j.visaSponsorship.None? && j.jobType.None?
    ensures ValidJob(j) <==> url != ""
  {
    Job(id, title, company, location, url, "", source, None, [], None, None, 0.0,
        None, None, None, None, None, None, None, None)
  }

  datatype JobsResponse = JobsResponse(
    ok: bool,
    count: int,
    jobs: seq<Job>,
    total: Option<int>,
    page: Option<int>,
    perPage: Option<int>,
    error: Option<string>)

  /** A response built from its count and jobs: `ok` defaults to true, everything optional to absent. */
  function NewJobsResponse(count: int, jobs: seq<Job>): (r: JobsResponse)
    ensures r.ok && r.error.None? && r.total.None? && r.page.None? && r.perPage.None?
    ensures r.count == count && r.jobs == jobs
  {
    JobsResponse(true, count, jobs, None, None, None, None)
  }
}
