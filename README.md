# Job search aggregator — core model

This project models the core of a job-search aggregation service in Dafny:

- **Job records.** A job record has a non-empty apply URL, a match score in [0, 100], and non-negative experience and salary bounds.
- **Feed scrapers.** These turn feed entries into job records, keeping an entry only when it falls inside the recency window, matches the query, and has a link.
- **Merge step.** `scrape_all` skips every scraper that raised. It keeps the first job seen for each URL.
- **`/jobs` listing.** The listing filters stored jobs by date cutoff, source and free-text query. It sorts them newest first, with undated jobs last, then truncates to `limit`.
- **`/debug/scrapers` report.** The report covers each scraper.
- **JobSpy adapter.** It clamps the request parameters and turns loosely typed result rows into job records.
- **Signal extractor.** It reads years of experience, a currency and a visa-sponsorship flag out of free text.
- **Match score.** The score is role points plus location points plus experience points, clamped to [0, 100].
- **TTL response cache.** Its cache keys ignore case, padding and parameter order.

Text is modelled as `seq<char>`, timestamps as integer seconds, and the current time as a parameter.

Every operation is stated against a specification function or property:

- Loops are methods proved equal to a recursive function: `FeedToJobs`, `ScrapeAll`, `GetJobs`, `AdaptRecords` and `DetectCurrency`.
- Lemmas then state what the function means. Examples:
  - Every kept job comes from a kept entry.
  - Dedup equals "first occurrence of each URL".
  - The listing is a newest-first, stable selection of the passing jobs.
  - An adapted record is always a valid job.
- The cache is a class whose fields the methods update in place (`entries` and `order`, beside the constants `maxEntries` and `ttl`). Its methods are proved against the value-level `Lookup`/`Insert` functions, and those are characterised by lemmas.

The cache class's docstring calls its eviction FIFO. A hit moves the key to the back of the order, so the entry evicted is the least recently used one; the model follows the code.

Three defects in the code were found while stating the natural contracts; see "## Findings". The model keeps each behaviour as written, which is what the rest of the model uses, and states the corrected behaviour beside it. `enhance_job_with_metadata` is modelled as written (`Enhance.EnhanceJobWithMetadata`); `Enhance.EnhanceJobWithMetadataCorrected` is the same operation under the first two corrections.

## Model

| member | source | states |
|---|---|---|
| Models.NewJob | app/models.py:9-31 | a fresh job has empty description and tags, rank 0, and no date, score, experience, salary, currency, visa or job type; it is valid exactly when its URL is non-empty |
| Models.NewJobsResponse | app/models.py:46-57 | a response built from a job list is ok, carries no error or paging fields, and holds the given count and jobs |
| Text.Lower | app/scoring.py:55 | lower-casing keeps the length and maps each character through the single-character lower-case mapping |
| Text.LowerAppend | app/scoring.py:55 | lower-casing distributes over concatenation |
| Text.LowerIdempotent | app/cache.py:85-93 | lower-casing twice equals lower-casing once |
| Text.LowerKeepsSpaces | app/cache.py:85 | a character is whitespace exactly when its lower-case form is |
| Text.SpacesEnd | app/scoring.py:58 | the returned position ends the maximal whitespace run starting at i |
| Text.SpacesStart | app/scoring.py:58 | the returned position starts the maximal whitespace run ending at j |
| Text.Strip | app/cache.py:85 | stripping yields a string with no whitespace at either end |
| Text.StripSplit | app/cache.py:85 | every string is leading whitespace, its stripped form, and trailing whitespace |
| Text.StripUnique | app/cache.py:85 | a trimmed core padded with whitespace strips back to that core |
| Text.StripPadding | app/cache.py:85 | extra whitespace padding does not change the stripped form, and stripping is idempotent |
| Text.LowerAllSpaces | app/cache.py:85 | lower-casing whitespace yields whitespace |
| Text.LowerStripCommute | app/cache.py:85 | lower-casing and stripping commute |
| Text.OccursAtChar | app/scoring.py:113-117 | an occurrence of p at i fixes every character of s it covers |
| Text.ContainsAny | app/scoring.py:88-91 | true exactly when some keyword is a substring of the text |
| Scoring.RolePoints | app/scoring.py:166-173 | role points lie in [0, 40] |
| Scoring.LocationPoints | app/scoring.py:175-184 | location points lie in [10, 30] |
| Scoring.YoePoints | app/scoring.py:186-213 | experience points lie in [0, 30] |
| Scoring.Clamp | app/scoring.py:215 | the clamped value lies in [0, 100], is the value itself inside that range, and is the nearer end outside it |
| Scoring.MatchScore | app/scoring.py:147-215 | the score lies in [0, 100] and is never below 10 |
| Scoring.ScoreIsSumOfComponents | app/scoring.py:147-215 | the score is the clamped sum of role, location and experience points |
| Scoring.RoleTiers | app/scoring.py:166-173 | a tier-1 title earns 40; otherwise a tier-2 title earns 30; otherwise a skill mentioned in title, description or location earns 20, and nothing else earns 0 |
| Scoring.LocationTiers | app/scoring.py:175-184 | a remote location earns 30; otherwise a remote-in-India location earns 25; otherwise an Indian city earns 20; anything else earns 10 |
| Scoring.NoYoeIsNeutral | app/scoring.py:212-213 | a job with no experience bounds earns 15 experience points |
| Scoring.TargetInRangeGetsFull | app/scoring.py:188-191 | a target inside the job's range earns the full 30 |
| Scoring.MinOnlyNeverTen | app/scoring.py:198-205 | with only a minimum, the job earns 25 when the minimum is at most the target and below 5, else 0; the 10-point branch is unreachable |
| Scoring.ScoreFitsJob | app/models.py:24 | storing a match score keeps a valid job valid |
| Scoring.RemoteAnalystScore | app/scoring.py:147-215 | example: a remote "Senior Data Analyst" with no experience bounds scores 85 |
| Signals.DetectVisaSponsorship | app/scoring.py:88-91 | true exactly when some sponsorship keyword occurs in the lower-cased text |
| Signals.DigitsEnd | app/scoring.py:58 | the returned position ends the maximal digit run starting at i |
| Signals.NumberAt | app/scoring.py:58 | a number read at i starts with a digit and ends inside the text |
| Signals.SeparatorEnd | app/scoring.py:58 | a separator read at p consumes at least one character and stays inside the text |
| Signals.RangeAt | app/scoring.py:57-61 | a range match has two non-negative bounds |
| Signals.AfterPhrase | app/scoring.py:63-68 | a number after a minimum phrase yields a non-negative minimum and no maximum |
| Signals.AtLeastAt | app/scoring.py:63-68 | a minimum-phrase match has a minimum and no maximum |
| Signals.PlusAt | app/scoring.py:78-83 | an "N+ years" match has a minimum and no maximum |
| Signals.MatchAt | app/scoring.py:57-83 | a match always has a minimum, and has a maximum exactly for the two range patterns |
| Signals.Search | app/scoring.py:57-83 | a search result always has a minimum, and has a maximum exactly for the two range patterns |
| Signals.ExtractYoeWith | app/scoring.py:48-85 | the extracted bounds are non-negative, and a maximum comes only with a minimum |
| Signals.ExtractYoeAsWritten | app/scoring.py:48-85 | as written, the extracted bounds are non-negative, and a maximum comes only with a minimum |
| Signals.ExtractYoe | app/scoring.py:48-85 | with the separator read as a dash or the word "to", the extracted bounds are non-negative, and a maximum comes only with a minimum |
| Signals.SearchNone | app/scoring.py:57-83 | a search finds nothing exactly when no position from i on matches |
| Signals.SearchLeftmost | app/scoring.py:57-83 | a search returns the match at the leftmost matching position |
| Signals.NoDigitsNoMatch | app/scoring.py:57-83 | text without digits matches no pattern anywhere |
| Signals.NoDigitsNoPhraseMatch | app/scoring.py:63-68 | text without digits never matches a minimum phrase |
| Signals.NoDigitsNoYoe | app/scoring.py:48-85 | text without digits yields no experience bounds |
| Signals.NoPhraseNoMatch | app/scoring.py:63-68 | where no minimum phrase occurs, the minimum pattern does not match |
| Signals.NoNumberNoMatch | app/scoring.py:57-83 | a numeric pattern cannot match where no digit starts |
| Currency.KeyOccurs | app/scoring.py:115 | no contract; the `symbol in text_lower` test, or its whole-word variant, characterised by WholeWordFindsLess |
| Currency.FirstCurrency | app/scoring.py:113-116 | no contract; the first key in table order that occurs, characterised by FirstCurrencyNone, FirstCurrencyFound and FirstCurrencyIsFirst |
| Currency.FirstCurrencyNone | app/scoring.py:113-117 | no currency is detected exactly when no key of the table occurs |
| Currency.FirstCurrencyFound | app/scoring.py:113-117 | a detected currency belongs to an occurring key that no earlier key precedes |
| Currency.FirstCurrencyIsFirst | app/scoring.py:113-117 | the first occurring key in table order decides the currency |
| Currency.DetectCurrency | app/scoring.py:113-117 | the loop returns the first key's currency in table order, as the scan function defines it |
| Currency.DecimalEnd | app/scoring.py:120 | a decimal number read at i is non-empty and stays inside the text |
| Currency.HasUnitRange | app/scoring.py:119-130 | no contract; `re.search` of the thousands or lakhs pattern, used by ThousandsDefaultToUsd and LakhsDefaultToInr |
| Currency.SalaryCurrency | app/scoring.py:104-144 | no contract; the currency `extract_salary_currency` reports, characterised by ThousandsDefaultToUsd, LakhsDefaultToInr, DetectedCurrencyWins and CurrencyIsKnownCode |
| Currency.ExtractSalaryCurrency | app/scoring.py:94-144 | the currency is the detected code, else USD for a "k" range, else INR for a lakh range, else none |
| Currency.ThousandsDefaultToUsd | app/scoring.py:119-125 | a thousands range with no detected currency defaults to USD; a detected currency is kept |
| Currency.LakhsDefaultToInr | app/scoring.py:127-133 | a lakh range (with no thousands range) and no detected currency defaults to INR |
| Currency.DetectedCurrencyWins | app/scoring.py:113-144 | a detected currency always wins; no currency results exactly when none is detected and no range pattern occurs |
| Currency.CurrencyIsKnownCode | app/scoring.py:104-144 | every returned currency is a code from the table |
| Currency.WholeWordFindsLess | app/scoring.py:113-117 | a key found as a word is also found as a substring |
| YoeExamples.RangeExample | app/scoring.py:57-61 | example: "2-3 years" yields 2 to 3 under either separator reading |
| YoeExamples.MinimumExample | app/scoring.py:63-68 | example: "Minimum 2 years" yields a minimum of 2 and no maximum, as written and with the corrected separator |
| YoeExamples.FivePlusExample | app/scoring.py:78-83 | example: "5+ years" yields a minimum of 5 and no maximum, as written and with the corrected separator |
| YoeExamples.WordToMissedAsWritten | app/scoring.py:57-85 | example: as written, "2 to 3 years" yields no bounds |
| YoeExamples.WordToRead | app/scoring.py:57-61 | example: with "to" as a separator, "2 to 3 years" yields 2 to 3 |
| CurrencyExamples.YearsReadAsRupees | app/scoring.py:104-117 | example: as written, "3 years" is detected as INR through the "rs" in "years" |
| CurrencyExamples.YearsNoWholeWordKey | app/scoring.py:104-117 | example: matching keys as words, "3 years" has no currency |
| CurrencyExamples.DollarsStillUsd | app/scoring.py:104-117 | example: "100 dollars" is USD under both ways of matching keys |
| CurrencyExamples.KeyBeforeAmount | app/scoring.py:104-117 | example: "rs500" is INR under both ways of matching keys, since a digit does not continue a word |
| Enhance.EnhanceJobWithMetadata | app/scoring.py:218-236 | from description plus location: the experience bounds are the as-written extractor's, the visa flag is true or unset (never false) as a keyword occurs or not, and the currency is the substring-matched one |
| Enhance.EnhanceJobWithMetadataCorrected | app/scoring.py:218-236 | the same metadata with "to" read as a range separator and currency keys matched as words (plural "s" allowed) |
| Enhance.MetadataFitsJob | app/scoring.py:218-236 | under either reading of the separator and of the currency keys, writing the extracted metadata into a valid job keeps it valid |
| Cache.Normalize | app/cache.py:21-24 | no contract; the dictionary of present parameters, characterised by NormalizeLookup, NormalizeNames, OrderIndependent and NormalizeSnoc |
| Cache.NormalizeLookup | app/cache.py:21-24 | each present parameter maps to its value in the normalised key; absent ones are dropped |
| Cache.NormalizeNames | app/cache.py:21-24 | every name in the key is the name of some parameter holding a value (the converse is NormalizeLookup) |
| Cache.OrderIndependent | app/cache.py:21-24 | with distinct names, parameter order does not change the key |
| Cache.NormText | app/cache.py:85 | a normalised text field is trimmed |
| Cache.LowerKeepsTrimmed | app/cache.py:85 | lower-casing keeps a trimmed string trimmed |
| Cache.NormTextInvariance | app/cache.py:85-93 | case and surrounding whitespace do not change a normalised field, and normalising is idempotent |
| Cache.NormalizeSnoc | app/cache.py:21-24 | appending a present parameter updates the key at that name |
| Cache.NormCountry | app/cache.py:91 | no contract; `(country or "usa").strip().lower()`, characterised by BlankCountryNotDefaulted |
| Cache.JobspyCacheKey | app/cache.py:72-94 | no contract; characterised by JobspyKeyParams and JobspyKeyIgnoresCaseAndPadding |
| Cache.RssjobsCacheKey | app/cache.py:97-105 | no contract; characterised by RssjobsKeyParams and RssjobsKeyIgnoresCaseAndPadding |
| Cache.NormalizeEight | app/cache.py:82-94 | the eight search parameters normalise to the eight-entry key |
| Cache.JobspyKeyParams | app/cache.py:72-94 | the search key holds exactly the normalised query, location, days, limit, sites, preset, country and remote flag |
| Cache.NormalizeThree | app/cache.py:97-105 | the three feed parameters normalise to the three-entry key |
| Cache.RssjobsKeyParams | app/cache.py:97-105 | the feed key holds exactly the normalised query, location and limit |
| Cache.JobspyKeyIgnoresCaseAndPadding | app/cache.py:85-93 | search keys that differ only in the case or padding of the query are equal, and an absent query keys like an empty one |
| Cache.RssjobsKeyIgnoresCaseAndPadding | app/cache.py:101-102 | feed keys that differ only in the case or padding of keywords and location are equal |
| Cache.BlankCountryNotDefaulted | app/cache.py:91 | an empty country defaults to "usa" but a blank one normalises to "", so the two give different keys |
| Cache.DistinctTail | app/cache.py:27-51 | the tail of a duplicate-free order is duplicate-free and holds every other key |
| Cache.RemoveKey | app/cache.py:41-43 | the result holds exactly the other keys; removing an absent key changes nothing; from a duplicate-free order the key is cut out where it stood, the other keys keeping their order |
| Cache.Evicted | app/cache.py:48-49 | the number of keys evicted leaves the store below capacity, and evicting one fewer would not; a capacity below one empties the store |
| Cache.Lookup | app/cache.py:35-44 | no contract; the value and the store after `get`, characterised by LookupAbsent, LookupExpired and LookupLive |
| Cache.Insert | app/cache.py:46-51 | no contract; the store after `set`, characterised by InsertSpec and InsertThenLookup |
| Cache.LookupAbsent | app/cache.py:37-38 | a missing key is a miss and leaves the cache unchanged |
| Cache.LookupExpired | app/cache.py:39-42 | an expired entry is a miss; it is removed from the entries and cut out of the order, the other keys keeping their order, and the store stays well formed |
| Cache.LookupLive | app/cache.py:43-44 | a live entry is a hit returning its value; its key is cut out of the order and appended, the other keys keeping their order, and the entries are unchanged |
| Cache.InsertSpec | app/cache.py:46-51 | after an insert the key holds the new value and expiry and sits last; the store stays well formed and within capacity; exactly the keys that survive eviction of the oldest stay, with their old entries, in their old order |
| Cache.InsertThenLookup | app/cache.py:35-51 | a lookup right after an insert, within the TTL, returns the inserted value |
| Cache.TTLCache.constructor | app/cache.py:30-33 | a new cache is empty with the given capacity and TTL |
| Cache.TTLCache.Get | app/cache.py:35-44 | get returns and applies the lookup on the old state |
| Cache.TTLCache.EvictWhileFull | app/cache.py:48-49 | the eviction loop leaves exactly the evicted state |
| Cache.TTLCache.Set | app/cache.py:46-51 | set leaves exactly the inserted state |
| Cache.SetThenGet | app/cache.py:35-51 | on a live cache object, set followed by get within the TTL returns the stored value |
| Scraper.WithinDays | app/scraper.py:36-40 | no contract; `_within_days`, characterised by WithinDaysMonotone and used by FeedJobsSound |
| Scraper.QueryMatches | app/scraper.py:64-66 | no contract; the case-insensitive query test, used by FeedJobsSound and ListedDates |
| Scraper.WithinDaysMonotone | app/scraper.py:36-40 | a date within a window is within every wider window |
| Scraper.FeedJob | app/scraper.py:69-79 | the built job is valid exactly when the entry has a link |
| Scraper.FeedJobs | app/scraper.py:56-80 | no contract; the jobs of the kept entries in order, characterised by FeedJobsSound, FeedJobsPrefix, FeedJobsPlacement and FeedJobsNoneKept |
| Scraper.FeedToJobs | app/scraper.py:56-80 | the entry loop yields the jobs of the kept entries, in feed order |
| Scraper.FeedJobsSound | app/scraper.py:56-80 | every produced job is valid, dated within the window, matches the query, and carries its entry's link, source, "Unknown" company, "Remote" location and the rss tag |
| Scraper.FeedJobsPrefix | app/scraper.py:56-80 | the jobs of a feed prefix are a prefix of the feed's jobs |
| Scraper.FeedJobsPlacement | app/scraper.py:56-80 | each kept entry's job appears at the position given by the kept entries before it |
| Scraper.FeedJobsNoneKept | app/scraper.py:62-68 | a feed with no kept entry yields no jobs |
| Scraper.Successful | app/scraper.py:175-177 | no contract; the successful scrapers' jobs in order, characterised by SuccessfulHas, SuccessfulFrom and SuccessfulSnoc |
| Scraper.Dedup | app/scraper.py:178-182 | no contract; the seen-set filter, characterised by DedupIsFirstOccurrences, DedupSpec and DedupSnoc |
| Scraper.DedupIsFirstOccurrences | app/scraper.py:173-183 | dedup keeps exactly the first job for each URL |
| Scraper.DedupSpec | app/scraper.py:173-183 | dedup keeps the same URL set, with URLs unique, and every kept job comes from the input |
| Scraper.FirstWins | app/scraper.py:178-182 | the first job with a URL is kept |
| Scraper.FirstOccurrencesKeeps | app/scraper.py:178-182 | a first occurrence of a URL is kept |
| Scraper.SuccessfulHas | app/scraper.py:175-177 | every job of a successful scraper is in the merged input |
| Scraper.SuccessfulFrom | app/scraper.py:175-177 | every merged job comes from some successful scraper |
| Scraper.SuccessfulSnoc | app/scraper.py:175-177 | a failed scraper adds nothing and a successful one appends its jobs |
| Scraper.DedupSnoc | app/scraper.py:178-182 | one more job is appended and its URL recorded exactly when its URL is new |
| Scraper.MergeResult | app/scraper.py:178-182 | merging one scraper's jobs extends the dedup result and the seen-URL set |
| Scraper.ScrapeAll | app/scraper.py:162-183 | the merge yields the first-occurrence dedup of all successful scrapers' jobs |
| Scraper.ScrapeAllSound | app/scraper.py:173-183 | the merged URLs are unique and every merged job comes from a successful scraper |
| Api.Cutoff | app/main.py:41 | no contract; `days` days before the clock reading, used by GetJobs |
| Api.Passes | app/main.py:45-54 | no contract; the three filter tests, characterised by ListedDates |
| Api.Matching | app/main.py:45-54 | no contract; the passing jobs in stored order, characterised by MatchingMembers |
| Api.MatchingMembers | app/main.py:45-54 | a stored job survives the filter exactly when it passes, and the filter never grows the list |
| Api.InsertByDatePerm | app/main.py:56 | insertion keeps the multiset of jobs |
| Api.InsertByDateSpec | app/main.py:56 | inserting into a newest-first list keeps it newest-first and a permutation |
| Api.InsertedFrom | app/main.py:56 | each element after an insertion is the new job or an old one |
| Api.SortByDate | app/main.py:56 | no contract; the stable newest-first sort, characterised by SortByDateSpec and SortByDateStable |
| Api.SortByDateSpec | app/main.py:56 | the sort is newest first, undated last, and a permutation of its input |
| Api.InsertByDateStable | app/main.py:56 | insertion preserves the relative order of equally dated jobs |
| Api.SortByDateStable | app/main.py:56 | the sort keeps jobs with the same date in input order |
| Api.Listing | app/main.py:56-57 | no contract; the sorted passing jobs cut to `limit`, characterised by ListingSpec and EmptyStoreListsNothing |
| Api.GetJobs | app/main.py:30-59 | the response is ok, its count is its length, and it lists the sorted, truncated matching jobs |
| Api.ListingSpec | app/main.py:41-59 | the listing has min(limit, matching) jobs, each stored and passing the filter, newest first, and no dropped match is newer than a listed one |
| Api.EmptyStoreListsNothing | app/main.py:37-39 | an empty store lists nothing |
| Api.ListedDates | app/main.py:46-53 | a passing job is undated or dated at or after the cutoff, matches a non-empty source filter, and contains a non-empty query |
| Api.ReportOf | app/main.py:99-112 | a scraper that returned is reported ok with its count; one that raised is reported failed with count 0 and its message |
| Api.DebugScrapers | app/main.py:72-118 | the report has one entry per scraper in order, each the report of that scraper's outcome, and the total is the sum of reported counts |
| Api.TotalIsReturnedJobs | app/main.py:114-118 | the reported total equals the number of jobs the scrapers returned |
| Api.ImportNames | app/main.py:78-84 | the import succeeds exactly when every imported name is defined by the scraper module |
| Api.DebugScrapersAsWritten | app/main.py:72-118 | no contract; the import first, then the report total, characterised by DebugImportAlwaysFails |
| Api.DebugImportAlwaysFails | app/main.py:78-84 | as written, the endpoint fails on the import of a name the scraper module lacks, whatever the scrapers would return |
| Api.DebugScrapersTotal | app/main.py:99-118 | the corrected endpoint totals the jobs the scrapers returned |
| JobSpy.HoursOld | app/jobspy_integration.py:35 | the recency window is days times 24 hours, and at least one hour |
| JobSpy.Wanted | app/jobspy_integration.py:37 | the requested count lies in [10, 100] and is unchanged inside that range |
| JobSpy.WantedNearestEnd | app/jobspy_integration.py:37 | a request outside [10, 100] is moved to the nearer end, and clamping twice equals clamping once |
| JobSpy.JobspyRequest | app/jobspy_integration.py:35-45 | the library request carries the fixed site list, a window of at least one hour and a count in [10, 100] |
| JobSpy.Field | app/jobspy_integration.py:59-89 | a field is truthy exactly when either column is, and a truthy lower-case column wins |
| JobSpy.TextOr | app/jobspy_integration.py:59-72 | a falsy cell gives the default, and a truthy cell is read exactly when it is text |
| JobSpy.Amount | app/jobspy_integration.py:93-94 | an amount is present exactly when the cell is a number or a boolean |
| JobSpy.JoinPlace | app/jobspy_integration.py:67 | the joined city and state are empty exactly when both are |
| JobSpy.PlaceOf | app/jobspy_integration.py:91-100 | the job location is never empty |
| JobSpy.ReadTexts | app/jobspy_integration.py:59-91 | no contract; the text cells of a row with their defaults, characterised by AdaptedNames, AdaptedLocation and BareRecordTexts |
| JobSpy.BuildJob | app/jobspy_integration.py:74-110 | no contract; the Job(...) built from the texts, characterised by AdaptedValid, AdaptedNames and AdaptedSalary |
| JobSpy.AdaptRecord | app/jobspy_integration.py:56-110 | no contract; one row adapted or skipped, characterised by AdaptedValid, AdaptedLocation, AdaptedNames, AdaptedSalary and NoUrlSkipped |
| JobSpy.AdaptedValid | app/jobspy_integration.py:61-110 | every adapted record is a valid job whose URL is the record's URL cell, tagged "jobspy" |
| JobSpy.NoUrlSkipped | app/jobspy_integration.py:61-63 | a record without a URL is skipped |
| JobSpy.AdaptedLocation | app/jobspy_integration.py:65-69 | the location is the city and state joined with ", ", else the location cell, else "Remote" for a remote job, else "Unknown" |
| JobSpy.AdaptedNames | app/jobspy_integration.py:59-72 | a missing company becomes "Unknown", a missing site "jobspy"; the source is "jobspy_" plus the lower-cased site, and the id hashes site and URL |
| JobSpy.AdaptedSalary | app/jobspy_integration.py:93-94 | a salary bound is present exactly when its cell is a number or boolean, and a number is kept as is |
| JobSpy.BareRecordTexts | app/jobspy_integration.py:56-91 | example: a row holding only a URL reads as that URL with empty texts, company "Unknown", site "jobspy", and no date or amounts |
| JobSpy.BareRecord | app/jobspy_integration.py:56-110 | example: a row holding only a URL becomes an untitled job at "Unknown" from company "Unknown", with source "jobspy_jobspy", no date and no salary |
| JobSpy.AdaptRecords | app/jobspy_integration.py:56-114 | the loop yields the adapted records in order, skipping the ones that fail |
| JobSpy.AdaptAllHas | app/jobspy_integration.py:56-114 | every successfully adapted record's job is in the output |
| JobSpy.AdaptAllFrom | app/jobspy_integration.py:56-114 | every output job is the adaptation of some record |
| JobSpy.AdaptAllLength | app/jobspy_integration.py:56-114 | the output is never longer than the input |
| JobSpy.AdaptAllValid | app/jobspy_integration.py:56-114 | every output job is valid |
| JobSpy.Run | app/jobspy_integration.py:33-117 | a failed library call yields no jobs; a successful one yields the adapted records |

## Left out

- Network and file I/O are not modelled. This covers the HTTP fetch, RSS/XML parsing, JSON storage and the scraping library call. Feed entries, scraper outcomes and library result rows are inputs. An empty feed body is the empty entry list.
- `asyncio` concurrency is not modelled (`gather`, `to_thread`). Scraper results arrive as an ordered list, and an exception is the `Failed` outcome.
- The FastAPI routing, CORS and server start-up are not modelled, nor the health and refresh endpoints or the lazily created cache singletons.
- Date parsing (`_parse_date`, `dateutil`, ISO parsing) is a function parameter. Time zones are not modelled: all timestamps are integer seconds. The wall clock is a parameter.
- Job ids use Python's per-process `hash()`, modelled as an uninterpreted `HashId(tag, link)`.
- The SHA-256 and JSON encoding of cache keys is modelled as the normalised parameter map itself. This assumes the hash is injective.
- Lower-casing, stripping, `\s`, `\d` and `\w` follow ASCII only. Unicode case mappings and Unicode whitespace are not modelled.
- Pydantic validation is reduced to the bounds the model states. `HttpUrl` syntax is reduced to "non-empty".
- The constant `ok` flag of the debug report, the `system` field of responses, `SystemStats` and `GroupedByCurrencyResponse` are not modelled.
- Pandas NaN cells are not modelled.
- Currency.ExtractSalaryCurrency: returns only the currency. The salary amounts, their float arithmetic and the plain-number pattern are not modelled; the plain-number branch does not change the currency.
- Scoring.MatchScore: is integer-valued (every component is a whole number); the source returns it as a float.
- JobSpy.AdaptRecord: a site cell that is neither text nor falsy is treated as a failed row; the source would render it with `str()`.
- JobSpy.AdaptRecord: a numeric date cell counts as no date; the source would render it and try to parse it.
- JobSpy.AdaptRecord: a date object counts as a timestamp, like a datetime.
- Api.GetJobs: `days` in [1, 30] and `limit` in [1, 400] are preconditions, because the web framework rejects other values before the handler runs.
- Api.GetJobs: an undated job sorts strictly after every dated one; a job dated exactly at `datetime.min` would tie with it in the source.
- Api.GetJobs: the errors from comparing naive and aware datetimes are not modelled.
- The `page`/`per_page`, `sort`, yoe, visa, job-type and currency-grouping query options are not modelled; only the query, days, limit and source options are.
- The blank-country key quirk in `jobspy_cache_key` is stated as a property only. The model computes the key as the code does.

## Findings

| source | as written | input that shows it | evidently intended | confidence | as-written member | corrected member |
|---|---|---|---|---|---|---|
| app/scoring.py:57-61 | the range separator `[-–—to]` is a character class, so the word "to" is never a separator | "2 to 3 years" yields no experience bounds | a dash or the word "to" separates the bounds, giving 2 to 3 | not executed; high | YoeExamples.WordToMissedAsWritten | YoeExamples.WordToRead |
| app/scoring.py:104-117 | currency keys are searched as plain substrings, so "rs" matches inside ordinary words | "3 years" is read as INR | keys match as words bounded by non-letters, optionally with a plural "s", so no currency is found while "dollars" stays USD and "rs500" stays INR | not executed; high | CurrencyExamples.YearsReadAsRupees | CurrencyExamples.YearsNoWholeWordKey |
| app/main.py:78-84 | the debug endpoint imports `scrape_remotive_api` and `scrape_indeed_rss`, which the scraper module does not define | every request fails on the import | the report totals the scrapers' returned jobs | not executed; high | Api.DebugImportAlwaysFails | Api.DebugScrapersTotal |
