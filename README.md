# Job board ingestion and serving, modelled in Dafny

This project models the core of a job board made of two services:

- the ingestion pipeline of `backend`. Seven source adapters (Greenhouse, Lever, Adzuna, Remotive, Arbeitnow, RemoteOK and We Work Remotely) turn decoded API answers into job dictionaries. The batch job then filters them by query, removes duplicates by fingerprint, applies the hard exclusion filters and the optional profile filter, and upserts each job into the `jobs` table by fingerprint;
- the three adapters of the `jobboard` service (`sources.py`: Adzuna, RemoteOK and the We Work Remotely RSS feed), which build normalised `JobNorm` records;
- the serving side of both APIs (`main.py`). It covers the tag column helpers, the SQL filters of `list_jobs` restated as predicates over a row under SQL three-valued logic, the dashboard's role inference, and the application tracker: the 404/409 checks of `create_application`, the seven-day follow-up rule, the partial update of `update_application`, and the filters of `list_applications`.

Every network answer, environment variable, clock reading and parsed timestamp is a parameter. Each adapter takes the decoded items with their optional fields as input. A request that fails with an error status is `None`, and the adapter turns it into an `Err`. The SHA-1 hash of the fingerprint is a function parameter, so every fingerprint property is stated about its pre-image. The `\b` regular expressions of the exclusion filters go through a search predicate parameter.

Modules:

| module | file | models |
|---|---|---|
| `Wrappers`, `Strings`, `Seqs` | wrappers.dfy, strings.dfy, seqs.dfy | Option/Result, Python string helpers (`strip`, ASCII `lower`, `in`, `join`, `split`, `replace`), list comprehensions and the "append until the cap" loops |
| `Urls` | urls.dfy | the `netloc` of `urlsplit`, `quote`, the non-lower-casing `_origin_domain` |
| `Normalize` | normalize.py | `clean_ws`, `origin_domain`, `normalize_location`, `fingerprint`, `tags_to_db`, `JobNorm` |
| `Records` | records.dfy | the job dictionary of the backend adapters, the snippet rule and `_matches_query` |
| `FetchGreenhouse` … `FetchWwr` | fetch_*.dfy | one module per backend adapter |
| `Ingest`, `IngestStore` | ingest.dfy, store.dfy | `ingest.py`: filters, `dedupe_by_fp`, `upsert_by_fingerprint` against a store class |
| `Sources` | sources.dfy | `jobboard/backend/app/ingest/sources.py` |
| `JobTable` | job_table.dfy | the `jobs` row, SQL TRUE/FALSE/UNKNOWN, `ILIKE '%x%'` |
| `Serving` | serving.dfy | `tags_to_str` / `str_to_tags` (same code in both `main.py`) |
| `Api` | api.dfy | the filters of the backend `list_jobs` and the dashboard role inference |
| `BoardApi` | board_api.dfy | the jobboard `list_jobs` filter |
| `Applications` | applications.dfy | the application endpoints (same code in both `main.py`) |

Three behaviours of the code that are easy to misread:

- `origin_domain` removes every `www.` that one left-to-right pass of `str.replace` finds, not only a leading one. The text around a removed match can join into a new `www.` (see `Normalize.OriginDomainKeepsSomeWww`).
- Only some adapters lower-case the origin domain. `_origin_domain` of Adzuna, Remotive, Arbeitnow, RemoteOK and We Work Remotely keeps the letter case. It also gives `""`, not `None`, for a URL without an authority.
- In the backend `list_jobs`, the exclusion and role filters are `NOT (… OR …)` over `ILIKE` tests on `description` and `tags`. Under SQL three-valued logic a NULL in either column makes the condition UNKNOWN, and `WHERE` drops the row. So with the default flags a job stored without tags is never listed (`Api.DefaultListingNeedsColumns`). The model states the filters exactly, NULL columns included. The intuitive "survives iff no pattern matches" holds only for rows whose description and tags are non-NULL (`Api.ExcludeNonNull`).

## Model

| member | source | states |
|---|---|---|
| Normalize.CleanWsNormal | backend/app/ingest/normalize.py:9-12 | `clean_ws` output has no white space at either end, no two adjacent white-space characters and no white space other than a plain space; `None` or `""` gives `""` |
| Normalize.CleanWsIdempotent | backend/app/ingest/normalize.py:9-12 | cleaning a cleaned string changes nothing |
| Normalize.CleanWsNoSpace | backend/app/ingest/normalize.py:12 | text without white space is returned unchanged |
| Normalize.CleanWsKeepsOut | backend/app/ingest/normalize.py:12 | cleaning introduces no character except the plain space |
| Normalize.CollapseWs | backend/app/ingest/normalize.py:12 | `re.sub(r"\s+", " ", s)`: every white-space character left is a plain space, no two are adjacent, and the first character is white space iff the input's was |
| Normalize.CollapseWsNormal | backend/app/ingest/normalize.py:12 | the substitution leaves already-collapsed text unchanged |
| Normalize.StripKeepsSpacing | backend/app/ingest/normalize.py:12 | stripping collapsed text yields text in the `clean_ws` normal form |
| Normalize.CleanWsSingleSpace | backend/app/ingest/normalize.py:12 | two space-free words joined by one space are already clean |
| Normalize.CleanWsNormalFixed | backend/app/ingest/normalize.py:9-12 | text with no white space at the ends, only single plain spaces inside, is left unchanged by `clean_ws` |
| Normalize.OriginDomain | backend/app/ingest/normalize.py:14-21 | `None` for an absent or empty URL; otherwise any result is non-empty and lower-case |
| Normalize.OriginDomainPlainHost | backend/app/ingest/normalize.py:18-19 | a host without `www.` comes back lower-cased and otherwise unchanged |
| Normalize.OriginDomainLeadingWww | backend/app/ingest/normalize.py:18 | a leading `www.` is removed |
| Normalize.WwwCanSurvive | backend/app/ingest/normalize.py:18 | one `str.replace` pass turns `wwwww.w.` into `www.` |
| Normalize.OriginDomainKeepsSomeWww | backend/app/ingest/normalize.py:14-21 | `https://wwwww.w./` has origin domain `www.`, so a `www.` can survive |
| Normalize.OriginDomainOfWwwww | backend/app/ingest/normalize.py:18-19 | any URL whose authority is `wwwww.w.` has origin domain `www.` |
| Normalize.NetlocOfDottedHost | backend/app/ingest/normalize.py:18 | the authority of `https://` + a host of `w`s and dots + `/` is that host |
| Normalize.NormalizeLocationIsLower | backend/app/ingest/normalize.py:23-26 | the normalised location holds no upper-case letter |
| Normalize.NormalizeLocationNone | backend/app/ingest/normalize.py:23-26 | a missing location normalises to `""` |
| Normalize.NormalizeLocationUnitedStates | backend/app/ingest/normalize.py:24-25 | a location that cleans and lower-cases to `united states` becomes `us` |
| Normalize.NormalizeLocationUsa | backend/app/ingest/normalize.py:24-25 | a location that cleans and lower-cases to `usa` becomes `us` |
| Normalize.NormalizeLocationOfUnitedStates | backend/app/ingest/normalize.py:23-26 | `"United States"` normalises to `us` |
| Normalize.NormalizeLocationOfUsa | backend/app/ingest/normalize.py:23-26 | `"USA"` normalises to `us` |
| Normalize.NormalizeLocationKeepsOut | backend/app/ingest/normalize.py:23-26 | normalisation introduces no separator character that was not already present |
| Normalize.PreimageIsJoin | backend/app/ingest/normalize.py:28-29 | the fingerprint pre-image is the `\|`-join of lower(title), lower(company), the normalised location and lower(origin or "") |
| Normalize.PreimageInjective | backend/app/ingest/normalize.py:28-30 | for `\|`-free fields, two pre-images are equal iff title, company and origin agree up to letter case and the locations agree after normalisation |
| Normalize.FingerprintCaseInsensitive | backend/app/ingest/normalize.py:28-30 | the fingerprint ignores the letter case of title, company and origin, whatever the hash |
| Normalize.CleanedTags | backend/app/ingest/normalize.py:32-33 | the kept tags are non-empty and no more than the input tags |
| Normalize.CleanedTagsKeepOut | backend/app/ingest/normalize.py:32-33 | cleaned tags contain no non-space character that the input tags lack |
| Normalize.TagsToDbSplits | backend/app/ingest/normalize.py:32-33 | for comma-free tags, the stored string is `""` iff no tag survives; otherwise it splits back into exactly the cleaned tags, with no empty segment |
| Normalize.TagsToDbCommaTag | backend/app/ingest/normalize.py:32-33 | a tag holding a comma does leave empty segments: `[","]` is stored as `","` |
| Normalize.FpIdentityOnly | backend/app/ingest/normalize.py:50-51 | `JobNorm.fp` depends only on title, company, location and origin domain |
| Urls.Netloc | backend/app/ingest/normalize.py:18 | the authority that `urlparse(url).netloc` extracts: it has no `/`, `?` or `#`; it is `None`, standing for the ValueError, where the authority holds only one of `[` and `]` |
| Urls.NetlocOfHttps | backend/app/ingest/fetch_wwr.py:38 | the authority of `https://host/path` is `host` |
| Urls.OriginDomainAsIs | backend/app/ingest/fetch_adzuna.py:8-14 | the non-lower-casing `_origin_domain`: `None` only for an empty URL or a rejected authority |
| Urls.OriginDomainAsIsWithoutAuthority | backend/app/ingest/fetch_adzuna.py:12 | a non-empty URL without an authority gives `""`, not `None` |
| Urls.OriginDomainAsIsKeepsCase | backend/app/ingest/fetch_remotive.py:11 | the host keeps its letter case |
| Urls.Quote | backend/app/ingest/fetch_wwr.py:24 | `requests.utils.quote`: the percent-encoded UTF-8 of the term with `/` kept |
| Urls.QuoteSafeText | backend/app/ingest/fetch_wwr.py:24 | a term made only of safe characters is unchanged |
| Urls.QuoteSpace | backend/app/ingest/fetch_wwr.py:24 | a space becomes `%20` |
| Records.NonEmptyOr | backend/app/ingest/fetch_remotive.py:58-59 | `s or "Unknown"` is never empty and keeps a non-empty `s` |
| Records.NoneIfEmpty | backend/app/ingest/fetch_greenhouse.py:120 | `desc or None` is `None` iff `desc` is empty |
| Records.StripOrNone | backend/app/ingest/fetch_greenhouse.py:71 | `(o or "").strip() or None` is `None` for a falsy input; otherwise it is non-empty and trimmed |
| Records.Ellipsized | backend/app/ingest/fetch_remotive.py:68 | a description longer than 300 characters gives its first 300 followed by `...` (303 in all); a shorter one is kept |
| Records.EllipsizedIdempotent | backend/app/ingest/fetch_remotive.py:68 | applying the snippet rule twice is applying it once |
| Records.SnippetOrNone | backend/app/ingest/fetch_greenhouse.py:121 | the snippet is `None` iff the description is empty; otherwise it is the ellipsised description |
| Records.MatchesBlankQuery | backend/app/ingest/fetch_greenhouse.py:17-22 | a blank or whitespace-only query matches every job |
| Records.MatchesQueryInField | backend/app/ingest/fetch_greenhouse.py:23-30 | a query found, ignoring case, in title, company, location or description keeps the job |
| Records.MatchesQueryInTag | backend/app/ingest/fetch_lever.py:23-30 | so does one found in any one tag |
| FetchGreenhouse.TagsShape | backend/app/ingest/fetch_greenhouse.py:92-106 | at most six tags, each the stripped name of one of the first three departments or first three offices |
| FetchGreenhouse.CollectNames | backend/app/ingest/fetch_greenhouse.py:94-99 | the department loop appends the stripped truthy names of the first three entries, in order |
| FetchGreenhouse.CollectTags | backend/app/ingest/fetch_greenhouse.py:93-106 | department tags, then office tags |
| FetchGreenhouse.Record | backend/app/ingest/fetch_greenhouse.py:68-123 | source `greenhouse`, the configured company; the stripped title, or `Unknown` when it strips to empty; the stripped location name, or `None` when it strips to empty; the stripped absolute URL as both `url` and `apply_url`, or `None` when it strips to empty; remote and contract false; snippet `None` iff description `None`; the tags are the stripped names of the first three departments then the first three offices; the description is the content when it is a non-empty string, else `None`, and the snippet its ellipsised form; the origin domain is that of the URL; `source_job_id` is the id or `""` |
| FetchGreenhouse.CompanyRecords | backend/app/ingest/fetch_greenhouse.py:46-131 | a blank slug contributes nothing; any company contributes at most `max(1, limit_per_company)` records |
| FetchGreenhouse.FetchGreenhouse | backend/app/ingest/fetch_greenhouse.py:33-133 | the company loop returns the companies' contributions concatenated in order |
| FetchGreenhouse.FetchedBound | backend/app/ingest/fetch_greenhouse.py:125-131 | at most `max(1, limit_per_company)` records per configured company |
| FetchGreenhouse.SelectSound | backend/app/ingest/fetch_greenhouse.py:125-128 | a kept job matches the query and carries the company name |
| FetchGreenhouse.CompanyRecordsSelected | backend/app/ingest/fetch_greenhouse.py:46-65 | a company's records come from a successful board request of a non-blank slug |
| FetchGreenhouse.CompanyRecordsSound | backend/app/ingest/fetch_greenhouse.py:46-131 | each of a company's records matches the query and carries that company's name |
| FetchGreenhouse.FetchedSound | backend/app/ingest/fetch_greenhouse.py:33-133 | every returned record matches the query and belongs to a configured company with a non-blank slug |
| FetchLever.Tags | backend/app/ingest/fetch_lever.py:96-102 | at most four tags |
| FetchLever.CollectTags | backend/app/ingest/fetch_lever.py:97-102 | the key loop keeps the non-blank stripped string values of team, commitment, location and department, in that order |
| FetchLever.ContractFromTag | backend/app/ingest/fetch_lever.py:111 | a tag that mentions "contract" in any letter case makes the posting a contract |
| FetchLever.NoTagsNoContract | backend/app/ingest/fetch_lever.py:111 | without tags there is no contract |
| FetchLever.Record | backend/app/ingest/fetch_lever.py:71-119 | source `lever`, the company name; the title is the stripped `text` when truthy, else the stripped `title`, and `Unknown` when that strips to empty; the stripped category location, or `None` when it strips to empty; the stripped hosted URL as both `url` and `apply_url`, or `None`; not remote; contract iff `"contract"` occurs in the joined tags; snippet `None` iff description `None`; the tags are the non-blank stripped team, commitment, location and department values, in that order, so the contract flag follows the categories; the description is `descriptionPlain` when truthy, else `description`, kept when it is a non-empty string, else `None`, and the snippet its ellipsised form; the origin domain is that of the URL; `source_job_id` is the id or `""` |
| FetchLever.Select | backend/app/ingest/fetch_lever.py:67-69 | an element that is not an object is skipped |
| FetchLever.BuildRecord | backend/app/ingest/fetch_lever.py:71-119 | the record built with the adapter's tag loop is the specified record |
| FetchLever.CompanyRecords | backend/app/ingest/fetch_lever.py:46-127 | a blank slug, a failed request or a non-list response contributes nothing; at most `max(1, limit_per_company)` records per company |
| FetchLever.FetchLever | backend/app/ingest/fetch_lever.py:33-129 | the company loop returns the contributions concatenated in order |
| FetchLever.FetchedBound | backend/app/ingest/fetch_lever.py:121-127 | at most `max(1, limit_per_company)` records per company |
| FetchLever.SelectSound | backend/app/ingest/fetch_lever.py:104-124 | a kept posting is an object, matches the query and takes its contract flag from its tags |
| FetchLever.CompanyRecordsSelected | backend/app/ingest/fetch_lever.py:46-69 | a company's records come from a list response for a non-blank slug |
| FetchLever.CompanyRecordsSound | backend/app/ingest/fetch_lever.py:46-127 | each company record matches the query, carries the company name and has the tag-derived contract flag |
| FetchLever.FetchedSound | backend/app/ingest/fetch_lever.py:33-129 | the same for every returned record, for some configured company |
| FetchAdzuna.PageNumbers | backend/app/ingest/fetch_adzuna.py:30 | the pages are `1..max(1, pages)`, so a non-positive `pages` still fetches page 1 |
| FetchAdzuna.Record | backend/app/ingest/fetch_adzuna.py:45-82 | source `adzuna`; the stripped title and company, each `Unknown` when it strips to empty; not remote and not contract; the stripped category as the only tag when it is truthy, else no tag; the stripped display name as location when truthy, else `None`; the stripped redirect URL as both `url` and `apply_url`; the stripped description and its ellipsised snippet; the origin domain is the case-keeping `_origin_domain` of the URL; `source_job_id` is the id or `""` |
| FetchAdzuna.FetchAdzuna | backend/app/ingest/fetch_adzuna.py:17-84 | the page loop returns the credential error, the first page's HTTP error, or the pages' records in order |
| FetchAdzuna.MissingCredentials | backend/app/ingest/fetch_adzuna.py:18-21 | a blank id or key, or the placeholder id, fails before any request |
| FetchAdzuna.FetchedOk | backend/app/ingest/fetch_adzuna.py:18-84 | a successful run had valid credentials and concatenates the pages' records |
| FetchAdzuna.FetchedSound | backend/app/ingest/fetch_adzuna.py:23-45 | every record converts a result of a page in `1..max(1, pages)` requested with the stripped query |
| FetchAdzuna.PageRecordsSound | backend/app/ingest/fetch_adzuna.py:41-45 | a page's records convert that page's results |
| FetchAdzuna.PageRecordsInOrder | backend/app/ingest/fetch_adzuna.py:45-82 | a page's records are its results converted in order |
| FetchRemotive.SearchParam | backend/app/ingest/fetch_remotive.py:22-24 | `search` is sent iff the query is not blank, and then it is the stripped query |
| FetchRemotive.TagsSound | backend/app/ingest/fetch_remotive.py:41-44 | each tag is the stripped category or a string tag of the job |
| FetchRemotive.Record | backend/app/ingest/fetch_remotive.py:32-70 | source `remotive`, location `Remote`, remote; the stripped title and company, each `Unknown` when it strips to empty; contract iff `contract` occurs in the lower-cased job type; the stripped URL as both `url` and `apply_url`; the stripped description and its ellipsised snippet; `source_job_id` the id when truthy, else the apply URL; the tags are the stripped category then the string tags; the origin domain is the case-keeping `_origin_domain` of the URL |
| FetchRemotive.FetchRemotive | backend/app/ingest/fetch_remotive.py:16-75 | the loop returns the HTTP error or the first converted jobs up to the limit |
| FetchRemotive.KeepJobs | backend/app/ingest/fetch_remotive.py:31-73 | the job loop stops after `max(1, limit)` records and returns the first converted jobs |
| FetchRemotive.FetchedCount | backend/app/ingest/fetch_remotive.py:72-73 | a successful run returns `min(len(jobs), max(1, limit))` records |
| FetchRemotive.FetchedSound | backend/app/ingest/fetch_remotive.py:31-70 | every record converts a job of the answer |
| FetchRemotive.FetchedInOrder | backend/app/ingest/fetch_remotive.py:31-73 | the i-th record converts the i-th job |
| FetchArbeitnow.Record | backend/app/ingest/fetch_arbeitnow.py:42-59 | source `arbeitnow`; the stripped title and company, each `Unknown` when it strips to empty; `remote` the truthiness of the flag; never contract; no `posted_at`; tags `["remote"]` iff remote; location `Remote` when remote, otherwise the given location when truthy and `None` when not; `source_job_id` the slug when truthy, else the apply URL; the stripped URL as both `url` and `apply_url`; ellipsised snippet; the stripped description; the origin domain is the case-keeping `_origin_domain` of the URL |
| FetchArbeitnow.Select | backend/app/ingest/fetch_arbeitnow.py:37-40 | a job is kept iff the query is blank or occurs in the lower-cased "title company desc" |
| FetchArbeitnow.FetchArbeitnow | backend/app/ingest/fetch_arbeitnow.py:16-66 | the `while` loop over the page chain returns the walk's result |
| FetchArbeitnow.WalkChain | backend/app/ingest/fetch_arbeitnow.py:26-64 | over an error-free chain ending without a `next` link, the loop yields the first `limit` kept jobs of the whole chain |
| FetchArbeitnow.FetchedChain | backend/app/ingest/fetch_arbeitnow.py:16-66 | the adapter returns the first `limit` matching jobs of the chain (none for a limit below one) |
| FetchArbeitnow.FailedFirstPage | backend/app/ingest/fetch_arbeitnow.py:27-28 | an error status on the first page fails the run |
| FetchArbeitnow.WalkSound | backend/app/ingest/fetch_arbeitnow.py:31-59 | every job the loop returns is the record of a matching job |
| FetchArbeitnow.SelectSound | backend/app/ingest/fetch_arbeitnow.py:37-44 | a kept job matches and is converted |
| FetchArbeitnow.FetchedSound | backend/app/ingest/fetch_arbeitnow.py:16-66 | every returned record is that of a job matching the query |
| FetchArbeitnow.MatchInTitle | backend/app/ingest/fetch_arbeitnow.py:38-40 | a query found in the title keeps the job |
| FetchArbeitnow.MatchInDescription | backend/app/ingest/fetch_arbeitnow.py:38-40 | a query found in the description keeps the job |
| FetchRemoteOk.Listed | backend/app/ingest/fetch_remoteok.py:27-28 | only objects with a truthy `id` are listed, which drops the metadata element |
| FetchRemoteOk.Record | backend/app/ingest/fetch_remoteok.py:34-65 | source `remoteok`, location `Remote`, remote, not contract, no `posted_at`; the title is the stripped `position` when truthy, else the stripped `title`, and `Unknown` when that strips to empty; the stripped company or `Unknown`; the id as `source_job_id`; the tags are the string values of the tag list, in order (no more than given); the stripped URL as both `url` and `apply_url`; ellipsised snippet; the stripped description; the origin domain is the case-keeping `_origin_domain` of the URL |
| FetchRemoteOk.RecordTags | backend/app/ingest/fetch_remoteok.py:48 | a text is among the record's tags iff it is a string value of the tag list |
| FetchRemoteOk.Select | backend/app/ingest/fetch_remoteok.py:39-46 | a kept job is an object that matches the query |
| FetchRemoteOk.FetchRemoteOk | backend/app/ingest/fetch_remoteok.py:17-70 | the loop returns the HTTP error, the `TypeError` of joining a non-string tag, or the first matching jobs up to the limit |
| FetchRemoteOk.ScanJobs | backend/app/ingest/fetch_remoteok.py:33-68 | the scan stops at the limit or at the first job whose tag join raises, whichever comes first |
| FetchRemoteOk.ScannedRaises | backend/app/ingest/fetch_remoteok.py:41-44 | with a non-blank needle, a first job holding a non-string tag fails the scan |
| FetchRemoteOk.ScannedSound | backend/app/ingest/fetch_remoteok.py:33-68 | every record of a successful scan converts a scanned job that matches |
| FetchRemoteOk.FetchedWithoutQuery | backend/app/ingest/fetch_remoteok.py:30-68 | without a query nothing raises and the first `max(1, limit)` listed jobs are returned |
| FetchRemoteOk.FetchedRaises | backend/app/ingest/fetch_remoteok.py:41-44 | with a query, a first listed job whose tags hold a non-string fails the run |
| FetchRemoteOk.SelectSound | backend/app/ingest/fetch_remoteok.py:39-50 | a kept job is a matching object, converted |
| FetchRemoteOk.ListedSound | backend/app/ingest/fetch_remoteok.py:28 | a listed job is an object of the answer with a truthy `id` |
| FetchRemoteOk.FetchedSound | backend/app/ingest/fetch_remoteok.py:17-70 | every record converts a listed job that matches the query |
| FetchRemoteOk.MatchInTag | backend/app/ingest/fetch_remoteok.py:41-46 | a query found in any one string tag keeps the job |
| FetchRemoteOk.MatchInTitle | backend/app/ingest/fetch_remoteok.py:41-46 | a query found in the title keeps the job |
| FetchRemoteOk.TagsSound | backend/app/ingest/fetch_remoteok.py:48 | every tag of a record is a string tag of its job |
| FetchWwr.ListUrl | backend/app/ingest/fetch_wwr.py:23-24 | the search page with the quoted stripped term for a non-blank query, the plain listing otherwise |
| FetchWwr.Record | backend/app/ingest/fetch_wwr.py:38-74 | source `wwr`, remote, not contract, no tags, no `posted_at`; `source_job_id`, `url` and `apply_url` are the joined job URL; company and title are their element's text when present and `Unknown` when missing; location is the region text when non-empty, else `Remote`; description `None` iff the page text is empty; snippet `None` then, else ellipsised |
| FetchWwr.Select | backend/app/ingest/fetch_wwr.py:34-36 | exactly the anchors whose href starts with `/remote-jobs/` yield a record |
| FetchWwr.FetchWwr | backend/app/ingest/fetch_wwr.py:19-79 | the anchor loop returns the listing's HTTP error or the first job anchors' records up to the limit |
| FetchWwr.KeepJobs | backend/app/ingest/fetch_wwr.py:33-77 | the anchor loop stops after `max(1, limit)` records and returns the first job anchors' records |
| FetchWwr.SelectSound | backend/app/ingest/fetch_wwr.py:47-74 | a record carries the text of its fetched page, or `""` when that fetch failed |
| FetchWwr.FetchedSound | backend/app/ingest/fetch_wwr.py:19-79 | every record comes from a job anchor of the listing |
| FetchWwr.KeptSound | backend/app/ingest/fetch_wwr.py:33-77 | a record among the first kept ones comes from a job anchor and carries its page text |
| FetchWwr.NoWwwInHost | backend/app/ingest/fetch_wwr.py:6 | the board's host holds no `www.` |
| FetchWwr.HostIsPlain | backend/app/ingest/fetch_wwr.py:6 | the board's host is a plain host name |
| FetchWwr.JobUrlNetloc | backend/app/ingest/fetch_wwr.py:38 | the authority of every job URL is the board's host |
| FetchWwr.JobUrlOrigin | backend/app/ingest/fetch_wwr.py:10-16 | the origin domain of every job URL is the board's host |
| FetchWwr.RecordOrigin | backend/app/ingest/fetch_wwr.py:70 | every record carries that origin domain |
| Ingest.BlobContainsFields | backend/app/ingest/ingest.py:55-57 | the blob is lower-case and contains the lower-cased title, company, location and snippet |
| Ingest.AnyMatch | backend/app/ingest/ingest.py:59-61 | `excluded` holds iff some pattern matches the blob |
| Ingest.AnyContained | backend/app/ingest/ingest.py:63-65 | `must_have_any` holds iff some keyword is a substring of the blob |
| Ingest.ProfileKeywords | backend/app/ingest/ingest.py:67-74 | the java, devops and dotnet lists for those profiles; `[]` for any other |
| Ingest.QueryFilteredKeeps | backend/app/ingest/ingest.py:159-162 | a blank query keeps the batch; otherwise exactly the jobs whose lower-cased title and snippet hold the query remain |
| Ingest.NewerIrreflexive | backend/app/ingest/ingest.py:86 | no job replaces itself |
| Ingest.NewerStep | backend/app/ingest/ingest.py:86-87 | a replacement is at least as new as everything the replaced job beat |
| Ingest.ScanStepValid | backend/app/ingest/ingest.py:79-90 | one loop iteration keeps the dict consistent: one entry per fingerprint seen, each entry a job of that fingerprint |
| Ingest.ScanStepNewest | backend/app/ingest/ingest.py:84-90 | one iteration keeps each entry the newest of its group, with the first-seen winning ties |
| Ingest.ScanStepOrdered | backend/app/ingest/ingest.py:78-91 | one iteration keeps the dict's keys in first-appearance order |
| Ingest.DedupeScanValid | backend/app/ingest/ingest.py:78-91 | the whole loop keeps the dict consistent |
| Ingest.DedupeScanNewest | backend/app/ingest/ingest.py:78-91 | after the loop, each entry is the newest of its group |
| Ingest.DedupeScanOrdered | backend/app/ingest/ingest.py:78-91 | after the loop, the keys are in first-appearance order |
| Ingest.Deduped | backend/app/ingest/ingest.py:91 | the result is no longer than the batch |
| Ingest.DedupeByFp | backend/app/ingest/ingest.py:76-91 | the dict-updating loop returns `Deduped` |
| Ingest.DedupeScanSnoc | backend/app/ingest/ingest.py:80-89 | one more record of the batch is one more step of the scan |
| Ingest.DedupedFromBest | backend/app/ingest/ingest.py:91 | reading `best` in key order after the loop gives the deduplicated records |
| Ingest.DedupedDistinct | backend/app/ingest/ingest.py:76-91 | fingerprints are pairwise distinct and every kept job is a job of the batch |
| Ingest.DedupedCovers | backend/app/ingest/ingest.py:76-91 | every fingerprint of the batch is kept |
| Ingest.DedupedKeepsNewest | backend/app/ingest/ingest.py:84-90 | no job of the group is newer than the kept one, and every earlier job of the group is strictly older |
| Ingest.DedupedKeepsLatestDate | backend/app/ingest/ingest.py:84-90 | when some job of the group has a date, the kept one has the group's greatest date |
| Ingest.DedupedUndatedKeepsFirst | backend/app/ingest/ingest.py:81-90 | when no job of the group has a date, the first-seen is kept |
| Ingest.DedupedFirstAppearanceOrder | backend/app/ingest/ingest.py:78-91 | output order is the order of each fingerprint's first appearance |
| Ingest.FilterBatch | backend/app/ingest/ingest.py:159-175 | the filter sequence of `main`: the query filter, dedupe, the three hard filters, then the profile filter |
| Ingest.FilterBatchSound | backend/app/ingest/ingest.py:159-175 | each job left is in the batch, passes the query, no exclusion pattern matches, and it holds a profile keyword when the profile has some |
| Ingest.FilterBatchDistinct | backend/app/ingest/ingest.py:159-175 | no two jobs left share a fingerprint |
| Ingest.FilterBatchUnknownProfile | backend/app/ingest/ingest.py:172-175 | a profile without keywords applies no profile filter |
| IngestStore.FirstMatch | backend/app/ingest/ingest.py:96 | `first()` finds the earliest row with that fingerprint, or none exists |
| IngestStore.UpsertUpdates | backend/app/ingest/ingest.py:96-113 | an existing row gets the listed fields overwritten; its id, fingerprint and `created_at` are untouched, and every other row is unchanged |
| IngestStore.UpsertInserts | backend/app/ingest/ingest.py:115-132 | otherwise exactly one row is appended, with the fingerprint, `url = apply_url` and `description = snippet` |
| IngestStore.UpsertBounds | backend/app/ingest/ingest.py:93-134 | the row count grows by at most one and ids stay distinct |
| IngestStore.ValidAfterUpdate | backend/app/ingest/ingest.py:96-113 | updating a row in place, which keeps its id, leaves ids distinct and below the next id |
| IngestStore.ValidAfterAppend | backend/app/ingest/ingest.py:115-132 | inserting a row with the next id, then advancing the next id, leaves ids distinct and below the next id |
| IngestStore.OverwrittenIdempotent | backend/app/ingest/ingest.py:98-112 | overwriting twice is overwriting once |
| IngestStore.UpsertReflects | backend/app/ingest/ingest.py:93-134 | after an upsert, the row `first()` finds holds the job's fields |
| IngestStore.UpsertReflected | backend/app/ingest/ingest.py:93-113 | upserting a job the store already reflects changes nothing |
| IngestStore.UpsertIdempotent | backend/app/ingest/ingest.py:93-134 | repeating the same upsert leaves the store unchanged, whatever the second clock reading |
| IngestStore.FirstMatchAfterUpdate | backend/app/ingest/ingest.py:96-113 | an update does not move the fingerprint's first row |
| IngestStore.FirstMatchAfterAppend | backend/app/ingest/ingest.py:115-132 | an insert makes the new row the fingerprint's first row |
| IngestStore.UpsertKeepsReflects | backend/app/ingest/ingest.py:93-134 | upserting a job with another fingerprint keeps the store reflecting the first job |
| IngestStore.UpsertedAllReflects | backend/app/ingest/ingest.py:177-180 | after storing a batch with distinct fingerprints, the store reflects every job of it |
| IngestStore.UpsertedAllKeepsReflects | backend/app/ingest/ingest.py:177-180 | a batch without the fingerprint keeps a reflected job reflected |
| IngestStore.UpsertedAllReflected | backend/app/ingest/ingest.py:177-180 | storing a batch the store already reflects changes nothing |
| IngestStore.UpsertedAllIdempotent | backend/app/ingest/ingest.py:177-180 | storing the same deduplicated batch twice is storing it once |
| IngestStore.IngestBatchIdempotent | backend/app/ingest/ingest.py:159-180 | running the filtering and storing steps of `main` twice changes nothing the second time |
| IngestStore.JobStore.constructor | backend/app/ingest/ingest.py:177 | an empty, valid store |
| IngestStore.JobStore.FindByFingerprint | backend/app/ingest/ingest.py:96 | the query loop returns the first row with the fingerprint |
| IngestStore.JobStore.Upsert | backend/app/ingest/ingest.py:93-134 | the in-place upsert leaves the store equal to `Upserted` of the old store, and keeps it valid |
| IngestStore.JobStore.UpsertAll | backend/app/ingest/ingest.py:177-180 | the batch loop leaves the store equal to `UpsertedAll` of the old store |
| Sources.AdzunaPages | jobboard/backend/app/ingest/sources.py:20 | the pages are `1..pages`; none for `pages <= 0` |
| Sources.AdzunaRequestOf | jobboard/backend/app/ingest/sources.py:21-31 | the request carries the page, credentials and `what`, and sends `where` iff it is truthy |
| Sources.AdzunaRecord | jobboard/backend/app/ingest/sources.py:37-77 | source `adzuna`; the cleaned title, company and location, each replaced by its default (`Unknown`, `Unknown`, `US`) when it cleans to empty; remote iff `remote` occurs in the lower-cased cleaned title, location or description; the id and date carried over; the cleaned first link as `apply_url` with its origin domain; the snippet the first 300 characters of the cleaned description; contract iff `contract` occurs in the lower-cased `contract_time`; the cleaned category as the only tag when truthy, else no tag |
| Sources.FetchAdzuna | jobboard/backend/app/ingest/sources.py:13-78 | the page loop returns the credential error, the first HTTP error, or the pages' records in order |
| Sources.AdzunaMissingCredentials | jobboard/backend/app/ingest/sources.py:14-17 | a missing or empty credential fails the run |
| Sources.AdzunaNoPages | jobboard/backend/app/ingest/sources.py:20 | with `pages <= 0` no request is made and nothing is returned |
| Sources.AdzunaFetchedSound | jobboard/backend/app/ingest/sources.py:13-78 | every record comes from a page `1..pages` of a run with both credentials |
| Sources.AdzunaPageInOrder | jobboard/backend/app/ingest/sources.py:36-77 | a page's records are its results converted in order |
| Sources.AdzunaBlankCategory | jobboard/backend/app/ingest/sources.py:60-62 | a category of only spaces is truthy, so its cleaned form, the empty tag, is kept |
| Sources.RemoteOkRecord | jobboard/backend/app/ingest/sources.py:91-125 | source `remoteok`, remote; the cleaned position and company, each `Unknown` when it cleans to empty; the id and date carried over; `apply_url` the cleaned `apply_url` when truthy, else the cleaned listing URL; the cleaned location or `Remote`; the non-empty cleaned tags; contract iff a tag is `contract` or `freelance` ignoring case; the origin domain of `apply_url`; the snippet the first 300 characters of the cleaned description |
| Sources.RemoteOkKept | jobboard/backend/app/ingest/sources.py:88-89 | an entry is converted iff it is an object with a `position` key |
| Sources.FetchRemoteOk | jobboard/backend/app/ingest/sources.py:80-126 | the loop returns the HTTP error or the converted objects in order |
| Sources.RemoteOkFetchedSound | jobboard/backend/app/ingest/sources.py:87-125 | every record converts an object with a `position` key |
| Sources.RemoteOkFetchedComplete | jobboard/backend/app/ingest/sources.py:87-125 | every such object is converted |
| Sources.RemoteOkDefaultLocation | jobboard/backend/app/ingest/sources.py:93 | a missing or empty location becomes `Remote` |
| Sources.RemoteOkContractTag | jobboard/backend/app/ingest/sources.py:94-110 | a tag that cleans to `contract` or `freelance` in any letter case makes the job a contract |
| Sources.CleanedTagsMember | jobboard/backend/app/ingest/sources.py:94 | every tag with a non-empty cleaned form is kept |
| Sources.TagLength | jobboard/backend/app/ingest/sources.py:138 | a `<[^>]+>` match spans from `<` to the first `>`, with at least one character between |
| Sources.StripTags | jobboard/backend/app/ingest/sources.py:138 | replacing each tag by a space never lengthens the text |
| Sources.StripTagsPlain | jobboard/backend/app/ingest/sources.py:138 | text without `<` is unchanged |
| Sources.StripTagsKeepsOutClose | jobboard/backend/app/ingest/sources.py:138 | no `>` is introduced |
| Sources.StripTagsIdempotent | jobboard/backend/app/ingest/sources.py:138 | stripping tags twice is stripping them once |
| Sources.StripTagsLeadingTag | jobboard/backend/app/ingest/sources.py:138 | a tag at the front becomes one space |
| Sources.StripTagsPlainThen | jobboard/backend/app/ingest/sources.py:138 | text without `<` is kept in front of what follows |
| Sources.StripTagsTrailingTag | jobboard/backend/app/ingest/sources.py:138 | plain text followed by a closing tag keeps the text, the tag becoming one space |
| Sources.StripTagsElement | jobboard/backend/app/ingest/sources.py:138 | an element such as `<p>text</p>` around text without `<` becomes the text between two spaces |
| Sources.SplitTitle | jobboard/backend/app/ingest/sources.py:142-148 | a title without `:` gives company `Unknown` and the title unchanged; otherwise it is split at the first `:`, the company being the cleaned text before it (so it holds no `:`) and the title the cleaned text after it |
| Sources.SplitTitleRoundTrip | jobboard/backend/app/ingest/sources.py:143-148 | `"Company: Role"` splits back into the company and the role |
| Sources.CleanWsLeadingSpace | jobboard/backend/app/ingest/sources.py:148 | cleaning the right part drops the space after the colon |
| Sources.WwrRecord | jobboard/backend/app/ingest/sources.py:133-171 | source `wwr`, location `Remote`, remote, not contract, no tags; company and title are the two parts of `SplitTitle` of the cleaned title, each `Unknown` when empty; the date carried over; the cleaned link as `apply_url` with its origin domain; `source_job_id` `None` iff the cleaned id-or-link is empty; the snippet the first 300 characters of the cleaned summary after every `<…>` tag is replaced by a space |
| Sources.FetchWwrRss | jobboard/backend/app/ingest/sources.py:128-172 | the entry loop returns the converted entries |
| Sources.WwrFetchedInOrder | jobboard/backend/app/ingest/sources.py:133-171 | one record per entry, in order |
| Sources.WwrRecordSplitsTitle | jobboard/backend/app/ingest/sources.py:143-162 | an entry titled `"Company: Role"` gets that company and role |
| Sources.ColonJoinNormal | jobboard/backend/app/ingest/sources.py:134 | a clean company and role joined by `": "` are already clean |
| Serving.CleanEntry | backend/app/main.py:60-65 | an entry is kept iff it is not `None` and not blank, and then stripped |
| Serving.TagsToStr | backend/app/main.py:56-66 | the loop returns `None` for a missing, empty or all-blank list, else the comma-join of the stripped non-blank entries in order; the same code is at jobboard/backend/app/main.py:45-55 |
| Serving.StrToTags | backend/app/main.py:69-72 | `None` iff the column is missing or empty; every element is stripped and non-empty; the same code is at jobboard/backend/app/main.py:57-60 |
| Serving.CleanedEntriesStripped | backend/app/main.py:59-66 | every stored entry is stripped and non-empty |
| Serving.ReadBack | backend/app/main.py:69-72 | stripped non-empty comma-free parts, joined by commas, read back as the same parts |
| Serving.TagsRoundTrip | backend/app/main.py:56-72 | for comma-free entries, reading back what `tags_to_str` stores gives the stripped non-blank entries, or `None` when there are none; the same code is at jobboard/backend/app/main.py:45-60 |
| Serving.IngestedTagsReadBack | backend/app/main.py:69-72 | for comma-free tags, reading back `tags_to_db` gives exactly the cleaned tags, or `None` when none survived |
| Serving.CleanedTagTrimmed | backend/app/ingest/normalize.py:32-33 | every tag `tags_to_db` keeps is trimmed |
| JobTable.Or | backend/app/main.py:128-147 | SQL `OR`: TRUE iff one side is TRUE, FALSE iff both are FALSE |
| JobTable.Not | backend/app/main.py:147 | SQL `NOT`: TRUE iff FALSE, FALSE iff TRUE, UNKNOWN stays UNKNOWN |
| JobTable.AnyOfTrue | backend/app/main.py:128-147 | `or_(*conds)` is TRUE iff some condition is TRUE |
| JobTable.AnyOfFalse | backend/app/main.py:128-147 | `or_(*conds)` is FALSE iff every condition is FALSE |
| JobTable.ILike | backend/app/main.py:132-136 | `col ILIKE '%x%'` is UNKNOWN iff the column is NULL, TRUE iff it holds `x` ignoring case |
| JobTable.QueryHitIff | jobboard/backend/app/main.py:137-150 | a row matches the query iff one of its seven non-NULL searched columns holds the lower-cased query, ignoring case |
| Api.ExcludePatterns | backend/app/main.py:116-127 | no patterns iff all three flags are off; a text is a pattern iff it is a pattern of an enabled flag |
| Api.PatternHit | backend/app/main.py:140-144 | the `or_` of the three `ILIKE` tests is TRUE iff the title, or a non-NULL description or tags, holds the pattern ignoring case, and FALSE iff description and tags are non-NULL and none of the three holds it |
| Api.ExcludeOff | backend/app/main.py:116-127 | with all flags off the query is unchanged |
| Api.NotAnyHitIff | backend/app/main.py:128-149 | for a row with non-NULL description and tags, `NOT or_(...)` is TRUE iff no pattern occurs in title, description or tags |
| Api.ExcludeNonNull | backend/app/main.py:116-149 | for such a row, it survives iff no enabled pattern is a case-insensitive substring of title, description or tags |
| Api.NullNeverMisses | backend/app/main.py:128-149 | with a NULL description or tags, the negated condition is never TRUE |
| Api.ExcludeNeedsColumns | backend/app/main.py:116-149 | with any flag on, every surviving row has non-NULL description and tags |
| Api.RoleKeywords | backend/app/main.py:153-169 | keywords exist exactly for `devops`, `java` and `dotnet`, and are non-empty |
| Api.RoleExcludes | backend/app/main.py:172-176 | every known role has exclusions |
| Api.RoleUnknown | backend/app/main.py:179-189 | no role, or an unknown role after lower-casing and stripping, leaves the query unchanged |
| Api.RoleNonNull | backend/app/main.py:191-217 | for a known role and non-NULL columns, a row survives iff some role keyword and no exclusion keyword occurs in title, description or tags |
| Api.IncludeExcludeIff | backend/app/main.py:191-217 | the include-then-exclude condition, stated over the keyword lists |
| Api.RoleNeedsColumns | backend/app/main.py:191-217 | for a known role, every surviving row has non-NULL description and tags |
| Api.CommonNone | backend/app/main.py:222-264 | without any parameter the common filters change nothing |
| Api.ListJobs | backend/app/main.py:298-336 | a row is listed iff it passes the common filters, the exclusions and the role filter |
| Api.DefaultListingNeedsColumns | backend/app/main.py:311-313 | with the default flags, no row with a NULL description or tags is listed |
| Api.DashboardRole | backend/app/main.py:466-470 | without a role, the profile's name is used when the profile exists |
| BoardApi.BoardListJobs | jobboard/backend/app/main.py:128-160 | a row is listed iff the non-empty query occurs in one of its non-NULL searched columns and the given `remote` and `contract` flags equal its own |
| BoardApi.BoardListAll | jobboard/backend/app/main.py:135-156 | without parameters every job is listed |
| BoardApi.BoardTitleHit | jobboard/backend/app/main.py:137-150 | a job whose title holds the query is listed whatever its NULL columns |
| BoardApi.BoardIsBackendCommon | jobboard/backend/app/main.py:137-156 | the jobboard filter equals the backend's common filters restricted to `q`, `remote` and `contract` |
| Applications.FollowupDefault | backend/app/main.py:359-363 | an explicit follow-up is kept; an applied application with an applied date and no follow-up is followed up 7 days later; the same code is at jobboard/backend/app/main.py:181-186 |
| Applications.CreatedSettled | backend/app/main.py:359-377 | a new application keeps status and applied date, never lacks its default follow-up, and keeps an explicit one |
| Applications.UpdatedSettled | backend/app/main.py:419-420 | after any update no applied application with an applied date lacks a follow-up |
| Applications.UpdatedKeepsUnset | jobboard/backend/app/main.py:231-240 | fields absent from the payload keep their values |
| Applications.UpdatedNeverClears | jobboard/backend/app/main.py:231-240 | a partial update cannot clear a field |
| Applications.UpdatedIdempotent | jobboard/backend/app/main.py:231-244 | sending the same update twice is sending it once |
| Applications.EmptyUpdate | backend/app/main.py:408-420 | an empty update leaves a settled application as it is |
| Applications.Application.constructor | backend/app/main.py:359-372 | the new row holds `Created(payload)` |
| Applications.Application.Update | jobboard/backend/app/main.py:231-244 | the in-place update leaves the row equal to `Updated(old, payload)`; the same code is at backend/app/main.py:408-420 |
| Applications.CreateCheck | backend/app/main.py:344-357 | creation proceeds iff the job and the profile exist and the pair is not yet tracked; a missing job is the 404 `Job not found`, then a missing profile the 404 `Profile not found`, then a tracked pair the 409 `Already tracked for this profile`; the same code is at jobboard/backend/app/main.py:164-178 |
| Applications.CreateKeepsPairsUnique | backend/app/main.py:352-357 | creating only what passes the checks keeps one application per job and profile |
| Applications.UpdateApplication | backend/app/main.py:403-424 | an unknown id is a 404; otherwise the found row is updated in place; the same code is at jobboard/backend/app/main.py:226-248 |
| Applications.StatusName | jobboard/backend/app/schemas.py:33 | the stored name is one of the five `ApplicationStatus` literals |
| Applications.ListApplications | backend/app/main.py:381-399 | an application is listed iff each truthy filter holds: the status name, the profile id, and a follow-up that is set and due; the same code is at jobboard/backend/app/main.py:204-222 |
| Applications.ListApplicationsUnfiltered | backend/app/main.py:389-397 | falsy parameters (an empty status, profile id 0) filter nothing |
| Applications.UnknownStatusListsNothing | backend/app/main.py:389-390 | a non-empty status that names no status lists nothing |
| Applications.CreatedAppliedDue | backend/app/main.py:362-397 | an application created as applied with only an applied date is due from seven days after applying |

## Left out

- HTTP requests, `raise_for_status`, JSON decoding, BeautifulSoup selection and `feedparser`: answers are parameters (decoded item lists, `None` for an error status) and HTML parsing is abstracted to anchors with optional fields.
- Timestamp parsing (`fromisoformat`, `dateutil`, `fromtimestamp`) and `datetime.now`: dates are supplied integers, `None` when parsing failed.
- SHA-1: the fingerprint hash is a function parameter; properties are about its pre-image.
- The `\b` regular expressions of the ingestion exclusion lists: `excluded` takes the search predicate as a parameter.
- `urljoin` is modelled only for an href that is an absolute path, which is the only kind the WWR adapter joins; dot segments are not resolved.
- Letter case: `lower()` is modelled for ASCII letters only; `str.strip` and `\s` use Python's white-space set.
- JobTable.ILike: `%`, `_` and `\` inside the user's text are treated as plain characters, while PostgreSQL would read them as wildcards.
- FetchArbeitnow.FetchArbeitnow: the answers are a finite sequence; when it runs out while the last page still has a truthy `next` link, the run ends there as if the link were absent, so an endless chain of links is not modelled.
- Urls.Netloc: only the unbalanced-bracket ValueError of `urlsplit` is modelled. Its two other ValueErrors are not: a bracketed host that is neither an IPv6 address nor an IPvFuture literal (`_check_bracketed_host`), and a non-ASCII authority whose NFKC form holds one of `/?#@:` (`_checknetloc`, which needs Unicode normalisation). On those URLs `origin_domain` returns `None` in the source and a domain in the model.
- Sources.RemoteOkRecord: tags are strings; a non-string tag, on which `clean_ws` would raise, is not modelled.
- jobboard/backend/app/ingest/normalize.py is not part of this model; `sources.py` is modelled against the backend `normalize.py`.
- The ordering `order_by(created_at desc)` of `list_jobs`, `list_applications` and the dashboards: the model keeps the table's order and states membership.
- SQLAlchemy sessions, commits and `server_default`, FastAPI routing and templates, `health`, `create_job`, `bootstrap_profiles`, `job_to_out`, `dashboard_job` and the dashboard response dictionaries: plumbing with no rule to state.
- The CLI parsing of `ingest.main` and its final message; the `store_true` flags default to on, so the model always applies the hard filters.
- Applications.CreateKeepsPairsUnique: uniqueness of (job, profile) holds for requests handled one after another. The table declares no unique constraint on the pair (jobboard/backend/app/models.py:62-80), so two concurrent requests can both pass the check and both insert.
- Applications.CreateCheck: the Pydantic validation of the payload (unknown status literals, malformed dates) happens before the endpoint and is not modelled.
