# Website analyzer: a verified model of its sequential core

The website analyzer scrapes one page into a `Website` snapshot. It then hands
summaries of that page to a text-generation service for SEO, audit, content, social,
lead, e-mail and brochure analyses. A FastAPI layer in `main.py` normalises urls,
caches SEO results and runs complete analyses as background jobs. This project models
the sequential logic under that glue and proves what it promises.

- `text.dfy`: the Python string operations the code relies on, written out:
  - `strip`, `replace`, `split(c)[0]`, `startswith`, `in` and slicing, in module `Text`;
  - `str(n)` for job ids;
  - `Option` for `None`, in module `Optional`.
- `dict.dfy`:
  - module `OrderedDict` models a Python dict as its entries in insertion order: `d[k] = v`, `d.get(k)`, `d.keys()`;
  - module `Json` holds the payload values.
- `snapshot.dfy`, module `Snapshot`: the `Website` class.
  - `Scrape` is the pure specification of the fields after construction.
  - The class `Website` has the constructor and `get_contents`, proved against `Scrape` and `Contents`.
  - The link and image loops are methods proved equal to a filter-map over the tags. Lemmas show that filter-map keeps an ordered subsequence.
- `analyzer.dfy`, module `Analyzer`:
  - the analyses and their invalid-page guards;
  - the fallback report;
  - the company-name derivation;
  - the internal/external link partition;
  - `analyze_website_complete`, as a method with a loop proved against `CollectAll`.
- `api.dfy`, module `Api`:
  - `validate_url`, brochure naming and competitor normalisation;
  - job ids, the job state machine, and the `Server` class whose `cache` and `jobs` fields are the two module-level dicts of `main.py`.

Things outside the program are inputs:
- What a fetch gave is a `Fetch`. It is a request error, another exception before a response, or a parsed `Document`, possibly with an exception at one extraction `Stage`.
- `urlparse(u).netloc` and `urljoin` form an `Env`. `urljoin` gives `None` where it raises.
- `str.title()`, the text service (`Prompt -> Json`) and the exceptions that escape an analysis are fields of a `World`.
- Clock readings are parameters.

Two names differ between the files:
- `run_complete_analysis` (main.py:373-382) uses the kind `contact` where `analyze_website_complete` (website_analyzer.py:511-519) uses `leads`.
- So a job submitted for `leads` fails (`Api.LeadsIsNotAServiceKind`).

## Model

| member | source | states |
|---|---|---|
| Text.Strip | website_analyzer.py:70 | `s.strip()` is the slice of `s` between its leading and trailing white space; what is removed is white space, and the result neither starts nor ends with white space |
| Text.StripIdempotent | website_analyzer.py:70 | stripping a stripped title changes nothing |
| Text.ReplaceAll | website_analyzer.py:556 | `s.replace(pat, rep)`: one left-to-right pass replacing non-overlapping occurrences; its partner is `ReplaceAllNoOccurrence` |
| Text.ReplaceAllNoOccurrence | website_analyzer.py:556 | a string in which the pattern does not occur is returned unchanged |
| Text.BeforeFirst | website_analyzer.py:556 | `split(c)[0]` is a prefix of `s` without `c`, followed in `s` by `c` unless it is all of `s` |
| Text.NatToStringInjective | main.py:319 | different millisecond readings are written as different digit strings |
| OrderedDict.Get | main.py:133-136 | `d.get(k)` finds a value exactly when `k` is a key, and the value is stored under `k` |
| OrderedDict.Put | website_analyzer.py:528 | `d[k] = v`: replaces the value in place when `k` is a key, appends the entry otherwise; its partners are `PutGet` and `PutKeys` |
| OrderedDict.PutGet | website_analyzer.py:528 | after `d[k] = v`, `k` maps to `v` and every other key keeps its value |
| OrderedDict.PutKeys | website_analyzer.py:528 | `d[k] = v` keeps the key order when `k` is present and appends `k` otherwise |
| OrderedDict.PutDistinct | main.py:322 | assignment keeps keys distinct |
| OrderedDict.DistinctKeysCount | main.py:438 | `len(d)` is the number of distinct keys |
| Snapshot.FindMeta | website_analyzer.py:80 | `soup.find('meta', attrs={k: v})` gives a tag of the page that matches, or None when no tag matches |
| Snapshot.FindMetaFirst | website_analyzer.py:80 | the tag found is the first one that matches |
| Snapshot.ResolveTitle | website_analyzer.py:68-77 | title order: the stripped `<title>` string, or "No title found" when the element has no non-empty string; otherwise the first `<h1>` text; otherwise "Website: {domain}" |
| Snapshot.ResolveMetaDescription | website_analyzer.py:79-82 | a non-empty description is the content of a `name="description"` or `property="og:description"` tag of the page; with no such tag it is empty |
| Snapshot.MetaNameFirst | website_analyzer.py:80-82 | when some tag has `name="description"`, the first such tag decides, wherever `og:description` tags stand: its content, or "" when it has none, even if an `og:description` tag has content |
| Snapshot.MetaOgFallback | website_analyzer.py:80-82 | with no `name="description"` tag, the first `og:description` tag decides: its content, or "" when it has none |
| Snapshot.ResolveKeywords | website_analyzer.py:85-86 | non-empty keywords are the content of a `name="keywords"` tag; with no such tag they are empty |
| Snapshot.KeywordsFirst | website_analyzer.py:85-86 | the first `name="keywords"` tag decides: its content, or "" when it has none |
| Snapshot.FilterMapIsOrderedSubsequence | website_analyzer.py:98-111 | the kept results come from strictly increasing positions, each the image of its source, and no kept source is missed |
| Snapshot.LinksFollowAnchors | website_analyzer.py:98-111 | the links come from anchors in document order, each with a non-empty href not starting with '#', with url `urljoin(url, href)`; every such anchor whose join succeeds gives a link |
| Snapshot.LinkMember | website_analyzer.py:98-111 | a link is in the list exactly when some candidate anchor resolves to it |
| Snapshot.ImagesFollowImgs | website_analyzer.py:114-128 | the images come from imgs with a non-empty src, in order, resolved with `urljoin`, none missed |
| Snapshot.CollectLinks | website_analyzer.py:98-111 | the link loop appends exactly the filter-mapped anchors |
| Snapshot.CollectImages | website_analyzer.py:114-128 | the image loop appends exactly the filter-mapped imgs |
| Snapshot.Scrape | website_analyzer.py:37-38 | url and domain are set before anything can fail, whatever the fetch gives |
| Snapshot.RequestErrorDegrades | website_analyzer.py:132-136 | a request error records "Error scraping …", sets the title to "Error accessing {domain}", and leaves text, links, images and status code at their defaults; the snapshot is invalid |
| Snapshot.FaultKeepsEarlierFields | website_analyzer.py:78-142 | another exception during extraction records "Unexpected error scraping {url}: {reason}", sets "Error processing {domain}", keeps the status code and the meta description, keywords, text and links assigned by the steps before it, leaves the later ones at their defaults, and makes the snapshot invalid |
| Snapshot.ValidIffFetchedAndLong | website_analyzer.py:160-162 | `is_valid()` holds exactly when a response came, extraction finished and the text is longer than 100 characters |
| Snapshot.ErrorNeverEmpty | website_analyzer.py:130-142 | a recorded error message is never empty |
| Snapshot.Contents | website_analyzer.py:144-158 | `get_contents()` as a function of the snapshot; its properties are the `Contents…` lemmas below |
| Snapshot.ContentsStartsWithTitle | website_analyzer.py:144-146 | the summary starts with "Webpage Title: {title}" |
| Snapshot.ContentsMetaLine | website_analyzer.py:148-149 | the meta description line follows the title line exactly when the description is non-empty |
| Snapshot.ContentsEndsWithDomain | website_analyzer.py:151-154 | with an error set, the summary ends with "Company appears to be: {domain}" |
| Snapshot.ContentsEndsWithText | website_analyzer.py:155-156 | without an error, the summary ends with "Webpage Contents:" and the first 3000 characters of text followed by "..." |
| Snapshot.ContentsIgnoresTextOnError | website_analyzer.py:151-154 | with an error set, the summary does not depend on the page text |
| Snapshot.ContentsBounded | website_analyzer.py:155-156 | without an error, the summary's length is bounded independently of the text's length |
| Snapshot.ContentsSeesOnlyPrefix | website_analyzer.py:155-156 | only the first 3000 characters of text reach the summary |
| Snapshot.Website.constructor | website_analyzer.py:35-142 | the fields after construction are `Scrape(url, fetch, env)` |
| Snapshot.Website.GetContents | website_analyzer.py:144-158 | the string built by `+=` is `Contents` of the snapshot |
| Analyzer.FallbackAnalysis | website_analyzer.py:198-239 | `create_fallback_analysis(url, domain)`: the header for the domain, the status section naming the url, and the basic-information block; its partner is `FallbackNamesSite` |
| Analyzer.FallbackNamesSite | website_analyzer.py:198-239 | the fallback report mentions both the domain and the url |
| Analyzer.Site | website_analyzer.py:35-38 | `Website(url)` sets url and domain (`urlparse(url).netloc`) whatever the fetch gives |
| Analyzer.AnalyzeSeo | website_analyzer.py:285-291 | `analyze_seo(url)` gives, for a page that is not valid, the fallback report for the url's netloc followed by the SEO advice |
| Analyzer.ComprehensiveAudit | website_analyzer.py:386-392 | `comprehensive_audit(url)` gives, for a page that is not valid, the fallback report for the url's netloc followed by the audit advice |
| Analyzer.GuardSkipsService | website_analyzer.py:290-291 | for an invalid page, seo and audit answer without consulting the service |
| Analyzer.GuardFallback | website_analyzer.py:391-392 | for an invalid page, seo and audit answer with the fallback report plus the advice of their kind |
| Analyzer.GuardNamesSite | website_analyzer.py:290-291 | that answer mentions the domain and the url |
| Analyzer.GuardPassesValid | website_analyzer.py:293-316 | for a valid page, the answer is the service's answer to a prompt of that kind built from that page |
| Analyzer.GetLinks | website_analyzer.py:560-564 | `get_links(url)` gives, for a page that is not valid, a dict whose only key is "error" |
| Analyzer.GetLinksGuard | website_analyzer.py:563-564 | for an invalid page, `get_links` gives only an "error" entry, "Could not access website: {error}", with "None" when no error was recorded, whatever the service would say |
| Analyzer.InternalCount | website_analyzer.py:424 | the number of links whose url contains the domain as a substring; its partner is `LinkPartition` |
| Analyzer.ExternalCount | website_analyzer.py:425 | the number of links whose url does not contain the domain; its partner is `LinkPartition` |
| Analyzer.LinkPartition | website_analyzer.py:424-425 | internal and external link counts add up to the number of links |
| Analyzer.GenerateContentIdeas | website_analyzer.py:318-349 | `generate_content_ideas(url, content_type)`: the service's answer to a "content" prompt built from the page and the content type |
| Analyzer.SocialMediaStrategy | website_analyzer.py:436-470 | `generate_social_media_strategy(url, platforms)`: the service's answer to a "social" prompt built from the page and the platforms; the default platforms are LinkedIn, Twitter and Instagram |
| Analyzer.ExtractContactInfo | website_analyzer.py:352-383 | `extract_contact_info(url)`: the service's answer to a "leads" prompt built from the page |
| Analyzer.EmailCampaigns | website_analyzer.py:473-502 | `generate_email_campaigns(url, campaign_type)`: the service's answer to an "email" prompt built from the page and the campaign type |
| Analyzer.CreateBrochure | website_analyzer.py:584-605 | `create_brochure(company_name, url, humorous)`: the service's answer to a "brochure" prompt built from the page, the company name and the humour flag |
| Analyzer.CompanySegment | website_analyzer.py:556 | the segment is the prefix of the domain with every "www." removed up to (not including) its first dot: it has no dot, and it is followed by a dot unless it is the whole stripped domain |
| Analyzer.WwwIrrelevant | website_analyzer.py:556 | a leading "www." does not change the company name |
| Analyzer.SegmentIsFirstLabel | website_analyzer.py:556 | the segment is the domain's first dot-separated label whenever that label does not end in "www" |
| Analyzer.WwwInsideLabel | website_analyzer.py:556 | when the first label ends in "www", that "www" and the dot are removed together: "awww.x" gives "ax" |
| Analyzer.CompanyName | website_analyzer.py:556 | `.title()` of `CompanySegment` |
| Analyzer.CreateBrochureFromUrl | website_analyzer.py:552-557 | the brochure is made for the company name taken from the url's netloc, not humorous |
| Analyzer.Analysis | website_analyzer.py:511-519 | the analysis each kind of the table calls, with its default arguments |
| Analyzer.AnalyzerTable | website_analyzer.py:511-519 | calling a table entry either raises the world's exception for that kind and url or returns `Analysis` |
| Analyzer.CollectAll | website_analyzer.py:521-534 | the `results` dict of the "all" loop, built by assigning each kind's collected value in table order; its partners are `CollectAllEntries`, `CollectAllIsolates` and `AllModeResults` |
| Analyzer.CollectAllEntries | website_analyzer.py:524-534 | the "all" loop stores one entry per kind, in table order, holding the kind's value or "Error in {kind} analysis: {message}" |
| Analyzer.CollectAllIsolates | website_analyzer.py:524-534 | one kind raising or not changes no other kind's entry and no key: later kinds still run |
| Analyzer.AllModeResults | website_analyzer.py:511-534 | in "all" mode the keys are exactly seo, audit, content, social, leads, email, brochure, in that order |
| Analyzer.GetDistinct | website_analyzer.py:528 | in a dict, looking up an entry's key finds that entry |
| Analyzer.AnalyzeWebsiteComplete | website_analyzer.py:505-550 | "all" runs every kind in order and gives `CollectAll`; a known single kind runs only that kind and gives a one-entry dict; an unknown kind runs nothing and gives only the "error" entry listing the kinds |
| Api.ValidateUrl | main.py:91-95 | the result has an http or https scheme, ends with the input, and equals it exactly when the input already had a scheme |
| Api.ValidateUrlIdempotent | main.py:91-95 | normalising twice is normalising once |
| Api.BareHostIsHttps | main.py:91-95 | "example.com" and "https://example.com" normalise to the same url |
| Api.NormalizeCompetitors | main.py:163 | each competitor url is normalised, with a scheme, in order |
| Api.BrochureCompanyName | main.py:288-294 | the requested company name when it is given and not empty, else `.title()` of the segment of the url's netloc; its partner is `BrochureNameAgrees` |
| Api.CreateWebsiteBrochure | main.py:283-308 | the brochure response for the normalised url, with the requested company name or, without one, the name taken from the url's netloc; its partner is `BrochureNameAgrees` |
| Api.BrochureNameAgrees | main.py:288-294 | with no company name (or an empty one) the brochure is the analyzer's brochure for the url |
| Api.JobId | main.py:319 | a job id is "job_" followed by the millisecond reading |
| Api.JobIdInjective | main.py:319 | job ids from different milliseconds differ |
| Api.NewJob | main.py:322-329 | a submitted job is running and well formed |
| Api.ServiceAnalysis | main.py:374-382 | the analysis each kind of the job table calls: "contact" for contacts, and the brochure for the fixed name "Company" |
| Api.ServiceTable | main.py:374-385 | calling a job-table entry either raises the world's exception or returns `ServiceAnalysis` |
| Api.RunOutcome | main.py:362-397 | the job after `run_complete_analysis`; its partners are `RunFinishes`, `RunAllResults`, `RunSingleResult` and `RunUnknownKind` |
| Api.RunFinishes | main.py:362-397 | a run leaves a job completed or failed, well formed, with its completion time, and with its url, type and start time unchanged |
| Api.RunAllResults | main.py:367-371 | an "all" run completes at progress 100 with exactly the seven analyzer keys |
| Api.RunSingleResult | main.py:383-390 | a single known kind writes only its own result and completes at 100; if it raises, the job fails with the message and keeps its progress and results |
| Api.RunUnknownKind | main.py:389-397 | a fresh job with a kind outside the table fails at progress 0 with "Invalid analysis type: {kind}" |
| Api.LeadsIsNotAServiceKind | main.py:374-382 | "leads" is an analyzer kind but a job submitted for it fails |
| Api.PutKeepsJobs | main.py:322 | storing a well-formed job keeps the store valid |
| Api.JobCountIsIdCount | main.py:437-441 | `total_jobs` is the number of distinct job ids |
| Api.Server.constructor | main.py:87-88 | both stores start empty |
| Api.Server.AnalyzeWebsiteSeo | main.py:126-156 | a cache hit returns the stored data and runs no analysis; a miss runs the analysis once: when it returns, `{"analysis", "type": "seo", "url"}` is appended under "seo_{url}" and is the response data; when it raises, nothing is cached and the answer is a 500 "SEO analysis failed: {message}"; jobs are untouched |
| Api.Server.CompleteWebsiteAnalysis | main.py:312-341 | a running job is stored under "job_{millis}", replacing any job with that id, and the "started" response names it |
| Api.Server.RunCompleteAnalysis | main.py:362-397 | an existing job becomes `RunOutcome` of it; a missing id changes nothing; the cache is untouched |
| Api.Server.GetJobStatus | main.py:347-360 | the stored job when the id is present, otherwise 404 "Job not found" |
| Api.Server.ListJobs | main.py:435-441 | the job count, the ids in submission order, and the cache size |
| Api.SubmitAndRun | main.py:312-397 | a submitted and run job is found under its id, completed or failed |
| Api.SeoTwice | main.py:132-156 | after a successful request, asking again for the same url runs no analysis and returns the same data from the cache; after a failed one, the second request runs the analysis again and fails the same way |

## Left out

- Network I/O (`requests.get`, headers, timeouts, redirects, `raise_for_status`): the outcome of a fetch is an input. Re-fetching a url always gives the same outcome here, while the real site may change between the analyses of one run.
- The coupling between the text step and the link and image steps is not modelled: the text step decomposes script, style, img, input, nav, footer and header elements inside the body (website_analyzer.py:92-93) before the links and images are collected. The `anchors` and `imgs` of a `Document` are given as they stand after those removals, not derived from them.
- HTML parsing by BeautifulSoup, including `decompose` and `get_text` flattening: the parsed page is an abstract `Document` whose title, h1, meta, anchor and img lists and flattened texts are given.
- `urljoin` and `urlparse` (section 5.2 of RFC 3986): uninterpreted functions of an `Env`.
- `safe_ai_call` and the Gemini client: a total function from prompts to payloads. Prompt wording and system prompts are not modelled, only the kind, url, snapshot and parameters a prompt is built from. `analyze_competitors` is not modelled beyond the normalisation of its urls.
- Analyzer.FallbackAnalysis (FallbackAdvice): the recommendations and next-steps block of `create_fallback_analysis` is represented by its opening heading only. The header, status and basic-information parts that mention the url and domain are exact.
- `Website.body` (the raw response bytes) is not modelled. The status of an error response is not recorded, as in the source: a failed `raise_for_status` leaves `status_code` at None.
- Snapshot.Website.IsValid: `is_valid()` is the predicate `ValidSnapshot` on the fields. Its truth table is stated by `ValidIffFetchedAndLong`.
- Floating point and datetime objects: payload numbers are integers, and timestamps are strings passed in. The datetime conversion in `get_job_status` has no effect on stored strings.
- `time.sleep`, `print` and logging: side effects without a bearing on results.
- FastAPI routing, pydantic models, CORS, the 404/500 exception handlers, `HTTPException` wrapping of 500 errors, `BackgroundTasks` scheduling, uvicorn and both `__main__` blocks. A background task is a plain sequential call, and concurrency between requests is not modelled.
- Aliasing of the job dict: a job is a value that `RunCompleteAnalysis` replaces in the store. The source mutates the stored dict in place, which is observably the same for a single-threaded run.
- The endpoints other than SEO, brochure naming, complete analysis, job status and job listing are not modelled. They wrap an analysis in a response without state.
- Api.Server.AnalyzeWebsiteSeo: the analysis is passed in as a function of the url giving a return value or an exception message (`analyze_seo` with the world fixed), rather than computed from a `World` inside the method. An exception raised before the constructor's `try`, such as `urlparse` rejecting "https://[abc", is one such message.
- `str.title()` Unicode case rules: a function of the `World`.
