/** The service layer of main.py: url normalisation, the SEO result cache and the
    store of background analysis jobs.

    The two module-level dicts become the fields of a `Server`. Clock readings
    (`datetime.now()` and the millisecond timestamp of a job id) are parameters, and a
    background task is a plain call of `RunCompleteAnalysis`. */
module Api {
  import opened Optional
  import opened Text
  import opened OrderedDict
  import opened Json
  import opened Analyzer

  // ---------------------------------------------------------------------------
  // Urls

  predicate HasScheme(url: string) {
    StartsWith(url, "http://") || StartsWith(url, "https://")
  }

  /** `validate_url(url)`: "https://" is put in front of a url with neither scheme. */
  function ValidateUrl(url: string): (r: string)
    ensures HasScheme(r)
    ensures |url| <= |r| && r[|r| - |url|..] == url
    ensures r == url <==> HasScheme(url)
  {
    if HasScheme(url) then url else "https://" + url
  }

  /** Normalising twice is normalising once. */
  lemma ValidateUrlIdempotent(url: string)
    ensures ValidateUrl(ValidateUrl(url)) == ValidateUrl(url)
  {
  }

  /** A bare host and the same host behind "https://" are the same url. */
  lemma {:induction false} BareHostIsHttps(host: string)
    requires !HasScheme(host)
    ensures ValidateUrl(host) == ValidateUrl("https://" + host)
  {
    var u := "https://" + host;
    assert u[..8] == "https://";
  }

  /** The competitor urls of a comparison request, each normalised. */
  function NormalizeCompetitors(urls: seq<string>): (r: seq<string>)
    ensures |r| == |urls|
    ensures forall i :: 0 <= i < |r| ==> r[i] == ValidateUrl(urls[i]) && HasScheme(r[i])
  {
    if urls == [] then [] else [ValidateUrl(urls[0])] + NormalizeCompetitors(urls[1..])
  }

  // ---------------------------------------------------------------------------
  // Responses

  /** `AnalysisResponse` */
  datatype Response = Response(success: bool, data: Json, message: string, timestamp: string)

  /** What the SEO endpoint answers: a response, or the HTTP error it raises. */
  datatype SeoReply = Served(resp: Response) | ServerError(code: nat, detail: string)

  /** The data cached and returned for an SEO analysis. */
  function SeoEntry(analysis: Json, url: string): Json {
    Obj([("analysis", analysis), ("type", Str("seo")), ("url", Str(url))])
  }

  function SeoKey(url: string): string {
    "seo_" + url
  }

  /** The brochure's company name: the requested one when it is a non-empty string,
      otherwise the name derived from the url's host. */
  function BrochureCompanyName(requested: Option<string>, url: string, w: World): string {
    if requested.Some? && requested.value != "" then requested.value
    else CompanyName(w.env.netloc(url), w.titleCase)
  }

  /** `create_website_brochure(request)` */
  function CreateWebsiteBrochure(requested: Option<string>, url: string, humorous: bool, w: World, now: string): Response {
    var u := ValidateUrl(url);
    var result := CreateBrochure(BrochureCompanyName(requested, u, w), u, humorous, w);
    Response(true, Obj([("analysis", result), ("type", Str("brochure")), ("humorous", Bool(humorous)), ("url", Str(u))]),
             "Company brochure created successfully", now)
  }

  /** Without a company name, the endpoint's brochure is the one the analyzer's
      "brochure" analysis makes for the normalised url. */
  lemma BrochureNameAgrees(url: string, w: World, now: string)
    ensures CreateWebsiteBrochure(None, url, false, w, now).data.members[0].1
      == CreateBrochureFromUrl(ValidateUrl(url), w)
    ensures CreateWebsiteBrochure(Some(""), url, false, w, now) == CreateWebsiteBrochure(None, url, false, w, now)
  {
  }

  // ---------------------------------------------------------------------------
  // Jobs

  /** `f"job_{millis}"` */
  function JobId(millis: nat): (r: string)
    ensures StartsWith(r, "job_") && |r| > 4
  {
    "job_" + NatToString(millis)
  }

  /** Ids from different clock readings differ; two jobs submitted in the same
      millisecond share an id. */
  lemma JobIdInjective(a: nat, b: nat)
    requires JobId(a) == JobId(b)
    ensures a == b
  {
    assert JobId(a)[4..] == NatToString(a);
    assert JobId(b)[4..] == NatToString(b);
    NatToStringInjective(a, b);
  }

  datatype Status = Running | Completed | Failed

  /** One entry of `analysis_jobs`. */
  datatype Job = Job(
    status: Status,
    progress: nat,
    results: Dict<Json>,
    startedAt: string,
    url: string,
    analysisType: string,
    completedAt: Option<string>,
    error: Option<string>
  )

  /** The states a job can be in: progress is 0 or 100; a running job has made no
      progress and has neither a completion time nor an error; a completed job is at
      100; a finished job has its completion time, and a failed one its error. */
  predicate WellFormed(job: Job) {
    && (job.progress == 0 || job.progress == 100)
    && (job.status == Running ==> job.progress == 0 && job.completedAt.None? && job.error.None?)
    && (job.status == Completed ==> job.progress == 100 && job.completedAt.Some?)
    && (job.status == Failed ==> job.completedAt.Some? && job.error.Some?)
  }

  /** A submitted job. */
  function NewJob(url: string, analysisType: string, now: string): (job: Job)
    ensures WellFormed(job) && job.status == Running
  {
    Job(Running, 0, [], now, url, analysisType, None, None)
  }

  /** The single-analysis table of `run_complete_analysis`: "contact" where the
      analyzer says "leads", and the brochure made for the name "Company". */
  const ServiceKinds := ["seo", "audit", "content", "social", "contact", "email", "brochure"]

  function ServiceAnalysis(kind: string, url: string, w: World): Json {
    match kind
    case "seo" => AnalyzeSeo(url, w)
    case "audit" => ComprehensiveAudit(url, w)
    case "content" => GenerateContentIdeas(url, "blog", w)
    case "social" => SocialMediaStrategy(url, DefaultPlatforms, w)
    case "contact" => ExtractContactInfo(url, w)
    case "email" => EmailCampaigns(url, "welcome_series", w)
    case _ => CreateBrochure("Company", url, false, w)
  }

  function ServiceTable(url: string, w: World): string -> Attempt {
    kind =>
      var raised := w.raises(kind, url);
      if raised.Some? then Raised(raised.value) else Returned(ServiceAnalysis(kind, url, w))
  }

  /** What `run_complete_analysis` leaves in a job. */
  function RunOutcome(job: Job, url: string, analysisType: string, w: World, now: string): Job {
    if analysisType == "all" then
      job.(results := CollectAll(Kinds, AnalyzerTable(url, w)), progress := 100,
           status := Completed, completedAt := Some(now))
    else if analysisType in ServiceKinds then
      match ServiceTable(url, w)(analysisType)
      case Returned(v) =>
        job.(results := Put(job.results, analysisType, v), progress := 100,
             status := Completed, completedAt := Some(now))
      case Raised(m) =>
        job.(status := Failed, error := Some(m), completedAt := Some(now))
    else
      job.(status := Failed, error := Some("Invalid analysis type: " + analysisType), completedAt := Some(now))
  }

  /** A run finishes the job: it is completed or failed, with its completion time,
      and it stays well formed. */
  lemma RunFinishes(job: Job, url: string, analysisType: string, w: World, now: string)
    requires WellFormed(job)
    ensures var out := RunOutcome(job, url, analysisType, w, now);
      && WellFormed(out)
      && out.status != Running
      && out.completedAt == Some(now)
      && out.url == job.url && out.startedAt == job.startedAt && out.analysisType == job.analysisType
  {
  }

  /** In "all" mode the results are replaced by the seven analyzer entries. */
  lemma RunAllResults(job: Job, url: string, w: World, now: string)
    ensures var out := RunOutcome(job, url, "all", w, now);
      && out.status == Completed && out.progress == 100
      && Keys(out.results) == Kinds
  {
    AllModeResults(AnalyzerTable(url, w));
  }

  /** A single known kind writes its own result and leaves every other entry alone;
      if its analysis raises, the job fails with the exception's message and its
      progress and results stay as they were. */
  lemma RunSingleResult(job: Job, url: string, kind: string, w: World, now: string, k: string)
    requires kind in ServiceKinds
    ensures var out := RunOutcome(job, url, kind, w, now);
      match ServiceTable(url, w)(kind)
      case Returned(v) =>
        && out.status == Completed && out.progress == 100
        && Get(out.results, k) == (if k == kind then Some(v) else Get(job.results, k))
      case Raised(m) =>
        && out.status == Failed && out.error == Some(m)
        && out.progress == job.progress && out.results == job.results
  {
    match ServiceTable(url, w)(kind)
    case Returned(v) =>
      PutGet(job.results, kind, v, k);
    case Raised(m) =>
  }

  /** A fresh job run with a kind outside the table fails at progress 0, with the
      offending kind in its error and no results. */
  lemma RunUnknownKind(url: string, analysisType: string, w: World, started: string, now: string)
    requires analysisType != "all" && analysisType !in ServiceKinds
    ensures var out := RunOutcome(NewJob(url, analysisType, started), url, analysisType, w, now);
      && out.status == Failed && out.progress == 0 && out.results == []
      && out.error == Some("Invalid analysis type: " + analysisType)
  {
  }

  /** The "leads" kind of the analyzer is not a kind of the service table: a job
      submitted for it fails. */
  lemma LeadsIsNotAServiceKind(url: string, w: World, started: string, now: string)
    ensures "leads" in Kinds
    ensures RunOutcome(NewJob(url, "leads", started), url, "leads", w, now).status == Failed
  {
  }

  /** What `get_job_status` answers. */
  datatype JobLookup = Found(job: Job) | NotFound(code: nat, detail: string)

  /** What `list_jobs` answers. */
  datatype JobList = JobList(totalJobs: nat, jobIds: seq<string>, cacheSize: nat)

  predicate AllWellFormed(jobs: Dict<Job>) {
    forall e :: e in jobs ==> WellFormed(e.1)
  }

  lemma PutKeepsJobs(jobs: Dict<Job>, id: string, job: Job)
    requires Distinct(jobs) && AllWellFormed(jobs) && WellFormed(job)
    ensures Distinct(Put(jobs, id, job)) && AllWellFormed(Put(jobs, id, job))
  {
    PutDistinct(jobs, id, job);
    PutEntries(jobs, id, job);
  }

  class Server {
    var cache: Dict<Json>
    var jobs: Dict<Job>

    /** Both stores are dicts (no key twice) and every job is in a reachable state. */
    ghost predicate Valid()
      reads this
    {
      Distinct(cache) && Distinct(jobs) && AllWellFormed(jobs)
    }

    constructor ()
      ensures Valid() && cache == [] && jobs == []
    {
      cache := [];
      jobs := [];
    }

    /** `analyze_website_seo(request)`: a cached entry is returned as it is; otherwise
        the analysis `seo` (`analyze_seo` with the world fixed, which may raise) runs,
        which `analysed` records. Its entry is stored under "seo_<url>" when it returns;
        when it raises, nothing is stored and the request fails with a 500. */
    method AnalyzeWebsiteSeo(url: string, seo: string -> Attempt, now: string) returns (reply: SeoReply, analysed: bool)
      requires Valid()
      modifies this
      ensures Valid() && jobs == old(jobs)
      ensures var u := ValidateUrl(url); var key := SeoKey(u);
        && analysed == (key !in Keys(old(cache)))
        && (!analysed ==> cache == old(cache)
                          && reply == Served(Response(true, Get(cache, key).value, "SEO analysis retrieved from cache", now)))
        && (analysed && seo(u).Returned? ==>
              cache == old(cache) + [(key, SeoEntry(seo(u).value, u))]
              && reply == Served(Response(true, SeoEntry(seo(u).value, u), "SEO analysis completed successfully", now)))
        && (analysed && seo(u).Raised? ==>
              cache == old(cache) && reply == ServerError(500, "SEO analysis failed: " + seo(u).message))
        && (reply.Served? ==> Get(cache, key) == Some(reply.resp.data))
    {
      var u := ValidateUrl(url);
      var key := SeoKey(u);
      var hit := Get(cache, key);
      if hit.Some? {
        reply := Served(Response(true, hit.value, "SEO analysis retrieved from cache", now));
        analysed := false;
        return;
      }
      analysed := true;
      var result := seo(u);
      if result.Raised? {
        reply := ServerError(500, "SEO analysis failed: " + result.message);
        return;
      }
      var data := SeoEntry(result.value, u);
      PutAbsent(cache, key, data);
      PutDistinct(cache, key, data);
      PutGet(cache, key, data, key);
      cache := Put(cache, key, data);
      reply := Served(Response(true, data, "SEO analysis completed successfully", now));
    }

    /** `complete_website_analysis(request)`: a running job is stored under the id
        made from the clock, replacing any job with that id. */
    method CompleteWebsiteAnalysis(url: string, analysisType: string, millis: nat, now: string)
      returns (resp: Json, jobId: string)
      requires Valid()
      modifies this
      ensures Valid() && cache == old(cache)
      ensures jobId == JobId(millis)
      ensures jobs == Put(old(jobs), jobId, NewJob(ValidateUrl(url), analysisType, now))
      ensures Get(jobs, jobId) == Some(NewJob(ValidateUrl(url), analysisType, now))
      ensures resp == Obj([("job_id", Str(jobId)), ("status", Str("started")),
                           ("message", Str("Complete analysis started. Use /jobs/{job_id} to check progress")),
                           ("estimated_time", Str("3-8 minutes")), ("url", Str(ValidateUrl(url))),
                           ("analysis_type", Str(analysisType))])
    {
      var u := ValidateUrl(url);
      jobId := JobId(millis);
      var job := NewJob(u, analysisType, now);
      PutKeepsJobs(jobs, jobId, job);
      PutGet(jobs, jobId, job, jobId);
      jobs := Put(jobs, jobId, job);
      resp := Obj([("job_id", Str(jobId)), ("status", Str("started")),
                   ("message", Str("Complete analysis started. Use /jobs/{job_id} to check progress")),
                   ("estimated_time", Str("3-8 minutes")), ("url", Str(u)),
                   ("analysis_type", Str(analysisType))]);
    }

    /** `run_complete_analysis(job_id, url, analysis_type)`. For an id that is not in
        the store the lookup raises again in the handler and nothing changes. */
    method RunCompleteAnalysis(jobId: string, url: string, analysisType: string, w: World, now: string)
      requires Valid()
      modifies this
      ensures Valid() && cache == old(cache)
      ensures jobId !in Keys(old(jobs)) ==> jobs == old(jobs)
      ensures jobId in Keys(old(jobs)) ==>
        jobs == Put(old(jobs), jobId, RunOutcome(Get(old(jobs), jobId).value, url, analysisType, w, now))
    {
      var found := Get(jobs, jobId);
      if found.None? {
        return;
      }
      var job := found.value;
      if analysisType == "all" {
        var results, ran := AnalyzeWebsiteComplete("all", AnalyzerTable(url, w));
        job := job.(results := results, progress := 100);
        job := job.(status := Completed, completedAt := Some(now));
      } else if analysisType in ServiceKinds {
        var attempt := ServiceTable(url, w)(analysisType);
        match attempt {
          case Returned(v) =>
            job := job.(results := Put(job.results, analysisType, v), progress := 100);
            job := job.(status := Completed, completedAt := Some(now));
          case Raised(m) =>
            job := job.(status := Failed, error := Some(m), completedAt := Some(now));
        }
      } else {
        job := job.(status := Failed, error := Some("Invalid analysis type: " + analysisType),
                    completedAt := Some(now));
      }
      RunFinishes(found.value, url, analysisType, w, now);
      PutKeepsJobs(jobs, jobId, job);
      jobs := Put(jobs, jobId, job);
    }

    /** `get_job_status(job_id)`: the stored job, or 404 "Job not found". */
    function GetJobStatus(jobId: string): (r: JobLookup)
      reads this
      ensures r.Found? <==> jobId in Keys(jobs)
      ensures r.Found? ==> (jobId, r.job) in jobs
      ensures r.NotFound? ==> r.code == 404 && r.detail == "Job not found"
    {
      var found := Get(jobs, jobId);
      if found.Some? then Found(found.value) else NotFound(404, "Job not found")
    }

    /** `list_jobs()`: the number of jobs, their ids in submission order, and the
        number of cache entries. */
    function ListJobs(): (r: JobList)
      reads this
      ensures r.jobIds == Keys(jobs) && r.totalJobs == |jobs| && r.cacheSize == |cache|
    {
      JobList(|jobs|, Keys(jobs), |cache|)
    }
  }

  /** The job count is the number of distinct ids. */
  lemma JobCountIsIdCount(s: Server)
    requires s.Valid()
    ensures s.ListJobs().totalJobs == |set e | e in s.jobs :: e.0|
  {
    DistinctKeysCount(s.jobs);
  }

  /** A job submitted and then run ends completed or failed, under its clock id. */
  method SubmitAndRun(s: Server, url: string, analysisType: string, millis: nat, w: World, started: string, now: string)
    returns (jobId: string)
    requires s.Valid()
    modifies s
    ensures s.Valid()
    ensures var out := RunOutcome(NewJob(ValidateUrl(url), analysisType, started), ValidateUrl(url), analysisType, w, now);
      && s.GetJobStatus(jobId) == Found(out)
      && out.status != Running
  {
    var resp;
    resp, jobId := s.CompleteWebsiteAnalysis(url, analysisType, millis, started);
    ghost var submitted := s.jobs;
    s.RunCompleteAnalysis(jobId, ValidateUrl(url), analysisType, w, now);
    var job := NewJob(ValidateUrl(url), analysisType, started);
    var out := RunOutcome(job, ValidateUrl(url), analysisType, w, now);
    RunFinishes(job, ValidateUrl(url), analysisType, w, now);
    PutGet(submitted, jobId, out, jobId);
  }

  /** Asking twice for the SEO analysis of the same url: after a success the second
      request is served from the cache with the same data; a failure caches nothing,
      so the second request runs the analysis again and fails the same way. */
  method SeoTwice(s: Server, url: string, seo: string -> Attempt, now1: string, now2: string)
    returns (first: SeoReply, second: SeoReply, analysedAgain: bool)
    requires s.Valid()
    modifies s
    ensures first.Served? ==> !analysedAgain && second.Served? && second.resp.data == first.resp.data
                              && second.resp.message == "SEO analysis retrieved from cache"
    ensures first.ServerError? ==> analysedAgain && second == first
  {
    var a;
    first, a := s.AnalyzeWebsiteSeo(url, seo, now1);
    second, analysedAgain := s.AnalyzeWebsiteSeo(url, seo, now2);
  }
}
