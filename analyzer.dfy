/** The analyses of website_analyzer.py and the orchestrator that runs them.

    Every analysis builds a fresh `Website` for its url and, unless a guard stops it,
    hands a prompt to the text service. The service is an oracle from prompts to
    payloads (`World.ai`): the wording of the prompts is not modelled, only which page
    snapshot and which parameters they are built from. An exception that escapes an
    analysis (for example `urlparse` rejecting the url before the constructor's
    `try`) is given by `World.raises`. */
module Analyzer {
  import opened Optional
  import opened Text
  import opened OrderedDict
  import opened Json
  import opened Snapshot

  /** What a prompt is built from: the kind of analysis, the url, the snapshot of the
      page, and the further values the prompt mentions. */
  datatype Prompt = Prompt(kind: string, url: string, site: Snapshot, params: seq<string>)

  /** Everything outside the program: what fetching each url gives, the url library,
      `str.title()`, the text service, and the exceptions that escape an analysis. */
  datatype World = World(
    fetch: string -> Fetch,
    env: Env,
    titleCase: string -> string,
    ai: Prompt -> Json,
    raises: (string, string) -> Option<string>
  )

  /** `Website(url)` */
  function Site(url: string, w: World): (r: Snapshot)
    ensures r.url == url && r.domain == w.env.netloc(url)
  {
    Scrape(url, w.fetch(url), w.env)
  }

  // ---------------------------------------------------------------------------
  // The fallback report

  const Warning := "\U{26A0}\U{FE0F}"

  /** The report's fixed recommendations and next steps; their wording is not
      modelled, only the heading that opens them. */
  const FallbackAdvice := "## Recommendations\n"

  /** `create_fallback_analysis(url, domain)`: a fixed markdown report that mentions
      the domain and the url. */
  function FallbackAnalysis(url: string, domain: string): string {
    "# Website Analysis for " + domain + FallbackStatus(url, domain)
  }

  function FallbackStatus(url: string, domain: string): string {
    "\n\n## Status\n" + Warning + " **Limited Analysis Available**\n\nThe website " + url + FallbackInfo(url, domain)
  }

  function FallbackInfo(url: string, domain: string): string {
    " could not be fully accessed due to access restrictions (likely bot protection or rate limiting).\n\n"
    + "## Basic Information\n- **Domain**: " + domain + "\n- **URL**: " + url
    + "\n- **Status**: Access restricted\n\n" + FallbackAdvice
  }

  /** The report names both the domain and the url it could not analyse. */
  lemma FallbackNamesSite(url: string, domain: string)
    ensures Contains(FallbackAnalysis(url, domain), domain)
    ensures Contains(FallbackAnalysis(url, domain), url)
  {
    var status := FallbackStatus(url, domain);
    ContainsInfix("# Website Analysis for ", domain, status);
    ContainsInfix("\n\n## Status\n" + Warning + " **Limited Analysis Available**\n\nThe website ", url, FallbackInfo(url, domain));
    ContainsPrepend("# Website Analysis for " + domain, status, url);
  }

  const SeoAdvice :=
    "\n\n## SEO Specific Recommendations:\n- Ensure website is crawlable by search engines\n"
    + "- Check robots.txt file\n- Verify server response codes\n- Test website accessibility from different locations"

  const AuditAdvice :=
    "\n\n## Audit Specific Recommendations:\n- Fix website accessibility issues\n"
    + "- Ensure proper server configuration\n- Review security settings\n- Test from multiple locations and devices"

  // ---------------------------------------------------------------------------
  // Link partition

  /** Number of links whose url contains the domain: the pages of the site itself. */
  function InternalCount(links: seq<Link>, domain: string): nat {
    if links == [] then 0
    else (if Contains(links[0].url, domain) then 1 else 0) + InternalCount(links[1..], domain)
  }

  /** Number of links whose url does not contain the domain. */
  function ExternalCount(links: seq<Link>, domain: string): nat {
    if links == [] then 0
    else (if Contains(links[0].url, domain) then 0 else 1) + ExternalCount(links[1..], domain)
  }

  /** The substring test splits the links in two: both counts add up to all links. */
  lemma {:induction false} LinkPartition(links: seq<Link>, domain: string)
    ensures InternalCount(links, domain) + ExternalCount(links, domain) == |links|
  {
    if links != [] {
      LinkPartition(links[1..], domain);
    }
  }

  // ---------------------------------------------------------------------------
  // The analyses

  /** The answer of `analyze_seo` once its `Website` is built: the fallback report with
      the SEO advice when the page could not be read, the service's answer otherwise. */
  function SeoAnswer(url: string, site: Snapshot, ai: Prompt -> Json): Json {
    if !ValidSnapshot(site) then Str(FallbackAnalysis(url, site.domain) + SeoAdvice)
    else ai(Prompt("seo", url, site, [NatToString(|site.text|), NatToString(|site.images|), NatToString(|site.links|)]))
  }

  /** The answer of `comprehensive_audit`: the same guard, with the audit advice; the
      prompt reports the internal and external link counts. */
  function AuditAnswer(url: string, site: Snapshot, ai: Prompt -> Json): Json {
    if !ValidSnapshot(site) then Str(FallbackAnalysis(url, site.domain) + AuditAdvice)
    else ai(Prompt("audit", url, site, [NatToString(|site.text|),
                                       NatToString(InternalCount(site.links, site.domain)),
                                       NatToString(ExternalCount(site.links, site.domain))]))
  }

  /** `analyze_seo(url)` */
  function AnalyzeSeo(url: string, w: World): (r: Json)
    ensures !ValidSnapshot(Site(url, w)) ==> r == Str(FallbackAnalysis(url, w.env.netloc(url)) + SeoAdvice)
  {
    SeoAnswer(url, Site(url, w), w.ai)
  }

  /** `comprehensive_audit(url)` */
  function ComprehensiveAudit(url: string, w: World): (r: Json)
    ensures !ValidSnapshot(Site(url, w)) ==> r == Str(FallbackAnalysis(url, w.env.netloc(url)) + AuditAdvice)
  {
    AuditAnswer(url, Site(url, w), w.ai)
  }

  /** The analyses with a fallback guard, by kind. */
  function GuardedAnswer(kind: string, url: string, site: Snapshot, ai: Prompt -> Json): Json
    requires kind == "seo" || kind == "audit"
  {
    if kind == "seo" then SeoAnswer(url, site, ai) else AuditAnswer(url, site, ai)
  }

  /** For a page that could not be read, seo and audit do not consult the service. */
  lemma GuardSkipsService(kind: string, url: string, site: Snapshot, ai: Prompt -> Json, other: Prompt -> Json)
    requires kind == "seo" || kind == "audit"
    requires !ValidSnapshot(site)
    ensures GuardedAnswer(kind, url, site, ai) == GuardedAnswer(kind, url, site, other)
  {
  }

  /** What they give instead: the fallback report followed by the advice of their kind. */
  lemma GuardFallback(kind: string, url: string, site: Snapshot, ai: Prompt -> Json)
    requires kind == "seo" || kind == "audit"
    requires !ValidSnapshot(site)
    ensures GuardedAnswer(kind, url, site, ai)
      == Str(FallbackAnalysis(url, site.domain) + (if kind == "seo" then SeoAdvice else AuditAdvice))
  {
  }

  /** The guarded answer for an unreadable page names its domain and its url. */
  lemma GuardNamesSite(kind: string, url: string, site: Snapshot, ai: Prompt -> Json)
    requires kind == "seo" || kind == "audit"
    requires !ValidSnapshot(site)
    ensures GuardedAnswer(kind, url, site, ai).Str?
    ensures Contains(GuardedAnswer(kind, url, site, ai).s, site.domain)
    ensures Contains(GuardedAnswer(kind, url, site, ai).s, url)
  {
    var report := FallbackAnalysis(url, site.domain);
    var advice := if kind == "seo" then SeoAdvice else AuditAdvice;
    GuardFallback(kind, url, site, ai);
    FallbackNamesSite(url, site.domain);
    ContainsAppend(report, site.domain, advice);
    ContainsAppend(report, url, advice);
  }

  /** For a page that was read, seo and audit give what the service answers to a
      prompt built from that page. */
  lemma GuardPassesValid(kind: string, url: string, site: Snapshot, ai: Prompt -> Json)
    requires kind == "seo" || kind == "audit"
    requires ValidSnapshot(site)
    ensures exists p: Prompt :: p.kind == kind && p.url == url && p.site == site
                                && GuardedAnswer(kind, url, site, ai) == ai(p)
  {
    if kind == "seo" {
      var p := Prompt("seo", url, site, [NatToString(|site.text|), NatToString(|site.images|), NatToString(|site.links|)]);
      assert GuardedAnswer(kind, url, site, ai) == ai(p);
    } else {
      var p := Prompt("audit", url, site, [NatToString(|site.text|),
                                          NatToString(InternalCount(site.links, site.domain)),
                                          NatToString(ExternalCount(site.links, site.domain))]);
      assert GuardedAnswer(kind, url, site, ai) == ai(p);
    }
  }

  /** Text found in a string is still found once more text is put in front. */
  lemma {:induction false} ContainsPrepend(pre: string, s: string, sub: string)
    requires Contains(s, sub)
    ensures Contains(pre + s, sub)
    decreases |pre|
  {
    if pre == [] {
      assert pre + s == s;
    } else {
      assert (pre + s)[1..] == pre[1..] + s;
      ContainsPrepend(pre[1..], s, sub);
    }
  }

  /** Text found in a string is still found once more text is appended. */
  lemma {:induction false} ContainsAppend(s: string, sub: string, more: string)
    requires Contains(s, sub)
    ensures Contains(s + more, sub)
    decreases |s|
  {
    if StartsWith(s, sub) {
      assert (s + more)[..|sub|] == s[..|sub|];
    } else {
      assert (s + more)[1..] == s[1..] + more;
      ContainsAppend(s[1..], sub, more);
    }
  }

  /** Python's `str()` of an optional string. */
  function PyStr(s: Option<string>): string {
    if s.Some? then s.value else "None"
  }

  /** The answer of `get_links` once its `Website` is built: an error dict when the
      page could not be read, the service's JSON answer otherwise. */
  function LinksAnswer(url: string, site: Snapshot, ai: Prompt -> Json): Json {
    if !ValidSnapshot(site) then Obj([("error", Str("Could not access website: " + PyStr(site.error)))])
    else ai(Prompt("links", url, site, []))
  }

  /** `get_links(url)` */
  function GetLinks(url: string, w: World): (r: Json)
    ensures !ValidSnapshot(Site(url, w)) ==> r.Obj? && Keys(r.members) == ["error"]
  {
    LinksAnswer(url, Site(url, w), w.ai)
  }

  /** An unreadable page gives exactly one entry, "error", naming the scraping error,
      or "None" when the page was fetched but its text was too short. */
  lemma GetLinksGuard(url: string, site: Snapshot, ai: Prompt -> Json, other: Prompt -> Json)
    requires !ValidSnapshot(site)
    ensures LinksAnswer(url, site, ai) == LinksAnswer(url, site, other)
    ensures LinksAnswer(url, site, ai).Obj? && Keys(LinksAnswer(url, site, ai).members) == ["error"]
    ensures site.error.None? ==>
      LinksAnswer(url, site, ai).members[0].1 == Str("Could not access website: None")
    ensures site.error.Some? ==>
      LinksAnswer(url, site, ai).members[0].1 == Str("Could not access website: " + site.error.value)
  {
  }

  /** For a url whose request fails, seo gives the fallback report for the url's
      domain, whatever the service would answer. */
  lemma SeoOnRequestFailure(url: string, w: World, reason: string)
    requires w.fetch(url) == RequestFailed(reason)
    ensures AnalyzeSeo(url, w) == Str(FallbackAnalysis(url, w.env.netloc(url)) + SeoAdvice)
  {
    RequestErrorDegrades(url, reason, w.env);
  }

  function GenerateContentIdeas(url: string, contentType: string, w: World): Json {
    w.ai(Prompt("content", url, Site(url, w), [contentType]))
  }

  const DefaultPlatforms := ["LinkedIn", "Twitter", "Instagram"]

  function SocialMediaStrategy(url: string, platforms: seq<string>, w: World): Json {
    w.ai(Prompt("social", url, Site(url, w), platforms))
  }

  function ExtractContactInfo(url: string, w: World): Json {
    w.ai(Prompt("leads", url, Site(url, w), []))
  }

  function EmailCampaigns(url: string, campaignType: string, w: World): Json {
    w.ai(Prompt("email", url, Site(url, w), [campaignType]))
  }

  /** `create_brochure(company_name, url, humorous)` */
  function CreateBrochure(companyName: string, url: string, humorous: bool, w: World): Json {
    w.ai(Prompt("brochure", url, Site(url, w), [companyName, if humorous then "True" else "False"]))
  }

  // ---------------------------------------------------------------------------
  // Company name

  /** The domain with every "www." removed, up to its first dot: a prefix of the
      stripped domain, followed there by a dot unless it is all of it. */
  function CompanySegment(domain: string): (r: string)
    ensures StartsWith(ReplaceAll(domain, "www.", ""), r)
    ensures '.' !in r
    ensures |r| < |ReplaceAll(domain, "www.", "")| ==> ReplaceAll(domain, "www.", "")[|r|] == '.'
  {
    BeforeFirst(ReplaceAll(domain, "www.", ""), '.')
  }

  /** `domain.replace('www.', '').split('.')[0].title()` */
  function CompanyName(domain: string, titleCase: string -> string): string {
    titleCase(CompanySegment(domain))
  }

  /** A leading "www." does not change the company name. */
  lemma WwwIrrelevant(domain: string)
    ensures CompanySegment("www." + domain) == CompanySegment(domain)
  {
    var s := "www." + domain;
    assert s[..4] == "www." && s[4..] == domain;
    var r := ReplaceAll(domain, "www.", "");
    assert ReplaceAll(s, "www.", "") == "" + r;
    assert "" + r == r;
  }

  /** The name is the domain's first dot-separated label, provided that label does
      not end in "www" (then "www." would straddle the dot and be removed). */
  lemma {:induction false} SegmentIsFirstLabel(first: string, rest: string)
    requires '.' !in first && !EndsWith(first, "www")
    ensures CompanySegment(first + "." + rest) == first
    decreases |first|
  {
    var s := first + "." + rest;
    if first == [] {
      assert s[0] == '.';
      if |s| >= 4 {
        assert s[..4][0] == '.';
        assert ReplaceAll(s, "www.", "") == [s[0]] + ReplaceAll(s[1..], "www.", "");
      }
    } else {
      assert s[0] == first[0];
      assert s[1..] == first[1..] + "." + rest;
      assert !EndsWith(first[1..], "www") by {
        if |first[1..]| >= 3 {
          assert first[|first| - 3..] == first[1..][|first[1..]| - 3..];
        }
      }
      SegmentIsFirstLabel(first[1..], rest);
      if |s| >= 4 {
        if |first| >= 4 {
          assert s[..4][3] == first[3];
        } else {
          assert s[|first|] == '.';
          if |first| == 3 {
            assert first[|first| - 3..] == first == s[..4][..3];
          }
          assert s[..4][|first|] == '.';
        }
        assert s[..4] != "www.";
      }
      assert ReplaceAll(s, "www.", "") == [s[0]] + ReplaceAll(s[1..], "www.", "");
      assert BeforeFirst(ReplaceAll(s[1..], "www.", ""), '.') == first[1..];
    }
  }

  /** A "www" ending the first label joins the dot into "www." and is removed with it,
      so the name runs on into the next label. */
  lemma WwwInsideLabel()
    ensures CompanySegment("awww.x") == "ax"
  {
    var s := "awww.x";
    assert s[..4] == "awww" && s[1..] == "www.x";
    assert s[1..][..4] == "www." && s[1..][4..] == "x";
    assert ReplaceAll("x", "www.", "") == "x";
    assert ReplaceAll(s, "www.", "") == "ax";
    assert "ax"[1..] == "x" && "x"[1..] == [];
  }

  /** `create_brochure_from_url(url)` */
  function CreateBrochureFromUrl(url: string, w: World): (r: Json)
    ensures r == CreateBrochure(CompanyName(w.env.netloc(url), w.titleCase), url, false, w)
  {
    var domain := Site(url, w).domain;
    CreateBrochure(CompanyName(domain, w.titleCase), url, false, w)
  }

  // ---------------------------------------------------------------------------
  // The orchestrator

  /** What calling one entry of the dispatch table gave. */
  datatype Attempt = Returned(value: Json) | Raised(message: string)

  /** The dispatch table's keys, in order. */
  const Kinds := ["seo", "audit", "content", "social", "leads", "email", "brochure"]

  const InvalidTypeError :=
    "Invalid analysis type. Available: ['seo', 'audit', 'content', 'social', 'leads', 'email', 'brochure']"

  /** The analysis a kind stands for, when it does not raise. */
  function Analysis(kind: string, url: string, w: World): Json {
    match kind
    case "seo" => AnalyzeSeo(url, w)
    case "audit" => ComprehensiveAudit(url, w)
    case "content" => GenerateContentIdeas(url, "blog", w)
    case "social" => SocialMediaStrategy(url, DefaultPlatforms, w)
    case "leads" => ExtractContactInfo(url, w)
    case "email" => EmailCampaigns(url, "welcome_series", w)
    case _ => CreateBrochureFromUrl(url, w)
  }

  /** The dispatch table for `url`: each entry calls its analysis. */
  function AnalyzerTable(url: string, w: World): string -> Attempt {
    kind =>
      var raised := w.raises(kind, url);
      if raised.Some? then Raised(raised.value) else Returned(Analysis(kind, url, w))
  }

  /** What is stored for one kind: its value, or the message of its exception. */
  function Collected(name: string, a: Attempt): Json {
    match a
    case Returned(v) => v
    case Raised(m) => Str("Error in " + name + " analysis: " + m)
  }

  /** The dict the "all" loop builds after running `names`, one assignment each. */
  function CollectAll(names: seq<string>, analyses: string -> Attempt): Dict<Json> {
    if names == [] then []
    else
      var last := names[|names| - 1];
      Put(CollectAll(names[..|names| - 1], analyses), last, Collected(last, analyses(last)))
  }

  /** With distinct names, every name gets its own entry, in running order, holding
      what its own call gave. */
  lemma {:induction false} CollectAllEntries(names: seq<string>, analyses: string -> Attempt)
    requires forall i, j :: 0 <= i < j < |names| ==> names[i] != names[j]
    ensures |CollectAll(names, analyses)| == |names|
    ensures forall i :: 0 <= i < |names| ==>
      CollectAll(names, analyses)[i] == (names[i], Collected(names[i], analyses(names[i])))
  {
    if names != [] {
      var init, last := names[..|names| - 1], names[|names| - 1];
      CollectAllEntries(init, analyses);
      var d := CollectAll(init, analyses);
      assert Keys(d) == init;
      PutAbsent(d, last, Collected(last, analyses(last)));
    }
  }

  /** Whatever one kind does, the entries of the other kinds are the same: an
      exception in one analysis does not stop or change the others. */
  lemma {:induction false} CollectAllIsolates(names: seq<string>, a: string -> Attempt, b: string -> Attempt, k: string)
    requires a(k) == b(k)
    ensures Get(CollectAll(names, a), k) == Get(CollectAll(names, b), k)
    ensures Keys(CollectAll(names, a)) == Keys(CollectAll(names, b))
  {
    if names != [] {
      var init, last := names[..|names| - 1], names[|names| - 1];
      CollectAllIsolates(init, a, b, k);
      PutGet(CollectAll(init, a), last, Collected(last, a(last)), k);
      PutGet(CollectAll(init, b), last, Collected(last, b(last)), k);
      PutKeys(CollectAll(init, a), last, Collected(last, a(last)));
      PutKeys(CollectAll(init, b), last, Collected(last, b(last)));
    }
  }

  /** In "all" mode the keys are exactly the seven kinds in table order, and each
      holds its analysis' value or "Error in <kind> analysis: <message>". */
  lemma AllModeResults(analyses: string -> Attempt)
    ensures Keys(CollectAll(Kinds, analyses)) == Kinds
    ensures forall i :: 0 <= i < |Kinds| ==>
      Get(CollectAll(Kinds, analyses), Kinds[i]) == Some(Collected(Kinds[i], analyses(Kinds[i])))
  {
    CollectAllEntries(Kinds, analyses);
    var d := CollectAll(Kinds, analyses);
    forall i | 0 <= i < |Kinds|
      ensures Get(d, Kinds[i]) == Some(Collected(Kinds[i], analyses(Kinds[i])))
    {
      GetDistinct(d, i);
    }
  }

  /** In a dict with distinct keys, looking up the key of entry `i` finds entry `i`. */
  lemma {:induction false} GetDistinct<V>(d: Dict<V>, i: nat)
    requires Distinct(d) && i < |d|
    ensures Get(d, d[i].0) == Some(d[i].1)
  {
    if i > 0 {
      DistinctTail(d);
      assert d[1..][i - 1] == d[i];
      GetDistinct(d[1..], i - 1);
    }
  }

  /** `analyze_website_complete(url, analysis_type)` with its dispatch table given.
      `ran` lists the kinds whose entry was called, in order. */
  method AnalyzeWebsiteComplete(analysisType: string, analyses: string -> Attempt)
    returns (results: Dict<Json>, ran: seq<string>)
    ensures analysisType == "all" ==> results == CollectAll(Kinds, analyses) && ran == Kinds
    ensures analysisType != "all" && analysisType in Kinds ==>
      results == [(analysisType, Collected(analysisType, analyses(analysisType)))] && ran == [analysisType]
    ensures analysisType != "all" && analysisType !in Kinds ==>
      results == [("error", Str(InvalidTypeError))] && ran == []
  {
    results := [];
    ran := [];
    if analysisType == "all" {
      for i := 0 to |Kinds|
        invariant results == CollectAll(Kinds[..i], analyses)
        invariant ran == Kinds[..i]
      {
        var name := Kinds[i];
        var attempt := analyses(name);
        ran := ran + [name];
        match attempt {
          case Returned(v) =>
            results := Put(results, name, v);
          case Raised(m) =>
            results := Put(results, name, Str("Error in " + name + " analysis: " + m));
        }
        assert Kinds[..i + 1][..i] == Kinds[..i];
      }
      assert Kinds[..|Kinds|] == Kinds;
    } else if analysisType in Kinds {
      var attempt := analyses(analysisType);
      ran := [analysisType];
      match attempt {
        case Returned(v) =>
          results := Put(results, analysisType, v);
        case Raised(m) =>
          results := Put(results, analysisType, Str("Error in " + analysisType + " analysis: " + m));
      }
    } else {
      results := Put(results, "error", Str(InvalidTypeError));
    }
  }
}
