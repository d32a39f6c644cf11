/** The `Website` snapshot of website_analyzer.py: one fetch of a page and the fields
    extracted from its parsed document.

    The fetch and the HTML parser are outside the model. What the fetch produced is an
    input (`Fetch`), and the parsed document is an abstract `Document` holding exactly
    what the extraction code asks the parser for. `urlparse(url).netloc` and `urljoin`
    are library calls, given as the functions of an `Env`. */
module Snapshot {
  import opened Optional
  import opened Text

  type Attrs = map<string, string>

  /** An `<a>`, `<img>` or `<meta>` tag: its attributes and its stripped text. */
  datatype Element = Element(attrs: Attrs, text: string)

  /** What the extraction asks of the parsed page. */
  datatype Document = Document(
    title: Option<Option<string>>,  // the <title> element, if any, and its `.string`
    h1: Option<string>,             // the first <h1>, if any, as `get_text(strip=True)`
    metas: seq<Attrs>,              // the <meta> tags, in document order
    // The two lists below are the tags still in the tree when the link and image
    // steps run: when there is a <body>, the text step has already removed every
    // script, style, img, input, nav, footer and header element inside it, so an
    // <a> within such an element, and every <img> within the body, is not listed.
    anchors: seq<Element>,          // the <a> tags left after those removals, in document order
    imgs: seq<Element>,             // the <img> tags left after those removals, in document order
    bodyText: Option<string>,       // the flattened text of <body> after the removals, if there is a body
    allText: string                 // the flattened text of the whole document
  )

  /** The steps of extraction, in the order the constructor runs them. */
  datatype Stage = Parse | TitleStep | MetaStep | KeywordsStep | TextStep | LinksStep | ImagesStep

  /** An exception other than a request error, raised inside step `at`. */
  datatype Fault = Fault(at: Stage, reason: string)

  /** What fetching the page gave: a request error (a transport failure or a non-2xx
      status), some other exception before a response was at hand, or a response,
      possibly followed by an exception in one of the extraction steps. */
  datatype Fetch =
    | RequestFailed(reason: string)
    | Crashed(reason: string)
    | Fetched(status: int, doc: Document, fault: Option<Fault>)

  /** The library functions: `urlparse(u).netloc`, and `urljoin(base, ref)`, which
      gives None where it raises. */
  datatype Env = Env(netloc: string -> string, urljoin: (string, string) -> Option<string>)

  datatype Link = Link(url: string, text: string, title: string)
  datatype Image = Image(url: string, alt: string, title: string)

  /** The fields of a `Website` once its constructor has returned. */
  datatype Snapshot = Snapshot(
    url: string,
    domain: string,
    title: string,
    metaDescription: string,
    keywords: string,
    text: string,
    links: seq<Link>,
    images: seq<Image>,
    statusCode: Option<int>,
    error: Option<string>
  )

  // ---------------------------------------------------------------------------
  // Field derivation

  function Rank(s: Stage): nat {
    match s
    case Parse => 0
    case TitleStep => 1
    case MetaStep => 2
    case KeywordsStep => 3
    case TextStep => 4
    case LinksStep => 5
    case ImagesStep => 6
  }

  /** Step `s` ran to its end: no fault, or the fault came in a later step. */
  predicate Done(fault: Option<Fault>, s: Stage) {
    fault.None? || Rank(s) < Rank(fault.value.at)
  }

  /** `tag.get(name, '')` */
  function AttrOr(attrs: Attrs, name: string, default: string): string {
    if name in attrs then attrs[name] else default
  }

  /** `soup.find('meta', attrs={key: value})`: the first meta tag whose `key` is `value`. */
  function FindMeta(metas: seq<Attrs>, key: string, value: string): (r: Option<Attrs>)
    ensures r.Some? ==> r.value in metas && key in r.value && r.value[key] == value
    ensures r.None? ==> forall m :: m in metas ==> !(key in m && m[key] == value)
  {
    if metas == [] then None
    else if key in metas[0] && metas[0][key] == value then Some(metas[0])
    else FindMeta(metas[1..], key, value)
  }

  /** The title: the stripped `<title>` string ("No title found" when the element has
      no non-empty string), else the first `<h1>` text, else a domain placeholder. */
  function ResolveTitle(doc: Document, domain: string): (r: string)
    ensures doc.title.Some? && doc.title.value.Some? && doc.title.value.value != "" ==>
      r == Strip(doc.title.value.value)
    ensures doc.title.Some? && (doc.title.value.None? || doc.title.value.value == "") ==> r == "No title found"
    ensures doc.title.None? && doc.h1.Some? ==> r == doc.h1.value
    ensures doc.title.None? && doc.h1.None? ==> r == "Website: " + domain
  {
    match doc.title
    case Some(s) => if s.Some? && s.value != "" then Strip(s.value) else "No title found"
    case None => if doc.h1.Some? then doc.h1.value else "Website: " + domain
  }

  /** The `name="description"` meta content, else the `property="og:description"`
      one, else the empty string. */
  function ResolveMetaDescription(metas: seq<Attrs>): (r: string)
    ensures r != "" ==> exists m :: m in metas && IsDescription(m) && "content" in m && m["content"] == r
    ensures (forall m :: m in metas ==> !IsDescription(m)) ==> r == ""
  {
    match FindMeta(metas, "name", "description")
    case Some(m) => AttrOr(m, "content", "")
    case None =>
      match FindMeta(metas, "property", "og:description")
      case Some(m) => AttrOr(m, "content", "")
      case None => ""
  }

  /** A meta tag that describes the page, under either of the two names. */
  predicate IsDescription(m: Attrs) {
    ("name" in m && m["name"] == "description") || ("property" in m && m["property"] == "og:description")
  }

  /** The first `name="description"` tag decides, wherever an `og:description` tag
      stands and even when that first tag has no content (the result is then ""). */
  lemma MetaNameFirst(metas: seq<Attrs>, i: nat)
    requires i < |metas| && "name" in metas[i] && metas[i]["name"] == "description"
    requires forall j :: 0 <= j < i ==> !("name" in metas[j] && metas[j]["name"] == "description")
    ensures ResolveMetaDescription(metas) == AttrOr(metas[i], "content", "")
  {
    FindMetaFirst(metas, "name", "description", i);
  }

  /** With no `name="description"` tag, the first `og:description` tag decides. */
  lemma MetaOgFallback(metas: seq<Attrs>, i: nat)
    requires forall m :: m in metas ==> !("name" in m && m["name"] == "description")
    requires i < |metas| && "property" in metas[i] && metas[i]["property"] == "og:description"
    requires forall j :: 0 <= j < i ==> !("property" in metas[j] && metas[j]["property"] == "og:description")
    ensures ResolveMetaDescription(metas) == AttrOr(metas[i], "content", "")
  {
    FindMetaFirst(metas, "property", "og:description", i);
  }

  /** `FindMeta` returns the tag at `i` when no earlier tag matches. */
  lemma {:induction false} FindMetaFirst(metas: seq<Attrs>, key: string, value: string, i: nat)
    requires i < |metas| && key in metas[i] && metas[i][key] == value
    requires forall j :: 0 <= j < i ==> !(key in metas[j] && metas[j][key] == value)
    ensures FindMeta(metas, key, value) == Some(metas[i])
  {
    if i > 0 {
      FindMetaFirst(metas[1..], key, value, i - 1);
    }
  }

  /** The content of the first `name="keywords"` meta tag, else the empty string. */
  function ResolveKeywords(metas: seq<Attrs>): (r: string)
    ensures r != "" ==> exists m :: m in metas && "name" in m && m["name"] == "keywords" && "content" in m && m["content"] == r
    ensures (forall m :: m in metas ==> !("name" in m && m["name"] == "keywords")) ==> r == ""
  {
    match FindMeta(metas, "name", "keywords")
    case Some(m) => AttrOr(m, "content", "")
    case None => ""
  }

  /** The first `name="keywords"` tag decides, "" when it has no content. */
  lemma KeywordsFirst(metas: seq<Attrs>, i: nat)
    requires i < |metas| && "name" in metas[i] && metas[i]["name"] == "keywords"
    requires forall j :: 0 <= j < i ==> !("name" in metas[j] && metas[j]["name"] == "keywords")
    ensures ResolveKeywords(metas) == AttrOr(metas[i], "content", "")
  {
    FindMetaFirst(metas, "name", "keywords", i);
  }

  /** The body text when there is a body, else the text of the whole document. */
  function PageText(doc: Document): string {
    if doc.bodyText.Some? then doc.bodyText.value else doc.allText
  }

  // ---------------------------------------------------------------------------
  // Links and images: filter, resolve against the page url, keep document order

  function FilterMap<T, U>(xs: seq<T>, f: T -> Option<U>): seq<U> {
    if xs == [] then []
    else (if f(xs[0]).Some? then [f(xs[0]).value] else []) + FilterMap(xs[1..], f)
  }

  lemma {:induction false} FilterMapAppend<T, U>(xs: seq<T>, ys: seq<T>, f: T -> Option<U>)
    ensures FilterMap(xs + ys, f) == FilterMap(xs, f) + FilterMap(ys, f)
  {
    if xs == [] {
      assert xs + ys == ys;
    } else {
      assert (xs + ys)[0] == xs[0];
      assert (xs + ys)[1..] == xs[1..] + ys;
      FilterMapAppend(xs[1..], ys, f);
    }
  }

  /** The positions of `xs` whose element `f` keeps, in increasing order. */
  ghost function Kept<T, U>(xs: seq<T>, f: T -> Option<U>): seq<nat> {
    if xs == [] then []
    else (if f(xs[0]).Some? then [0] else []) + Shift(Kept(xs[1..], f))
  }

  ghost function Shift(idx: seq<nat>): (r: seq<nat>)
    ensures |r| == |idx| && forall k :: 0 <= k < |idx| ==> r[k] == idx[k] + 1
  {
    seq(|idx|, k requires 0 <= k < |idx| => idx[k] + 1)
  }

  lemma {:induction false} KeptLength<T, U>(xs: seq<T>, f: T -> Option<U>)
    ensures |Kept(xs, f)| == |FilterMap(xs, f)|
  {
    if xs != [] {
      KeptLength(xs[1..], f);
    }
  }

  lemma {:induction false} KeptSources<T, U>(xs: seq<T>, f: T -> Option<U>)
    ensures |Kept(xs, f)| == |FilterMap(xs, f)|
    ensures forall k :: 0 <= k < |Kept(xs, f)| ==>
      Kept(xs, f)[k] < |xs| && f(xs[Kept(xs, f)[k]]) == Some(FilterMap(xs, f)[k])
  {
    KeptLength(xs, f);
    if xs != [] {
      KeptSources(xs[1..], f);
      var idx, ys := Kept(xs, f), FilterMap(xs, f);
      var idx', ys' := Kept(xs[1..], f), FilterMap(xs[1..], f);
      var d := if f(xs[0]).Some? then 1 else 0;
      assert idx == (if d == 1 then [0] else []) + Shift(idx');
      assert ys == (if d == 1 then [f(xs[0]).value] else []) + ys';
      forall k | 0 <= k < |idx| ensures idx[k] < |xs| && f(xs[idx[k]]) == Some(ys[k]) {
        if k >= d {
          assert idx[k] == idx'[k - d] + 1;
          assert ys[k] == ys'[k - d];
          assert xs[idx[k]] == xs[1..][idx'[k - d]];
        }
      }
    }
  }

  lemma {:induction false} KeptIncreasing<T, U>(xs: seq<T>, f: T -> Option<U>)
    ensures forall k, k' :: 0 <= k < k' < |Kept(xs, f)| ==> Kept(xs, f)[k] < Kept(xs, f)[k']
  {
    if xs != [] {
      KeptIncreasing(xs[1..], f);
      var idx, idx' := Kept(xs, f), Kept(xs[1..], f);
      var d := if f(xs[0]).Some? then 1 else 0;
      assert idx == (if d == 1 then [0] else []) + Shift(idx');
      forall k, k' | 0 <= k < k' < |idx| ensures idx[k] < idx[k'] {
        assert idx[k'] == idx'[k' - d] + 1;
        if k >= d {
          assert idx[k] == idx'[k - d] + 1;
        }
      }
    }
  }

  lemma {:induction false} KeptComplete<T, U>(xs: seq<T>, f: T -> Option<U>)
    ensures forall i :: 0 <= i < |xs| && f(xs[i]).Some? ==> i in Kept(xs, f)
  {
    if xs != [] {
      KeptComplete(xs[1..], f);
      var idx, idx' := Kept(xs, f), Kept(xs[1..], f);
      var d := if f(xs[0]).Some? then 1 else 0;
      assert idx == (if d == 1 then [0] else []) + Shift(idx');
      forall i | 0 <= i < |xs| && f(xs[i]).Some? ensures i in idx {
        if i > 0 {
          assert xs[1..][i - 1] == xs[i];
          var k :| 0 <= k < |idx'| && idx'[k] == i - 1;
          assert idx[k + d] == i;
        }
      }
    }
  }

  /** `FilterMap` keeps exactly the elements `f` maps to a value, in their order:
      its k-th result comes from position `Kept(xs, f)[k]`, these positions increase,
      and every position `f` accepts is among them. */
  lemma FilterMapIsOrderedSubsequence<T, U>(xs: seq<T>, f: T -> Option<U>)
    ensures var ys, idx := FilterMap(xs, f), Kept(xs, f);
      && |idx| == |ys|
      && (forall k :: 0 <= k < |idx| ==> idx[k] < |xs| && f(xs[idx[k]]) == Some(ys[k]))
      && (forall k, k' :: 0 <= k < k' < |idx| ==> idx[k] < idx[k'])
      && (forall i :: 0 <= i < |xs| && f(xs[i]).Some? ==> i in idx)
  {
    KeptSources(xs, f);
    KeptIncreasing(xs, f);
    KeptComplete(xs, f);
  }

  /** `y` is in the result exactly when some element is mapped to it. */
  lemma FilterMapMember<T, U>(xs: seq<T>, f: T -> Option<U>, y: U)
    ensures y in FilterMap(xs, f) <==> exists i :: 0 <= i < |xs| && f(xs[i]) == Some(y)
  {
    FilterMapIsOrderedSubsequence(xs, f);
    var ys, idx := FilterMap(xs, f), Kept(xs, f);
    if y in ys {
      var k :| 0 <= k < |ys| && ys[k] == y;
      assert f(xs[idx[k]]) == Some(y);
    }
    if i :| 0 <= i < |xs| && f(xs[i]) == Some(y) {
      var k :| 0 <= k < |idx| && idx[k] == i;
      assert ys[k] == y;
    }
  }

  /** An anchor that the link loop keeps: it has a non-empty `href` that does not
      start with '#'. */
  predicate LinkCandidate(a: Element) {
    "href" in a.attrs && a.attrs["href"] != "" && !StartsWith(a.attrs["href"], "#")
  }

  /** One anchor's link entry, or None when it is skipped (not a candidate, or
      `urljoin` raised on it). */
  function LinkOf(base: string, join: (string, string) -> Option<string>, a: Element): Option<Link> {
    if LinkCandidate(a) then
      match join(base, a.attrs["href"])
      case Some(absolute) => Some(Link(absolute, a.text, AttrOr(a.attrs, "title", "")))
      case None => None
    else None
  }

  function LinkResolver(base: string, join: (string, string) -> Option<string>): Element -> Option<Link> {
    a => LinkOf(base, join, a)
  }

  /** The entries of all anchors that are not skipped, in document order. */
  function ExtractLinks(anchors: seq<Element>, base: string, join: (string, string) -> Option<string>): seq<Link> {
    FilterMap(anchors, LinkResolver(base, join))
  }

  /** An image the image loop keeps: it has a non-empty `src`. */
  predicate ImageCandidate(img: Element) {
    "src" in img.attrs && img.attrs["src"] != ""
  }

  function ImageOf(base: string, join: (string, string) -> Option<string>, img: Element): Option<Image> {
    if ImageCandidate(img) then
      match join(base, img.attrs["src"])
      case Some(absolute) => Some(Image(absolute, AttrOr(img.attrs, "alt", ""), AttrOr(img.attrs, "title", "")))
      case None => None
    else None
  }

  function ImageResolver(base: string, join: (string, string) -> Option<string>): Element -> Option<Image> {
    img => ImageOf(base, join, img)
  }

  /** The entries of all imgs that are not skipped, in document order. */
  function ExtractImages(imgs: seq<Element>, base: string, join: (string, string) -> Option<string>): seq<Image> {
    FilterMap(imgs, ImageResolver(base, join))
  }

  /** The link list is the anchors' subsequence, in document order, of candidates
      whose `urljoin` succeeded; entry k is built from anchor `Kept(..)[k]`, whose
      href does not start with '#', and its url is `urljoin(base, href)`. */
  lemma LinksFollowAnchors(anchors: seq<Element>, base: string, join: (string, string) -> Option<string>)
    ensures var links, idx := ExtractLinks(anchors, base, join), Kept(anchors, LinkResolver(base, join));
      && |idx| == |links|
      && (forall k, k' :: 0 <= k < k' < |idx| ==> idx[k] < idx[k'])
      && (forall k :: 0 <= k < |idx| ==>
            && idx[k] < |anchors|
            && LinkCandidate(anchors[idx[k]])
            && Some(links[k].url) == join(base, anchors[idx[k]].attrs["href"])
            && links[k].text == anchors[idx[k]].text)
      && (forall i :: 0 <= i < |anchors| && LinkCandidate(anchors[i]) && join(base, anchors[i].attrs["href"]).Some? ==> i in idx)
  {
    var f := LinkResolver(base, join);
    FilterMapIsOrderedSubsequence(anchors, f);
    var links, idx := ExtractLinks(anchors, base, join), Kept(anchors, f);
    forall k | 0 <= k < |idx|
      ensures LinkCandidate(anchors[idx[k]]) && Some(links[k].url) == join(base, anchors[idx[k]].attrs["href"])
    {
      assert f(anchors[idx[k]]) == Some(links[k]);
    }
    forall i | 0 <= i < |anchors| && LinkCandidate(anchors[i]) && join(base, anchors[i].attrs["href"]).Some?
      ensures i in idx
    {
      assert f(anchors[i]).Some?;
    }
  }

  /** No link comes from an anchor whose href is empty or starts with '#'. */
  lemma LinkMember(anchors: seq<Element>, base: string, join: (string, string) -> Option<string>, l: Link)
    ensures l in ExtractLinks(anchors, base, join) <==>
      exists i :: 0 <= i < |anchors| && LinkCandidate(anchors[i])
        && join(base, anchors[i].attrs["href"]) == Some(l.url)
        && l == Link(l.url, anchors[i].text, AttrOr(anchors[i].attrs, "title", ""))
  {
    var f := LinkResolver(base, join);
    FilterMapMember(anchors, f, l);
    if l in ExtractLinks(anchors, base, join) {
      var i :| 0 <= i < |anchors| && f(anchors[i]) == Some(l);
      assert LinkCandidate(anchors[i]);
    }
    if i :| (0 <= i < |anchors| && LinkCandidate(anchors[i])
        && join(base, anchors[i].attrs["href"]) == Some(l.url)
        && l == Link(l.url, anchors[i].text, AttrOr(anchors[i].attrs, "title", ""))) {
      assert f(anchors[i]) == Some(l);
    }
  }

  /** The image list is the imgs' subsequence, in document order, of those with a
      non-empty src that `urljoin` resolved. */
  lemma ImagesFollowImgs(imgs: seq<Element>, base: string, join: (string, string) -> Option<string>)
    ensures var images, idx := ExtractImages(imgs, base, join), Kept(imgs, ImageResolver(base, join));
      && |idx| == |images|
      && (forall k, k' :: 0 <= k < k' < |idx| ==> idx[k] < idx[k'])
      && (forall k :: 0 <= k < |idx| ==>
            && idx[k] < |imgs|
            && ImageCandidate(imgs[idx[k]])
            && Some(images[k].url) == join(base, imgs[idx[k]].attrs["src"]))
      && (forall i :: 0 <= i < |imgs| && ImageCandidate(imgs[i]) && join(base, imgs[i].attrs["src"]).Some? ==> i in idx)
  {
    var f := ImageResolver(base, join);
    FilterMapIsOrderedSubsequence(imgs, f);
    var images, idx := ExtractImages(imgs, base, join), Kept(imgs, f);
    forall k | 0 <= k < |idx|
      ensures ImageCandidate(imgs[idx[k]]) && Some(images[k].url) == join(base, imgs[idx[k]].attrs["src"])
    {
      assert f(imgs[idx[k]]) == Some(images[k]);
    }
    forall i | 0 <= i < |imgs| && ImageCandidate(imgs[i]) && join(base, imgs[i].attrs["src"]).Some?
      ensures i in idx
    {
      assert f(imgs[i]).Some?;
    }
  }

  /** The link loop: candidates resolved with `urljoin` and appended in order. */
  method CollectLinks(anchors: seq<Element>, base: string, join: (string, string) -> Option<string>)
    returns (links: seq<Link>)
    ensures links == ExtractLinks(anchors, base, join)
  {
    links := [];
    for i := 0 to |anchors|
      invariant links == ExtractLinks(anchors[..i], base, join)
    {
      var a := anchors[i];
      if "href" in a.attrs {
        var href := a.attrs["href"];
        if href != "" && !StartsWith(href, "#") {
          var absolute := join(base, href);
          if absolute.Some? {
            links := links + [Link(absolute.value, a.text, AttrOr(a.attrs, "title", ""))];
          }
        }
      }
      assert anchors[..i + 1] == anchors[..i] + [a];
      FilterMapAppend(anchors[..i], [a], LinkResolver(base, join));
    }
    assert anchors[..|anchors|] == anchors;
  }

  /** The image loop: imgs with a non-empty src, resolved and appended in order. */
  method CollectImages(imgs: seq<Element>, base: string, join: (string, string) -> Option<string>)
    returns (images: seq<Image>)
    ensures images == ExtractImages(imgs, base, join)
  {
    images := [];
    for i := 0 to |imgs|
      invariant images == ExtractImages(imgs[..i], base, join)
    {
      var img := imgs[i];
      if "src" in img.attrs {
        var src := img.attrs["src"];
        if src != "" {
          var absolute := join(base, src);
          if absolute.Some? {
            images := images + [Image(absolute.value, AttrOr(img.attrs, "alt", ""), AttrOr(img.attrs, "title", ""))];
          }
        }
      }
      assert imgs[..i + 1] == imgs[..i] + [img];
      FilterMapAppend(imgs[..i], [img], ImageResolver(base, join));
    }
    assert imgs[..|imgs|] == imgs;
  }

  // ---------------------------------------------------------------------------
  // The snapshot as a whole

  function Defaults(url: string, domain: string): Snapshot {
    Snapshot(url, domain, "Unknown Title", "", "", "", [], [], None, None)
  }

  /** What the constructor leaves in the fields, for a given fetch. */
  function Scrape(url: string, fetch: Fetch, env: Env): (r: Snapshot)
    ensures r.url == url && r.domain == env.netloc(url)
  {
    var domain := env.netloc(url);
    match fetch
    case RequestFailed(reason) =>
      Defaults(url, domain).(error := Some("Error scraping " + url + ": " + reason),
                             title := "Error accessing " + domain)
    case Crashed(reason) =>
      Defaults(url, domain).(error := Some("Unexpected error scraping " + url + ": " + reason),
                             title := "Error processing " + domain)
    case Fetched(status, doc, fault) =>
      var extracted := Snapshot(
        url, domain,
        if Done(fault, TitleStep) then ResolveTitle(doc, domain) else "Unknown Title",
        if Done(fault, MetaStep) then ResolveMetaDescription(doc.metas) else "",
        if Done(fault, KeywordsStep) then ResolveKeywords(doc.metas) else "",
        if Done(fault, TextStep) then PageText(doc) else "",
        if Done(fault, LinksStep) then ExtractLinks(doc.anchors, url, env.urljoin) else [],
        if Done(fault, ImagesStep) then ExtractImages(doc.imgs, url, env.urljoin) else [],
        Some(status), None);
      if fault.Some? then
        extracted.(error := Some("Unexpected error scraping " + url + ": " + fault.value.reason),
                   title := "Error processing " + domain)
      else extracted
  }

  /** `is_valid()`: no error and more than 100 characters of text. */
  predicate ValidSnapshot(s: Snapshot) {
    s.error.None? && |s.text| > 100
  }

  /** A request error leaves a degraded snapshot: the error is recorded, the title is
      the domain placeholder, and text, links, images and status keep their defaults. */
  lemma RequestErrorDegrades(url: string, reason: string, env: Env)
    ensures var s := Scrape(url, RequestFailed(reason), env);
      && s.error == Some("Error scraping " + url + ": " + reason)
      && s.title == "Error accessing " + env.netloc(url)
      && s.text == "" && s.links == [] && s.images == []
      && s.statusCode.None?
      && !ValidSnapshot(s)
  {
  }

  /** An exception during extraction records "Unexpected error scraping …" and keeps
      what earlier steps assigned: the meta description, keywords and text survive a
      fault in a later step, though the snapshot is invalid. */
  lemma FaultKeepsEarlierFields(url: string, status: int, doc: Document, f: Fault, env: Env)
    ensures var s := Scrape(url, Fetched(status, doc, Some(f)), env);
      && s.error == Some("Unexpected error scraping " + url + ": " + f.reason)
      && s.title == "Error processing " + env.netloc(url)
      && s.statusCode == Some(status)
      && s.metaDescription == (if Rank(f.at) > Rank(MetaStep) then ResolveMetaDescription(doc.metas) else "")
      && s.keywords == (if Rank(f.at) > Rank(KeywordsStep) then ResolveKeywords(doc.metas) else "")
      && s.text == (if Rank(f.at) > Rank(TextStep) then PageText(doc) else "")
      && s.links == (if f.at == ImagesStep then ExtractLinks(doc.anchors, url, env.urljoin) else [])
      && s.images == []
      && !ValidSnapshot(s)
  {
  }

  /** A snapshot is valid exactly when the fetch returned a response, extraction ran
      to the end, and the page text is longer than 100 characters. */
  lemma ValidIffFetchedAndLong(url: string, fetch: Fetch, env: Env)
    ensures ValidSnapshot(Scrape(url, fetch, env)) <==>
      fetch.Fetched? && fetch.fault.None? && |PageText(fetch.doc)| > 100
  {
  }

  /** Whenever `error` is set, its message is not empty. */
  lemma ErrorNeverEmpty(url: string, fetch: Fetch, env: Env)
    ensures var s := Scrape(url, fetch, env); s.error.Some? ==> s.error.value != ""
  {
  }

  // ---------------------------------------------------------------------------
  // get_contents

  const ContentBudget: nat := 3000
  const ScrapeNote := "Note: Limited information available due to scraping restrictions.\n"

  function TitleLine(title: string): string {
    "Webpage Title: " + title + "\n\n"
  }

  function MetaLine(meta: string): string {
    "Meta Description: " + meta + "\n\n"
  }

  /** The summary handed to prompts: the title line, the meta description line when
      there is one, then either the error note with the domain or at most the first
      3000 characters of text followed by "...". (`if self.error` tests truthiness.) */
  function Contents(s: Snapshot): string {
    var head := if s.metaDescription != "" then TitleLine(s.title) + MetaLine(s.metaDescription) else TitleLine(s.title);
    if s.error.Some? && s.error.value != "" then
      head + ("Error: " + s.error.value + "\n\n") + ScrapeNote + ("Company appears to be: " + s.domain + "\n\n")
    else
      head + ("Webpage Contents:\n" + Take(s.text, ContentBudget) + "...\n\n")
  }

  lemma ContentsStartsWithTitle(s: Snapshot)
    ensures StartsWith(Contents(s), TitleLine(s.title))
  {
    var c := Contents(s);
    assert c[..|TitleLine(s.title)|] == TitleLine(s.title);
  }

  /** The meta description line follows the title line exactly when the description
      is not empty. */
  lemma {:induction false} ContentsMetaLine(s: Snapshot)
    ensures var rest := Contents(s)[|TitleLine(s.title)|..];
      StartsWith(rest, "Meta Description: ") <==> s.metaDescription != ""
  {
    var t := TitleLine(s.title);
    var c := Contents(s);
    var rest := c[|t|..];
    if s.metaDescription != "" {
      assert rest[..18] == "Meta Description: ";
    } else if s.error.Some? && s.error.value != "" {
      assert rest[..7] == "Error: ";
      assert !StartsWith(rest, "Meta Description: ") by {
        assert rest[1] != "Meta Description: "[1];
      }
    } else {
      assert rest[..18] == "Webpage Contents:\n";
      assert "Webpage Contents:\n" != "Meta Description: " by {
        assert "Webpage Contents:\n"[0] != "Meta Description: "[0];
      }
    }
  }

  /** With an error set, the summary closes by naming the page's domain. */
  lemma ContentsEndsWithDomain(s: Snapshot)
    requires s.error.Some? && s.error.value != ""
    ensures EndsWith(Contents(s), "Company appears to be: " + s.domain + "\n\n")
  {
    var tail := "Company appears to be: " + s.domain + "\n\n";
    var head := if s.metaDescription != "" then TitleLine(s.title) + MetaLine(s.metaDescription) else TitleLine(s.title);
    var front := head + ("Error: " + s.error.value + "\n\n") + ScrapeNote;
    assert Contents(s) == front + tail;
    assert (front + tail)[|front + tail| - |tail|..] == tail;
  }

  /** Without an error, the summary closes with the kept text followed by "...". */
  lemma ContentsEndsWithText(s: Snapshot)
    requires s.error.None? || s.error.value == ""
    ensures EndsWith(Contents(s), "Webpage Contents:\n" + Take(s.text, ContentBudget) + "...\n\n")
  {
    var tail := "Webpage Contents:\n" + Take(s.text, ContentBudget) + "...\n\n";
    var head := if s.metaDescription != "" then TitleLine(s.title) + MetaLine(s.metaDescription) else TitleLine(s.title);
    assert Contents(s) == head + tail;
    assert (head + tail)[|head + tail| - |tail|..] == tail;
  }

  /** With an error set, the summary does not depend on the page text at all. */
  lemma ContentsIgnoresTextOnError(s: Snapshot, text: string)
    requires s.error.Some? && s.error.value != ""
    ensures Contents(s.(text := text)) == Contents(s)
  {
  }

  /** Without an error, only the first 3000 characters of text reach the summary, so
      its length is bounded whatever the size of the page. */
  lemma ContentsBounded(s: Snapshot)
    requires s.error.None?
    ensures |Contents(s)| <= |TitleLine(s.title)| + 20 + |s.metaDescription| + 23 + ContentBudget
  {
  }

  /** Two texts that agree on their first 3000 characters give the same summary. */
  lemma ContentsSeesOnlyPrefix(s: Snapshot, text: string)
    requires Take(s.text, ContentBudget) == Take(text, ContentBudget)
    ensures Contents(s.(text := text)) == Contents(s)
  {
  }

  // ---------------------------------------------------------------------------
  // The class

  /** A scraped page. Its constructor fetches (here: is given the fetch outcome) and
      extracts; afterwards the fields are only read. */
  class Website {
    var url: string
    var domain: string
    var title: string
    var metaDescription: string
    var keywords: string
    var text: string
    var links: seq<Link>
    var images: seq<Image>
    var statusCode: Option<int>
    var error: Option<string>

    function View(): Snapshot
      reads this
    {
      Snapshot(url, domain, title, metaDescription, keywords, text, links, images, statusCode, error)
    }

    /** Assigns the defaults, then overwrites the fields step by step; an exception
        leaves the fields of the steps before it and records the error. */
    constructor (url: string, fetch: Fetch, env: Env)
      ensures View() == Scrape(url, fetch, env)
    {
      var host := env.netloc(url);
      this.url := url;
      domain := host;
      title := "Unknown Title";
      metaDescription := "";
      keywords := "";
      text := "";
      links := [];
      images := [];
      statusCode := None;
      error := None;
      match fetch {
        case RequestFailed(reason) =>
          error := Some("Error scraping " + url + ": " + reason);
          title := "Error accessing " + host;
        case Crashed(reason) =>
          error := Some("Unexpected error scraping " + url + ": " + reason);
          title := "Error processing " + host;
        case Fetched(status, doc, fault) =>
          statusCode := Some(status);
          if Done(fault, TitleStep) {
            title := ResolveTitle(doc, host);
          }
          if Done(fault, MetaStep) {
            metaDescription := ResolveMetaDescription(doc.metas);
          }
          if Done(fault, KeywordsStep) {
            keywords := ResolveKeywords(doc.metas);
          }
          if Done(fault, TextStep) {
            text := PageText(doc);
          }
          if Done(fault, LinksStep) {
            var pageLinks := CollectLinks(doc.anchors, url, env.urljoin);
            links := pageLinks;
          }
          if Done(fault, ImagesStep) {
            var pageImages := CollectImages(doc.imgs, url, env.urljoin);
            images := pageImages;
          }
          if fault.Some? {
            error := Some("Unexpected error scraping " + url + ": " + fault.value.reason);
            title := "Error processing " + host;
          }
      }
    }

    /** `get_contents()`, built piece by piece. */
    method GetContents() returns (content: string)
      ensures content == Contents(View())
    {
      content := TitleLine(title);
      if metaDescription != "" {
        content := content + MetaLine(metaDescription);
      }
      if error.Some? && error.value != "" {
        content := content + ("Error: " + error.value + "\n\n");
        content := content + ScrapeNote;
        content := content + ("Company appears to be: " + domain + "\n\n");
      } else {
        content := content + ("Webpage Contents:\n" + Take(text, ContentBudget) + "...\n\n");
      }
    }

    predicate IsValid()
      reads this
    {
      ValidSnapshot(View())
    }
  }
}
