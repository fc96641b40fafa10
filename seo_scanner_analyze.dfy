/** The analysis route (`POST /api/seo-scanner/analyze`): it builds an
    analysis of the url (a fixed sample) and persists a summary of it whose
    counts are derived from the analysis' lists. */
module SeoScannerAnalyze {
  import opened Common
  import opened Strings
  import opened Seqs

  datatype Image = Image(src: string, alt: string)
  datatype Link = Link(href: string, text: string)
  datatype Issue = Issue(kind: string, message: string)

  datatype Analysis = Analysis(
    url: string,
    title: string,
    metaDescription: string,
    h1Tags: seq<string>,
    images: seq<Image>,
    links: seq<Link>,
    issues: seq<Issue>,
    score: int)

  /** The `seoScan` record written to the store; the JSON-encoded columns
      are kept as their decoded values. */
  datatype ScanRecord = ScanRecord(
    userId: string,
    url: string,
    title: string,
    metaDescription: string,
    h1: nat,
    imagesTotal: nat,
    withoutAlt: nat,
    linksTotal: nat,
    internal: nat,
    external: nat,
    issues: seq<string>,
    score: int)

  /** `!img.alt`: an empty alt text counts as missing. */
  predicate AltMissing(img: Image)
  {
    img.alt == ""
  }

  predicate IsInternal(l: Link)
  {
    StartsWith(l.href, "/")
  }

  predicate IsExternal(l: Link)
  {
    !StartsWith(l.href, "/")
  }

  function Messages(issues: seq<Issue>): (r: seq<string>)
    ensures |r| == |issues|
    ensures forall i :: 0 <= i < |issues| ==> r[i] == issues[i].message
  {
    seq(|issues|, i requires 0 <= i < |issues| => issues[i].message)
  }

  /** Lines 52-69: the record persisted for an analysis. */
  function Summarize(userId: string, a: Analysis): (r: ScanRecord)
    ensures r.url == a.url && r.title == a.title && r.metaDescription == a.metaDescription
    ensures r.userId == userId
    ensures r.h1 == |a.h1Tags| && r.score == a.score
    ensures r.imagesTotal == |a.images| && r.linksTotal == |a.links|
    ensures r.withoutAlt <= r.imagesTotal
    ensures r.internal + r.external == r.linksTotal
    ensures r.issues == Messages(a.issues)
  {
    CountComplement(a.links, IsInternal, IsExternal);
    ScanRecord(
      userId, a.url, a.title, a.metaDescription,
      |a.h1Tags|,
      |a.images|, Count(a.images, AltMissing),
      |a.links|, Count(a.links, IsInternal), Count(a.links, IsExternal),
      Messages(a.issues),
      a.score)
  }

  /** The persisted counts are non-zero exactly when such an image or link
      exists. */
  lemma SummaryCounts(userId: string, a: Analysis)
    ensures Summarize(userId, a).withoutAlt > 0 <==> exists i :: 0 <= i < |a.images| && a.images[i].alt == ""
    ensures Summarize(userId, a).internal > 0 <==> exists i :: 0 <= i < |a.links| && StartsWith(a.links[i].href, "/")
    ensures Summarize(userId, a).external > 0 <==> exists i :: 0 <= i < |a.links| && !StartsWith(a.links[i].href, "/")
  {
    CountPositive(a.images, AltMissing);
    CountPositive(a.links, IsInternal);
    CountPositive(a.links, IsExternal);
    assert forall i :: 0 <= i < |a.images| ==> (AltMissing(a.images[i]) <==> a.images[i].alt == "");
  }

  /** The analysis the route produces for any url (lines 24-42). */
  function Sample(url: string): Analysis
  {
    Analysis(
      url, "Sample Title", "Sample Description",
      ["H1 Tag 1", "H1 Tag 2"],
      [Image("image1.jpg", "Image 1"), Image("image2.jpg", "")],
      [Link("https://example.com/1", "Link 1"), Link("https://example.com/2", "Link 2")],
      [Issue("warning", "Missing meta description"), Issue("error", "Image missing alt text")],
      85)
  }

  /** The summary persisted for the sample: one image without alt, no
      internal link, two external ones, two h1 tags, score 85. */
  lemma SampleSummary(url: string)
    ensures var r := Summarize("current-user-id", Sample(url));
      && r.h1 == 2 && r.imagesTotal == 2 && r.withoutAlt == 1
      && r.linksTotal == 2 && r.internal == 0 && r.external == 2
      && r.issues == ["Missing meta description", "Image missing alt text"]
      && r.score == 85
  {
    var a := Sample(url);
    assert !AltMissing(a.images[0]) && AltMissing(a.images[1]);
    assert a.images[1..][1..] == [];
    assert a.links[0].href[..1] == "h" && a.links[1].href[..1] == "h";
    assert !IsInternal(a.links[0]) && !IsInternal(a.links[1]);
    assert a.links[1..][1..] == [];
  }

  datatype Outcome = Analyzed(analysis: Analysis, saved: ScanRecord) | Rejected(failure: Failure)

  /** The route: a missing url is a 400; a failed store write (`writeOk`
      false) is a 500 with a fixed message; otherwise the analysis is
      returned and its summary persisted under the fixed user id. */
  function Post(url: Option<string>, writeOk: bool): (out: Outcome)
    ensures !Truthy(url) ==> out == Rejected(Failure(400, "URL is required"))
    ensures Truthy(url) && !writeOk ==> out == Rejected(Failure(500, "Failed to analyze URL"))
    ensures Truthy(url) && writeOk ==>
      && out.Analyzed? && out.analysis.url == url.value
      && out.saved.score == out.analysis.score
      && out.saved.issues == Messages(out.analysis.issues)
      && out.saved.h1 == |out.analysis.h1Tags|
    ensures Truthy(url) && writeOk ==>
      out == Analyzed(Sample(url.value), Summarize("current-user-id", Sample(url.value)))
  {
    if !Truthy(url) then Rejected(Failure(400, "URL is required"))
    else if !writeOk then Rejected(Failure(500, "Failed to analyze URL"))
    else
      var a := Sample(url.value);
      Analyzed(a, Summarize("current-user-id", a))
  }
}
