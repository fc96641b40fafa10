/** The citation route (`POST /api/citation-management`): for five fixed
    platforms it looks for an anchor whose href contains the platform's
    address, records whether one was found and the href of the first such
    anchor, and scores the share of platforms found. */
module CitationManagement {
  import opened Common
  import opened Strings
  import opened Seqs

  datatype Platform = Google | Facebook | Twitter | LinkedIn | Instagram

  /** The substring of `a[href*="..."]` for each platform. */
  function Pattern(p: Platform): string
  {
    match p
    case Google => "google.com/business"
    case Facebook => "facebook.com"
    case Twitter => "twitter.com"
    case LinkedIn => "linkedin.com"
    case Instagram => "instagram.com"
  }

  datatype Citation = Citation(found: bool, url: string)

  const NotFound := Citation(false, "")

  /** The `citations` object: exactly these five keys, in this order. */
  datatype Citations = Citations(
    google: Citation, facebook: Citation, twitter: Citation,
    linkedin: Citation, instagram: Citation)
  {
    function Get(p: Platform): Citation
    {
      match p
      case Google => google
      case Facebook => facebook
      case Twitter => twitter
      case LinkedIn => linkedin
      case Instagram => instagram
    }

    function Set(p: Platform, c: Citation): (r: Citations)
      ensures r.Get(p) == c
      ensures forall q :: q != p ==> r.Get(q) == Get(q)
    {
      match p
      case Google => this.(google := c)
      case Facebook => this.(facebook := c)
      case Twitter => this.(twitter := c)
      case LinkedIn => this.(linkedin := c)
      case Instagram => this.(instagram := c)
    }
  }

  /** An anchor's href (absent: `None`) is selected by `a[href*=pat]`. */
  predicate Selects(href: Option<string>, pat: string)
  {
    href.Some? && Includes(href.value, pat)
  }

  /** The hrefs of the anchors the selector returns, in document order. */
  function Selected(hrefs: seq<Option<string>>, pat: string): (r: seq<string>)
    ensures |r| <= |hrefs|
    ensures forall i :: 0 <= i < |r| ==> Includes(r[i], pat)
  {
    if hrefs == [] then []
    else (if Selects(hrefs[0], pat) then [hrefs[0].value] else []) + Selected(hrefs[1..], pat)
  }

  /** `url` is the href of the first anchor the selector picks. */
  predicate IsFirstSelected(hrefs: seq<Option<string>>, pat: string, url: string)
  {
    exists k :: 0 <= k < |hrefs| && Selects(hrefs[k], pat) && hrefs[k].value == url
      && forall j :: 0 <= j < k ==> !Selects(hrefs[j], pat)
  }

  /** The selection is non-empty exactly when some anchor matches, and its
      first element is the href of the first matching anchor. */
  lemma {:induction false} SelectedFirst(hrefs: seq<Option<string>>, pat: string)
    ensures |Selected(hrefs, pat)| > 0 <==> exists k :: 0 <= k < |hrefs| && Selects(hrefs[k], pat)
    ensures |Selected(hrefs, pat)| > 0 ==> IsFirstSelected(hrefs, pat, Selected(hrefs, pat)[0])
  {
    if hrefs != [] {
      SelectedFirst(hrefs[1..], pat);
      if Selects(hrefs[0], pat) {
        assert IsFirstSelected(hrefs, pat, hrefs[0].value);
      } else {
        if exists k :: 0 <= k < |hrefs| && Selects(hrefs[k], pat) {
          var k :| 0 <= k < |hrefs| && Selects(hrefs[k], pat);
          assert Selects(hrefs[1..][k - 1], pat);
        }
        if exists k :: 0 <= k < |hrefs| - 1 && Selects(hrefs[1..][k], pat) {
          var k :| 0 <= k < |hrefs| - 1 && Selects(hrefs[1..][k], pat);
          assert Selects(hrefs[k + 1], pat);
        }
        if |Selected(hrefs, pat)| > 0 {
          var url := Selected(hrefs, pat)[0];
          var k :| 0 <= k < |hrefs| - 1 && Selects(hrefs[1..][k], pat) && hrefs[1..][k].value == url
            && forall j :: 0 <= j < k ==> !Selects(hrefs[1..][j], pat);
          assert forall j :: 0 <= j < k + 1 ==> !Selects(hrefs[j], pat) by {
            forall j | 0 <= j < k + 1 ensures !Selects(hrefs[j], pat) {
              if j > 0 { assert hrefs[j] == hrefs[1..][j - 1]; }
            }
          }
          assert IsFirstSelected(hrefs, pat, url);
        }
      }
    }
  }

  /** What one platform's entry must be after the scan. */
  predicate Detected(hrefs: seq<Option<string>>, p: Platform, c: Citation)
  {
    && (c.found <==> exists k :: 0 <= k < |hrefs| && Selects(hrefs[k], Pattern(p)))
    && (c.found ==> IsFirstSelected(hrefs, Pattern(p), c.url) && Includes(c.url, Pattern(p)))
    && (!c.found ==> c.url == "")
  }

  /** One of the five blocks of lines 41-74: select, and on a hit mark the
      platform found with the first href (`|| ''` never applies, as that
      href contains the pattern and so is not empty). */
  method Check(citations: Citations, p: Platform, hrefs: seq<Option<string>>) returns (r: Citations)
    requires citations.Get(p) == NotFound
    ensures Detected(hrefs, p, r.Get(p))
    ensures forall q :: q != p ==> r.Get(q) == citations.Get(q)
  {
    var links := Selected(hrefs, Pattern(p));
    SelectedFirst(hrefs, Pattern(p));
    r := citations;
    if |links| > 0 {
      var url := if links[0] != "" then links[0] else "";
      r := r.Set(p, Citation(true, url));
      var k :| 0 <= k < |hrefs| && Selects(hrefs[k], Pattern(p)) && hrefs[k].value == links[0]
        && forall j :: 0 <= j < k ==> !Selects(hrefs[j], Pattern(p));
    }
  }

  /** Lines 18-74: all five platforms start as not found, then each is
      decided on its own; one href may mark several platforms. */
  method Detect(hrefs: seq<Option<string>>) returns (c: Citations)
    ensures forall p :: Detected(hrefs, p, c.Get(p))
  {
    c := Citations(NotFound, NotFound, NotFound, NotFound, NotFound);
    c := Check(c, Google, hrefs);
    c := Check(c, Facebook, hrefs);
    c := Check(c, Twitter, hrefs);
    c := Check(c, LinkedIn, hrefs);
    c := Check(c, Instagram, hrefs);
    assert forall p :: Detected(hrefs, p, c.Get(p)) by {
      forall p ensures Detected(hrefs, p, c.Get(p)) {
        match p
        case Google =>
        case Facebook =>
        case Twitter =>
        case LinkedIn =>
        case Instagram =>
      }
    }
  }

  const AllPlatforms := [Google, Facebook, Twitter, LinkedIn, Instagram]

  /** `Object.values(citations).filter(c => c.found).length` */
  function FoundCount(c: Citations): (n: nat)
    ensures n <= 5
  {
    Count(AllPlatforms, (p: Platform) => c.Get(p).found)
  }

  /** `Math.round((found / total) * 100)` with total = 5 keys. */
  function Score(c: Citations): (s: int)
    ensures s == 20 * FoundCount(c)
    ensures 0 <= s <= 100 && s % 20 == 0
  {
    RoundDiv(100 * FoundCount(c), 5)
  }

  /** More platforms found never lowers the score. */
  lemma ScoreMonotone(c: Citations, d: Citations)
    requires forall p :: c.Get(p).found ==> d.Get(p).found
    ensures Score(c) <= Score(d)
  {
    var pc := (p: Platform) => c.Get(p).found;
    var pd := (p: Platform) => d.Get(p).found;
    assert FoundCount(c) == Count(AllPlatforms, pc);
    assert Count(AllPlatforms, pc) <= Count(AllPlatforms, pd) by {
      CountMonotone(AllPlatforms, pc, pd);
    }
  }

  lemma {:induction false} CountMonotone(s: seq<Platform>, p: Platform -> bool, q: Platform -> bool)
    requires forall x :: p(x) ==> q(x)
    ensures Count(s, p) <= Count(s, q)
  {
    if s != [] {
      CountMonotone(s[1..], p, q);
    }
  }

  /** A single href can mark two platforms at once. */
  lemma OneHrefTwoPlatforms()
    ensures var h := "facebook.com/twitter.com";
      Selects(Some(h), Pattern(Facebook)) && Selects(Some(h), Pattern(Twitter))
  {
    var h := "facebook.com/twitter.com";
    assert h[0..12] == "facebook.com" && OccursAt(h, "facebook.com", 0);
    assert h[13..24] == "twitter.com" && OccursAt(h, "twitter.com", 13);
  }

  datatype Response = Response(url: string, citations: Citations, score: int)

  datatype Outcome = Checked(response: Response) | Rejected(failure: Failure)

  /** The anchors' hrefs of the fetched page, or the fetch error message. */
  datatype Fetch = Fetched(hrefs: seq<Option<string>>) | FetchFailed(message: string)

  /** The route: a missing url is a 400; a failed fetch a 500. */
  method Post(url: Option<string>, fetch: Fetch) returns (out: Outcome)
    ensures !Truthy(url) ==> out == Rejected(Failure(400, "URL is required"))
    ensures Truthy(url) && fetch.FetchFailed? ==>
      out == Rejected(Failure(500, if fetch.message != "" then fetch.message else "Failed to analyze citations"))
    ensures Truthy(url) && fetch.Fetched? ==>
      && out.Checked? && out.response.url == url.value
      && (forall p :: Detected(fetch.hrefs, p, out.response.citations.Get(p)))
      && out.response.score == 20 * FoundCount(out.response.citations)
  {
    if !Truthy(url) {
      return Rejected(Failure(400, "URL is required"));
    }
    match fetch
    case FetchFailed(m) =>
      out := Rejected(Failure(500, if m != "" then m else "Failed to analyze citations"));
    case Fetched(hrefs) =>
      var citations := Detect(hrefs);
      out := Checked(Response(url.value, citations, Score(citations)));
  }
}
