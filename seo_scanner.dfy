/** The SEO scanner route (`POST /api/seo-scanner`): from the facts the HTML
    parser extracts from a page it builds an ordered list of issue messages
    and a score obtained by subtracting fixed deductions from 100. */
module SeoScanner {
  import opened Common
  import opened Strings
  import opened Seqs

  /** An `<img>` element; `alt` is `None` when the attribute is absent. */
  datatype Image = Image(src: Option<string>, alt: Option<string>)

  /** An `<a>` element; `href` is `None` when the attribute is absent. */
  datatype Anchor = Anchor(href: Option<string>)

  /** What the parser reports about the fetched page. */
  datatype Page = Page(
    title: string,                  // text of the title element(s), '' if none
    metaDescription: Option<string>, // content of meta[name="description"]
    h1Count: nat,
    h2Count: nat,
    images: seq<Image>,
    anchors: seq<Anchor>)

  /** The signals the scorer works on (the constants of lines 22-30). */
  datatype Findings = Findings(
    title: string,
    metaDescription: Option<string>,
    h1: nat,
    h2: nat,
    images: nat,
    withoutAlt: nat,
    links: nat,
    internal: nat,
    external: nat)

  /** The JSON body of a successful scan. */
  datatype Report = Report(
    url: string,
    title: string,
    metaDescription: Option<string>,
    h1: nat,
    h2: nat,
    imagesTotal: nat,
    imagesWithoutAlt: nat,
    linksTotal: nat,
    internal: nat,
    external: nat,
    issues: seq<string>,
    score: int)

  /** What the HTTP fetch of the target page produced. */
  datatype Fetch = Fetched(origin: string, page: Page) | FetchFailed(message: string)

  datatype Outcome = Scanned(report: Report) | Rejected(failure: Failure)

  const MissingTitle := "Missing title tag"
  const MissingMeta := "Missing meta description"
  const NoH1 := "No H1 tags found"
  const MultipleH1 := "Multiple H1 tags found"

  function AltMessage(n: nat): string
  {
    DecimalString(n) + " images missing alt text"
  }

  /** `img:not([alt])`: an image counts only when the attribute is absent. */
  predicate MissingAlt(img: Image)
  {
    img.alt.None?
  }

  /** `a[href^="/"], a[href^="<origin>"]`: the union of the two selectors,
      so each anchor is counted at most once. An empty attribute-prefix
      selector matches nothing. */
  predicate IsInternal(a: Anchor, origin: string)
  {
    a.href.Some? && (StartsWith(a.href.value, "/") || (origin != "" && StartsWith(a.href.value, origin)))
  }

  function Extract(page: Page, origin: string): (f: Findings)
    ensures f.withoutAlt <= f.images == |page.images|
    ensures f.internal + f.external == f.links == |page.anchors|
    ensures f.title == page.title && f.metaDescription == page.metaDescription
    ensures f.h1 == page.h1Count && f.h2 == page.h2Count
  {
    var internal := Count(page.anchors, a => IsInternal(a, origin));
    Findings(
      page.title, page.metaDescription, page.h1Count, page.h2Count,
      |page.images|, Count(page.images, MissingAlt),
      |page.anchors|, internal, |page.anchors| - internal)
  }

  /** `external` counts exactly the anchors that are not internal, among
      them every anchor without an href. */
  lemma ExternalAreTheRest(page: Page, origin: string)
    ensures Extract(page, origin).external
      == Count(page.anchors, (a: Anchor) => !IsInternal(a, origin))
  {
    CountComplement(page.anchors, a => IsInternal(a, origin), (a: Anchor) => !IsInternal(a, origin));
  }

  /** An anchor with no href is always counted as external. */
  lemma AnchorWithoutHrefIsExternal(page: Page, origin: string)
    ensures var more := page.(anchors := page.anchors + [Anchor(None)]);
      Extract(more, origin).internal == Extract(page, origin).internal
      && Extract(more, origin).external == Extract(page, origin).external + 1
  {
    CountConcat(page.anchors, [Anchor(None)], a => IsInternal(a, origin));
  }

  /** An image with `alt=""` has the attribute, so it is not counted as
      missing alt text; an image with no alt attribute is. */
  lemma EmptyAltIsNotMissing(page: Page, src: Option<string>)
    ensures var more := page.(images := page.images + [Image(src, Some(""))]);
      Extract(more, "").withoutAlt == Extract(page, "").withoutAlt
    ensures var more := page.(images := page.images + [Image(src, None)]);
      Extract(more, "").withoutAlt == Extract(page, "").withoutAlt + 1
  {
    CountConcat(page.images, [Image(src, Some(""))], MissingAlt);
    CountConcat(page.images, [Image(src, None)], MissingAlt);
  }

  /** One row of the deduction table: whether it applies, the issue message
      it adds (the two link rows add none) and the points it costs. */
  datatype Rule = Rule(applies: bool, message: Option<string>, points: nat)

  function Min(a: int, b: int): int { if a <= b then a else b }

  /** The deduction table, in the order the issues are reported. */
  function Rules(f: Findings): (rs: seq<Rule>)
    ensures |rs| == 7
    ensures rs[0].message.Some? && rs[1].message.Some? && rs[2].message.Some?
    ensures rs[3].message.Some? && rs[4].message.Some?
    ensures rs[5].message.None? && rs[6].message.None?
  {
    [ Rule(f.title == "", Some(MissingTitle), 20),
      Rule(!Truthy(f.metaDescription), Some(MissingMeta), 15),
      Rule(f.h1 == 0, Some(NoH1), 15),
      Rule(f.h1 > 1, Some(MultipleH1), 10),
      Rule(f.withoutAlt > 0, Some(AltMessage(f.withoutAlt)), Min(10, 2 * f.withoutAlt)),
      Rule(f.internal == 0, None, 10),
      Rule(f.external == 0, None, 10) ]
  }

  /** What one row contributes to the issue list and to the deduction. */
  function Said(rule: Rule): seq<string>
  {
    if rule.applies && rule.message.Some? then [rule.message.value] else []
  }

  function Points(rule: Rule): nat
  {
    if rule.applies then rule.points else 0
  }

  /** The messages of the applicable rows, in table order (each row's
      message is pushed after those of the rows before it). */
  function Messages(rules: seq<Rule>): (ms: seq<string>)
    ensures |ms| <= |rules|
    ensures ms == [] <==> forall i :: 0 <= i < |rules| && rules[i].applies ==> rules[i].message.None?
  {
    if rules == [] then [] else Messages(rules[..|rules| - 1]) + Said(rules[|rules| - 1])
  }

  /** The sum of the points of the applicable rows. */
  function Deduction(rules: seq<Rule>): (d: nat)
    ensures d == 0 <==> forall i :: 0 <= i < |rules| && rules[i].applies ==> rules[i].points == 0
  {
    if rules == [] then 0 else Points(rules[0]) + Deduction(rules[1..])
  }

  /** The table has seven rows; both folds over it written out row by row. */
  lemma Unfold(f: Findings)
    ensures var rs := Rules(f);
      && Messages(rs) == Said(rs[0]) + Said(rs[1]) + Said(rs[2]) + Said(rs[3]) + Said(rs[4])
      && Deduction(rs) == Points(rs[0]) + Points(rs[1]) + Points(rs[2]) + Points(rs[3])
                          + Points(rs[4]) + Points(rs[5]) + Points(rs[6])
  {
    UnfoldMessages(f);
    UnfoldDeduction(f);
  }

  lemma {:induction false} UnfoldMessages(f: Findings)
    ensures var rs := Rules(f);
      Messages(rs) == Said(rs[0]) + Said(rs[1]) + Said(rs[2]) + Said(rs[3]) + Said(rs[4])
  {
    var rs := Rules(f);
    assert Messages(rs[..0]) == [];
    assert Messages(rs[..1]) == Said(rs[0]) by { assert rs[..1][..0] == rs[..0]; }
    assert Messages(rs[..2]) == Messages(rs[..1]) + Said(rs[1]) by { assert rs[..2][..1] == rs[..1]; }
    assert Messages(rs[..3]) == Messages(rs[..2]) + Said(rs[2]) by { assert rs[..3][..2] == rs[..2]; }
    assert Messages(rs[..4]) == Messages(rs[..3]) + Said(rs[3]) by { assert rs[..4][..3] == rs[..3]; }
    assert Messages(rs[..5]) == Messages(rs[..4]) + Said(rs[4]) by { assert rs[..5][..4] == rs[..4]; }
    assert Messages(rs[..6]) == Messages(rs[..5]) by { assert rs[..6][..5] == rs[..5]; }
    assert rs[..7] == rs;
    assert Messages(rs) == Messages(rs[..6]) by { assert rs[..6] == rs[..|rs| - 1]; }
  }

  lemma {:induction false} UnfoldDeduction(f: Findings)
    ensures var rs := Rules(f);
      Deduction(rs) == Points(rs[0]) + Points(rs[1]) + Points(rs[2]) + Points(rs[3])
                       + Points(rs[4]) + Points(rs[5]) + Points(rs[6])
  {
    var rs := Rules(f);
    assert Deduction(rs[7..]) == 0;
    assert Deduction(rs[6..]) == Points(rs[6]) + Deduction(rs[7..]);
    assert Deduction(rs[5..]) == Points(rs[5]) + Deduction(rs[6..]);
    assert Deduction(rs[4..]) == Points(rs[4]) + Deduction(rs[5..]);
    assert Deduction(rs[3..]) == Points(rs[3]) + Deduction(rs[4..]);
    assert Deduction(rs[2..]) == Points(rs[2]) + Deduction(rs[3..]);
    assert Deduction(rs[1..]) == Points(rs[1]) + Deduction(rs[2..]);
  }

  /** Lines 33-48 as the source runs them: five guarded pushes onto `issues`,
      then seven guarded subtractions from `score`, and the final clamp. */
  method Score(url: string, f: Findings) returns (r: Report)
    ensures r.issues == Messages(Rules(f))
    ensures r.score == 100 - Deduction(Rules(f))
    ensures 20 <= r.score <= 100
    ensures |r.issues| <= 4
    ensures r.score == 100 <==> r.issues == [] && f.internal > 0 && f.external > 0
    ensures r.url == url && r.title == f.title && r.metaDescription == f.metaDescription
    ensures r.h1 == f.h1 && r.h2 == f.h2
    ensures r.imagesTotal == f.images && r.imagesWithoutAlt == f.withoutAlt
    ensures r.linksTotal == f.links && r.internal == f.internal && r.external == f.external
  {
    ghost var rs := Rules(f);
    Unfold(f);
    var issues: seq<string> := [];
    if f.title == "" { issues := issues + [MissingTitle]; }
    assert issues == Said(rs[0]);
    if !Truthy(f.metaDescription) { issues := issues + [MissingMeta]; }
    assert issues == Said(rs[0]) + Said(rs[1]);
    if f.h1 == 0 { issues := issues + [NoH1]; }
    assert issues == Said(rs[0]) + Said(rs[1]) + Said(rs[2]);
    if f.h1 > 1 { issues := issues + [MultipleH1]; }
    assert issues == Said(rs[0]) + Said(rs[1]) + Said(rs[2]) + Said(rs[3]);
    if f.withoutAlt > 0 { issues := issues + [AltMessage(f.withoutAlt)]; }
    assert issues == Messages(rs);

    var score := 100;
    if f.title == "" { score := score - 20; }
    if !Truthy(f.metaDescription) { score := score - 15; }
    assert score == 100 - Points(rs[0]) - Points(rs[1]);
    if f.h1 == 0 { score := score - 15; }
    if f.h1 > 1 { score := score - 10; }
    assert score == 100 - Points(rs[0]) - Points(rs[1]) - Points(rs[2]) - Points(rs[3]);
    if f.withoutAlt > 0 { score := score - Min(10, f.withoutAlt * 2); }
    if f.internal == 0 { score := score - 10; }
    if f.external == 0 { score := score - 10; }
    assert score == 100 - Deduction(rs);

    DeductionBounds(f);
    PerfectScore(f);
    r := Report(url, f.title, f.metaDescription, f.h1, f.h2, f.images, f.withoutAlt,
                f.links, f.internal, f.external, issues, if score < 0 then 0 else score);
  }

  /** The route: a missing `url` is a 400 and nothing is fetched; a failed
      fetch is a 500 carrying the error's message; otherwise the report. */
  method Post(url: Option<string>, fetch: Fetch) returns (out: Outcome)
    ensures !Truthy(url) ==> out == Rejected(Failure(400, "URL is required"))
    ensures Truthy(url) && fetch.FetchFailed? ==>
      out == Rejected(Failure(500, if fetch.message != "" then fetch.message else "Failed to analyze URL"))
    ensures Truthy(url) && fetch.Fetched? ==>
      var f := Extract(fetch.page, fetch.origin);
      out == Scanned(Report(url.value, f.title, f.metaDescription, f.h1, f.h2, f.images, f.withoutAlt,
                            f.links, f.internal, f.external,
                            Messages(Rules(f)), 100 - Deduction(Rules(f))))
    ensures Truthy(url) && fetch.Fetched? ==>
      && 20 <= out.report.score <= 100
      && out.report.imagesTotal == |fetch.page.images| && out.report.linksTotal == |fetch.page.anchors|
      && out.report.internal + out.report.external == out.report.linksTotal
  {
    if !Truthy(url) {
      return Rejected(Failure(400, "URL is required"));
    }
    match fetch
    case FetchFailed(m) =>
      out := Rejected(Failure(500, if m != "" then m else "Failed to analyze URL"));
    case Fetched(origin, page) =>
      var report := Score(url.value, Extract(page, origin));
      out := Scanned(report);
  }

  /** "No H1" and "Multiple H1" exclude each other, so at most 80 points are
      ever deducted and the clamp at 0 never acts. */
  lemma DeductionBounds(f: Findings)
    ensures Deduction(Rules(f)) <= 80
    ensures |Messages(Rules(f))| <= 4
    ensures !(NoH1 in Messages(Rules(f)) && MultipleH1 in Messages(Rules(f)))
  {
    Unfold(f);
    MessagesShape(f);
  }

  /** The issue list spelled out: the four textual checks in table order. */
  lemma MessagesShape(f: Findings)
    ensures Messages(Rules(f))
      == (if f.title == "" then [MissingTitle] else [])
       + (if !Truthy(f.metaDescription) then [MissingMeta] else [])
       + (if f.h1 == 0 then [NoH1] else [])
       + (if f.h1 > 1 then [MultipleH1] else [])
       + (if f.withoutAlt > 0 then [AltMessage(f.withoutAlt)] else [])
  {
    Unfold(f);
  }

  /** Each textual check is reported exactly when its condition holds. */
  lemma IssueIff(f: Findings)
    ensures MissingTitle in Messages(Rules(f)) <==> f.title == ""
    ensures MissingMeta in Messages(Rules(f)) <==> !Truthy(f.metaDescription)
    ensures NoH1 in Messages(Rules(f)) <==> f.h1 == 0
    ensures MultipleH1 in Messages(Rules(f)) <==> f.h1 > 1
    ensures AltMessage(f.withoutAlt) in Messages(Rules(f)) <==> f.withoutAlt > 0
  {
    MessagesShape(f);
    var n := AltMessage(f.withoutAlt);
    assert n[|n| - 1] == 't';
    assert MissingTitle[|MissingTitle| - 1] == 'g';
    assert MissingMeta[|MissingMeta| - 1] == 'n';
    assert NoH1[|NoH1| - 1] == 'd' && MultipleH1[|MultipleH1| - 1] == 'd';
    assert MissingTitle[0] == 'M' && MissingMeta[0] == 'M' && MultipleH1[0] == 'M' && NoH1[0] == 'N';
    assert MissingTitle[1] == 'i' && MissingMeta[1] == 'i' && MultipleH1[1] == 'u';
    assert MissingTitle[8] == 't' && MissingMeta[8] == 'm';
    assert '0' <= n[0] <= '9';
  }

  /** The score is 100 exactly when no issue is reported and the page has
      both an internal and an external link: the link checks cost points
      without adding a message. */
  lemma PerfectScore(f: Findings)
    ensures Deduction(Rules(f)) == 0
      <==> Messages(Rules(f)) == [] && f.internal > 0 && f.external > 0
  {
    Unfold(f);
    MessagesShape(f);
  }

  /** A page with no title, no meta description and no h1 loses at least 50. */
  lemma BarePageScoresAtMost50(f: Findings)
    requires f.title == "" && f.metaDescription.None? && f.h1 == 0
    ensures 100 - Deduction(Rules(f)) <= 50
  {
    Unfold(f);
  }
}
