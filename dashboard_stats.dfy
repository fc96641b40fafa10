/** The dashboard totals (`GET /api/dashboard/stats`): how many analyses a
    user has run, their rounded average score, and how many keywords and
    found citations they hold. */
module DashboardStats {
  import opened Common
  import opened Seqs
  import opened Cookies

  datatype SeoScanRow = SeoScanRow(score: int)
  /** `keywords` maps each keyword to its count. */
  datatype HeatMapRow = HeatMapRow(keywords: map<string, nat>)
  /** `citations` maps each platform to its `found` flag. */
  datatype CitationRow = CitationRow(score: int, citations: map<string, bool>)

  function SumScores(s: seq<int>): int
  {
    if s == [] then 0 else s[0] + SumScores(s[1..])
  }

  lemma {:induction false} SumScoresBounds(s: seq<int>, lo: int, hi: int)
    requires forall i :: 0 <= i < |s| ==> lo <= s[i] <= hi
    ensures lo * |s| <= SumScores(s) <= hi * |s|
  {
    if s != [] {
      SumScoresBounds(s[1..], lo, hi);
      assert lo * |s| == lo + lo * (|s| - 1);
      assert hi * |s| == hi + hi * (|s| - 1);
    }
  }

  lemma {:induction false} SumScoresConcat(s: seq<int>, t: seq<int>)
    ensures SumScores(s + t) == SumScores(s) + SumScores(t)
  {
    if s != [] {
      SumScoresConcat(s[1..], t);
      assert (s + t)[1..] == s[1..] + t;
    } else {
      assert s + t == t;
    }
  }

  /** All scored analyses: SEO scans then citation checks. Heat maps carry
      no score. */
  function Scores(seo: seq<SeoScanRow>, cit: seq<CitationRow>): (s: seq<int>)
    ensures |s| == |seo| + |cit|
    ensures forall i :: 0 <= i < |seo| ==> s[i] == seo[i].score
    ensures forall i :: |seo| <= i < |s| ==> s[i] == cit[i - |seo|].score
  {
    seq(|seo| + |cit|, i requires 0 <= i < |seo| + |cit| =>
      if i < |seo| then seo[i].score else cit[i - |seo|].score)
  }

  /** The average as written: when only heat maps exist the division is
      0 / 0, whose NaN is sent as `null` (`None`). */
  function AverageAsWritten(seo: seq<SeoScanRow>, heat: seq<HeatMapRow>, cit: seq<CitationRow>)
    : (avg: Option<int>)
    ensures avg.None? <==> |heat| > 0 && |seo| + |cit| == 0
  {
    if |seo| + |heat| + |cit| == 0 then Some(0)
    else if |seo| + |cit| == 0 then None
    else Some(RoundDiv(SumScores(Scores(seo, cit)), |seo| + |cit|))
  }

  lemma HeatMapsOnlyGiveNull()
    ensures AverageAsWritten([], [HeatMapRow(map[])], []) == None
  {
  }

  /** The average with the evident intent: 0 when no analysis carries a
      score, else the rounded mean of the scores. */
  function Average(seo: seq<SeoScanRow>, cit: seq<CitationRow>): (avg: int)
    ensures |seo| + |cit| == 0 ==> avg == 0
    ensures |seo| + |cit| > 0 ==>
      var n := |seo| + |cit|;
      2 * n * avg <= 2 * SumScores(Scores(seo, cit)) + n < 2 * n * (avg + 1)
  {
    if |seo| + |cit| == 0 then 0 else RoundDiv(SumScores(Scores(seo, cit)), |seo| + |cit|)
  }

  /** Both agree whenever some analysis carries a score. */
  lemma AverageAgrees(seo: seq<SeoScanRow>, heat: seq<HeatMapRow>, cit: seq<CitationRow>)
    requires |seo| + |cit| > 0
    ensures AverageAsWritten(seo, heat, cit) == Some(Average(seo, cit))
  {
  }

  /** Scores between 0 and 100 average to a value between 0 and 100. */
  lemma AverageInRange(seo: seq<SeoScanRow>, cit: seq<CitationRow>)
    requires forall i :: 0 <= i < |seo| ==> 0 <= seo[i].score <= 100
    requires forall i :: 0 <= i < |cit| ==> 0 <= cit[i].score <= 100
    ensures 0 <= Average(seo, cit) <= 100
  {
    var s := Scores(seo, cit);
    var n := |seo| + |cit|;
    if n > 0 {
      assert forall i :: 0 <= i < |s| ==> 0 <= s[i] <= 100 by {
        forall i | 0 <= i < |s| ensures 0 <= s[i] <= 100 {
          if i < |seo| { assert s[i] == seo[i].score; }
          else { assert s[i] == cit[i - |seo|].score; }
        }
      }
      SumScoresBounds(s, 0, 100);
      RoundedMeanInRange(SumScores(s), n, Average(seo, cit));
    }
  }

  lemma RoundedMeanInRange(total: int, n: int, avg: int)
    requires n > 0 && 0 <= total <= 100 * n
    requires 2 * n * avg <= 2 * total + n < 2 * n * (avg + 1)
    ensures 0 <= avg <= 100
  {
    assert 2 * n * 101 - 2 * n * avg == 2 * n * (101 - avg);
    assert 2 * n * (avg + 1) > 0;
  }

  /** `Object.values(c).filter(c => c.found).length` */
  function FoundCount(c: map<string, bool>): (n: nat)
    ensures n <= |c|
    ensures n == 0 <==> forall k :: k in c ==> !c[k]
  {
    var found := set k | k in c && c[k];
    assert found <= c.Keys;
    assert |found| <= |c.Keys| by { SubsetCard(found, c.Keys); }
    assert (exists k :: k in c && c[k]) ==> |found| > 0 by {
      if exists k :: k in c && c[k] {
        var k :| k in c && c[k];
        assert k in found;
      }
    }
    |found|
  }

  lemma SubsetCard<T>(a: set<T>, b: set<T>)
    requires a <= b
    ensures |a| <= |b|
  {
    assert b == a + (b - a);
  }

  /** The number of keys over all heat maps: zero exactly when every map
      is empty. */
  function KeywordTotal(heat: seq<HeatMapRow>): (n: nat)
    ensures n == 0 <==> forall i :: 0 <= i < |heat| ==> heat[i].keywords == map[]
  {
    if heat == [] then 0
    else
      assert forall i :: 1 <= i < |heat| ==> heat[i] == heat[1..][i - 1];
      |heat[0].keywords| + KeywordTotal(heat[1..])
  }

  /** The number of found platforms over all citation checks: zero exactly
      when no check found any. */
  function FoundTotal(cit: seq<CitationRow>): (n: nat)
    ensures n == 0 <==> forall i, k :: 0 <= i < |cit| && k in cit[i].citations ==> !cit[i].citations[k]
  {
    if cit == [] then 0
    else
      assert forall i :: 1 <= i < |cit| ==> cit[i] == cit[1..][i - 1];
      FoundCount(cit[0].citations) + FoundTotal(cit[1..])
  }

  /** Both totals add up over concatenated row lists, as `reduce` does. */
  lemma {:induction false} KeywordTotalAdds(h1: seq<HeatMapRow>, h2: seq<HeatMapRow>)
    ensures KeywordTotal(h1 + h2) == KeywordTotal(h1) + KeywordTotal(h2)
  {
    if h1 != [] {
      KeywordTotalAdds(h1[1..], h2);
      assert (h1 + h2)[1..] == h1[1..] + h2;
    } else {
      assert h1 + h2 == h2;
    }
  }

  lemma {:induction false} FoundTotalAdds(c1: seq<CitationRow>, c2: seq<CitationRow>)
    ensures FoundTotal(c1 + c2) == FoundTotal(c1) + FoundTotal(c2)
  {
    if c1 != [] {
      FoundTotalAdds(c1[1..], c2);
      assert (c1 + c2)[1..] == c1[1..] + c2;
    } else {
      assert c1 + c2 == c2;
    }
  }

  /** `averageScore` is `None` when the division gives NaN, which is sent
      as `null`. */
  datatype Stats = Stats(totalScans: nat, averageScore: Option<int>, totalKeywords: nat, totalCitations: nat)

  datatype Outcome = Computed(stats: Stats) | Rejected(failure: Failure) | Crashed

  /** The route as written. `verify` gives the token's user id, or `None`
      when verification throws (a 500); the rows are that user's
      analyses. */
  function Get(cookie: Option<string>, verify: string -> Option<string>,
               seo: seq<SeoScanRow>, heat: seq<HeatMapRow>, cit: seq<CitationRow>): (out: Outcome)
    ensures !HasToken(cookie) ==> out == Rejected(Failure(401, "Authentication required"))
    ensures HasToken(cookie) && verify(Token(cookie).value).None? ==> out == Crashed
    ensures HasToken(cookie) && verify(Token(cookie).value).Some? ==>
      && out.Computed?
      && out.stats.totalScans == |seo| + |heat| + |cit|
      && out.stats.averageScore == AverageAsWritten(seo, heat, cit)
      && out.stats.totalKeywords == KeywordTotal(heat)
      && out.stats.totalCitations == FoundTotal(cit)
  {
    if !HasToken(cookie) then Rejected(Failure(401, "Authentication required"))
    else if verify(Token(cookie).value).None? then Crashed
    else Computed(Stats(|seo| + |heat| + |cit|, AverageAsWritten(seo, heat, cit), KeywordTotal(heat), FoundTotal(cit)))
  }

  /** The route with the corrected average: never null. */
  function GetCorrected(cookie: Option<string>, verify: string -> Option<string>,
                        seo: seq<SeoScanRow>, heat: seq<HeatMapRow>, cit: seq<CitationRow>): (out: Outcome)
    ensures !HasToken(cookie) ==> out == Rejected(Failure(401, "Authentication required"))
    ensures HasToken(cookie) && verify(Token(cookie).value).None? ==> out == Crashed
    ensures HasToken(cookie) && verify(Token(cookie).value).Some? ==>
      && out.Computed?
      && out.stats.totalScans == |seo| + |heat| + |cit|
      && out.stats.averageScore == Some(Average(seo, cit))
      && out.stats.totalKeywords == KeywordTotal(heat)
      && out.stats.totalCitations == FoundTotal(cit)
  {
    if !HasToken(cookie) then Rejected(Failure(401, "Authentication required"))
    else if verify(Token(cookie).value).None? then Crashed
    else Computed(Stats(|seo| + |heat| + |cit|, Some(Average(seo, cit)), KeywordTotal(heat), FoundTotal(cit)))
  }

  /** The two routes answer alike unless the user has heat maps and no
      scored analysis, where the written one sends `null`. */
  lemma GetAgrees(cookie: Option<string>, verify: string -> Option<string>,
                  seo: seq<SeoScanRow>, heat: seq<HeatMapRow>, cit: seq<CitationRow>)
    ensures Get(cookie, verify, seo, heat, cit) != GetCorrected(cookie, verify, seo, heat, cit) <==>
      && HasToken(cookie) && verify(Token(cookie).value).Some?
      && |heat| > 0 && |seo| + |cit| == 0
  {
    if HasToken(cookie) && verify(Token(cookie).value).Some? && |seo| + |cit| > 0 {
      AverageAgrees(seo, heat, cit);
    }
  }
}
