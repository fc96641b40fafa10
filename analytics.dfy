/** The chart data (`GET /api/analytics`): a 30-day date axis ending today
    and, for each day, a value from the first of the user's analyses made
    that day, or null. Days are numbered (day 0 = 1970-01-01, UTC), which
    is what the `YYYY-MM-DD` keys of the source compare. */
module Analytics {
  import opened Common

  /** A scan row: its UTC day, owner and chart fields. */
  datatype ScanRow = ScanRow(userId: string, day: int, averageRanking: Option<int>,
                             organicTraffic: Option<int>, pageSpeedScore: Option<int>)

  datatype CitationRow = CitationRow(userId: string, day: int, totalBacklinks: Option<int>)

  /** Lines 66-70: the thirty days up to and including today. */
  function Dates(today: int): (d: seq<int>)
    ensures |d| == 30
    ensures d[29] == today
    ensures forall i :: 0 < i < 30 ==> d[i] == d[i - 1] + 1
  {
    seq(30, i => today - 29 + i)
  }

  /** `rows.find(r => r.day === day)`: the index of the first row of that
      day. */
  function FirstOn(days: seq<int>, day: int): (k: Option<nat>)
    ensures k.Some? ==> k.value < |days| && days[k.value] == day
    ensures k.Some? ==> forall j :: 0 <= j < k.value ==> days[j] != day
    ensures k.None? ==> forall j :: 0 <= j < |days| ==> days[j] != day
  {
    if days == [] then None
    else if days[0] == day then Some(0)
    else match FirstOn(days[1..], day)
      case None => None
      case Some(k) => Some(k + 1)
  }

  function ScanDay(r: ScanRow): int { r.day }
  function CitationDay(r: CitationRow): int { r.day }

  /** The day of each row, in order. */
  function DaysOf<T>(rows: seq<T>, dayOf: T -> int): (d: seq<int>)
    ensures |d| == |rows| && forall i :: 0 <= i < |rows| ==> d[i] == dayOf(rows[i])
  {
    seq(|rows|, i requires 0 <= i < |rows| => dayOf(rows[i]))
  }

  /** One chart series: for each date, `value` of the first row made that
      day, or null. */
  function Series<T>(dates: seq<int>, rows: seq<T>, dayOf: T -> int, value: T -> Option<int>)
    : (s: seq<Option<int>>)
    ensures |s| == |dates|
  {
    seq(|dates|, i requires 0 <= i < |dates| =>
      match FirstOn(DaysOf(rows, dayOf), dates[i])
      case None => None
      case Some(k) => value(rows[k]))
  }

  /** Entry `i` is the value of the first row made on `dates[i]`, and null
      when there is none. */
  lemma SeriesEntry<T>(dates: seq<int>, rows: seq<T>, dayOf: T -> int, value: T -> Option<int>, i: int)
    requires 0 <= i < |dates|
    ensures (forall k :: 0 <= k < |rows| ==> dayOf(rows[k]) != dates[i]) ==>
      Series(dates, rows, dayOf, value)[i].None?
    ensures forall k :: (0 <= k < |rows| && dayOf(rows[k]) == dates[i]
                         && forall j :: 0 <= j < k ==> dayOf(rows[j]) != dates[i]) ==>
      Series(dates, rows, dayOf, value)[i] == value(rows[k])
  {
    var days := DaysOf(rows, dayOf);
    var f := FirstOn(days, dates[i]);
    if f.None? {
      assert forall k :: 0 <= k < |rows| ==> dayOf(rows[k]) != dates[i] by {
        forall k | 0 <= k < |rows| ensures dayOf(rows[k]) != dates[i] {
          assert days[k] == dayOf(rows[k]);
        }
      }
    } else {
      assert dayOf(rows[f.value]) == dates[i];
    }
  }

  /** The backlink chart shows each citation check's backlink total. */
  function Backlinks(r: CitationRow): Option<int> { r.totalBacklinks }

  /** When two scans fall on one day, the earlier one in query order
      (ascending creation time) is the one charted. */
  lemma FirstScanWins(today: int, a: ScanRow, b: ScanRow, field: ScanRow -> Option<int>)
    requires a.day == b.day == today
    ensures Series(Dates(today), [a, b], ScanDay, field)[29] == field(a)
  {
    SeriesEntry(Dates(today), [a, b], ScanDay, field, 29);
    assert Dates(today)[29] == today && [a, b][0] == a;
  }

  datatype Charts = Charts(
    dates: seq<int>,
    keywordRankings: seq<Option<int>>,
    backlinks: seq<Option<int>>,
    organicTraffic: seq<Option<int>>,
    pageSpeed: seq<Option<int>>)

  /** The claims a verified token carries: login signs `userId`; the route
      reads `id`. */
  datatype TokenClaims = TokenClaims(id: Option<string>, userId: Option<string>)

  function ScanOwner(r: ScanRow): string { r.userId }
  function CitationOwner(r: CitationRow): string { r.userId }

  /** The store's `where: { userId }`: an undefined id drops the filter. */
  function OwnedBy<T>(owner: Option<string>, rows: seq<T>, ownerOf: T -> string): (r: seq<T>)
    ensures owner.None? ==> r == rows
    ensures owner.Some? ==> forall i :: 0 <= i < |r| ==> ownerOf(r[i]) == owner.value
    ensures owner.Some? ==> forall x :: x in rows && ownerOf(x) == owner.value ==> x in r
  {
    if owner.None? then rows
    else if rows == [] then []
    else (if ownerOf(rows[0]) == owner.value then [rows[0]] else []) + OwnedBy(owner, rows[1..], ownerOf)
  }

  /** The scans charted as written: filtered by the `id` claim. */
  function ChartedScansAsWritten(claims: TokenClaims, rows: seq<ScanRow>): (r: seq<ScanRow>)
    ensures claims.id.None? ==> r == rows
    ensures claims.id.Some? ==> forall i :: 0 <= i < |r| ==> r[i].userId == claims.id.value
  {
    OwnedBy(claims.id, rows, ScanOwner)
  }

  /** The scans charted as intended: filtered by the `userId` claim that
      login signs. */
  function ChartedScans(claims: TokenClaims, rows: seq<ScanRow>): (r: seq<ScanRow>)
    ensures claims.userId.Some? ==> forall i :: 0 <= i < |r| ==> r[i].userId == claims.userId.value
  {
    OwnedBy(claims.userId, rows, ScanOwner)
  }

  /** A login token has no `id` claim, so another user's scan is charted. */
  lemma OtherUsersLeakAsWritten(me: string, other: ScanRow)
    requires other.userId != me
    ensures other in ChartedScansAsWritten(TokenClaims(None, Some(me)), [other])
    ensures other !in ChartedScans(TokenClaims(None, Some(me)), [other])
  {
    assert [other][1..] == [];
    assert OwnedBy(Some(me), [other][1..], ScanOwner) == [];
    assert OwnedBy(Some(me), [other], ScanOwner) == [];
    assert ChartedScans(TokenClaims(None, Some(me)), [other]) == [];
  }

  datatype Outcome = Charted(charts: Charts) | Rejected(failure: Failure)

  function Ranking(r: ScanRow): Option<int> { r.averageRanking }
  function Traffic(r: ScanRow): Option<int> { r.organicTraffic }
  function Speed(r: ScanRow): Option<int> { r.pageSpeedScore }

  /** Lines 66-94: the date axis and the four series, each entry taken
      from the first row of that day. */
  function ChartsOver(today: int, scans: seq<ScanRow>, citations: seq<CitationRow>): (c: Charts)
    ensures c.dates == Dates(today)
    ensures |c.keywordRankings| == |c.backlinks| == |c.organicTraffic| == |c.pageSpeed| == 30
    ensures c.keywordRankings == Series(Dates(today), scans, ScanDay, Ranking)
    ensures c.organicTraffic == Series(Dates(today), scans, ScanDay, Traffic)
    ensures c.pageSpeed == Series(Dates(today), scans, ScanDay, Speed)
    ensures c.backlinks == Series(Dates(today), citations, CitationDay, Backlinks)
  {
    var dates := Dates(today);
    Charts(dates, Series(dates, scans, ScanDay, Ranking), Series(dates, citations, CitationDay, Backlinks),
           Series(dates, scans, ScanDay, Traffic), Series(dates, scans, ScanDay, Speed))
  }

  /** The route as written: no token is a 401; a token that fails
      verification (`claims` is `None`) a 500; otherwise the charts over
      the window's rows (`scans`, `citations`, ascending by creation time)
      filtered by the token's `id` claim, for scans and citation checks
      alike. */
  function Get(token: Option<string>, claims: Option<TokenClaims>, today: int,
               scans: seq<ScanRow>, citations: seq<CitationRow>): (out: Outcome)
    ensures !Truthy(token) ==> out == Rejected(Failure(401, "Authentication required"))
    ensures Truthy(token) && claims.None? ==> out == Rejected(Failure(500, "Failed to fetch analytics data"))
    ensures Truthy(token) && claims.Some? ==>
      && out.Charted?
      && out.charts == ChartsOver(today, ChartedScansAsWritten(claims.value, scans),
                                  OwnedBy(claims.value.id, citations, CitationOwner))
  {
    if !Truthy(token) then Rejected(Failure(401, "Authentication required"))
    else if claims.None? then Rejected(Failure(500, "Failed to fetch analytics data"))
    else Charted(ChartsOver(today, ChartedScansAsWritten(claims.value, scans),
                            OwnedBy(claims.value.id, citations, CitationOwner)))
  }

  /** The route with the evident intent: the rows of the `userId` claim
      that login signs. */
  function GetCorrected(token: Option<string>, claims: Option<TokenClaims>, today: int,
                        scans: seq<ScanRow>, citations: seq<CitationRow>): (out: Outcome)
    ensures !Truthy(token) ==> out == Rejected(Failure(401, "Authentication required"))
    ensures Truthy(token) && claims.None? ==> out == Rejected(Failure(500, "Failed to fetch analytics data"))
    ensures Truthy(token) && claims.Some? ==>
      && out.Charted?
      && out.charts == ChartsOver(today, ChartedScans(claims.value, scans),
                                  OwnedBy(claims.value.userId, citations, CitationOwner))
  {
    if !Truthy(token) then Rejected(Failure(401, "Authentication required"))
    else if claims.None? then Rejected(Failure(500, "Failed to fetch analytics data"))
    else Charted(ChartsOver(today, ChartedScans(claims.value, scans),
                            OwnedBy(claims.value.userId, citations, CitationOwner)))
  }

  /** With a login token (a `userId` claim and no `id`), the route as
      written charts every user's rows of the window. */
  lemma LoginTokenChartsEveryone(token: string, me: string, today: int,
                                 scans: seq<ScanRow>, citations: seq<CitationRow>)
    requires token != ""
    ensures Get(Some(token), Some(TokenClaims(None, Some(me))), today, scans, citations)
         == Charted(ChartsOver(today, scans, citations))
  {
  }

  /** Where the two claims agree, so do the two routes. */
  lemma GetAgrees(token: Option<string>, claims: Option<TokenClaims>, today: int,
                  scans: seq<ScanRow>, citations: seq<CitationRow>)
    requires claims.Some? ==> claims.value.id == claims.value.userId
    ensures Get(token, claims, today, scans, citations) == GetCorrected(token, claims, today, scans, citations)
  {
  }

  /** In the corrected route every charted value comes from one of the
      user's own scans. */
  lemma CorrectedChartsOwnRows(token: string, claims: TokenClaims, today: int,
                               scans: seq<ScanRow>, citations: seq<CitationRow>, i: int)
    requires token != "" && claims.userId.Some? && 0 <= i < 30
    requires GetCorrected(Some(token), Some(claims), today, scans, citations).charts.keywordRankings[i].Some?
    ensures exists k :: 0 <= k < |scans| && scans[k].userId == claims.userId.value
                        && scans[k].day == Dates(today)[i]
                        && Ranking(scans[k]) == GetCorrected(Some(token), Some(claims), today, scans, citations).charts.keywordRankings[i]
  {
    var mine := ChartedScans(claims, scans);
    var dates := Dates(today);
    var v := Series(dates, mine, ScanDay, Ranking)[i];
    SeriesEntry(dates, mine, ScanDay, Ranking, i);
    var f := FirstOn(DaysOf(mine, ScanDay), dates[i]);
    assert f.Some?;
    var x := mine[f.value];
    assert x.userId == claims.userId.value && x.day == dates[i] && Ranking(x) == v;
    ChartedScansFrom(claims, scans, x);
  }

  lemma ChartedScansFrom(claims: TokenClaims, scans: seq<ScanRow>, x: ScanRow)
    requires x in ChartedScans(claims, scans)
    ensures exists k :: 0 <= k < |scans| && scans[k] == x
  {
    OwnedBySubset(claims.userId, scans, ScanOwner);
  }

  /** Filtering keeps only rows of the input. */
  lemma {:induction false} OwnedBySubset<T>(owner: Option<string>, rows: seq<T>, ownerOf: T -> string)
    ensures forall x :: x in OwnedBy(owner, rows, ownerOf) ==> x in rows
  {
    if owner.Some? && rows != [] {
      OwnedBySubset(owner, rows[1..], ownerOf);
    }
  }
}
