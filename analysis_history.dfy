/** The dashboard's analysis history: the three history lists merged into
    one, each entry tagged with its kind, newest first; one tab per kind;
    a label per kind and a colour band per score. */
module AnalysisHistory {
  import opened Common
  import opened Seqs

  datatype Kind = Seo | HeatMap | CitationCheck

  /** A history row; `createdAt` is the creation time in milliseconds and
      `score` is absent for rows without one. */
  datatype Row = Row(id: string, url: string, createdAt: int, score: Option<int>)

  datatype Entry = Entry(row: Row, kind: Kind)

  /** `rows.map(a => ({ ...a, type: kind }))` */
  function Tag(rows: seq<Row>, kind: Kind): (r: seq<Entry>)
    ensures |r| == |rows|
    ensures forall i :: 0 <= i < |rows| ==> r[i] == Entry(rows[i], kind)
  {
    seq(|rows|, i requires 0 <= i < |rows| => Entry(rows[i], kind))
  }

  predicate NewestFirst(s: seq<Entry>)
  {
    forall i, j :: 0 <= i < j < |s| ==> s[i].row.createdAt >= s[j].row.createdAt
  }

  /** An entry no newer than `x` can follow it. */
  lemma ConsNewestFirst(x: Entry, t: seq<Entry>)
    requires NewestFirst(t)
    requires forall y :: y in t ==> y.row.createdAt <= x.row.createdAt
    ensures NewestFirst([x] + t)
  {
    var r := [x] + t;
    forall i, j | 0 <= i < j < |r| ensures r[i].row.createdAt >= r[j].row.createdAt {
      if i == 0 {
        assert r[j] == t[j - 1] && r[j] in t;
      } else {
        assert r[i] == t[i - 1] && r[j] == t[j - 1];
      }
    }
  }

  /** Puts `e` in front of the first entry that is not newer, so among
      equal times the entry inserted later stays in front. */
  function Insert(e: Entry, s: seq<Entry>): (r: seq<Entry>)
    ensures multiset(r) == multiset(s) + multiset{e}
    ensures |r| == |s| + 1
  {
    if s == [] || s[0].row.createdAt <= e.row.createdAt then [e] + s
    else
      assert s == [s[0]] + s[1..];
      [s[0]] + Insert(e, s[1..])
  }

  lemma {:induction false} InsertNewestFirst(e: Entry, s: seq<Entry>)
    requires NewestFirst(s)
    ensures NewestFirst(Insert(e, s))
  {
    if s == [] || s[0].row.createdAt <= e.row.createdAt {
      forall y | y in s ensures y.row.createdAt <= e.row.createdAt {
        var k :| 0 <= k < |s| && s[k] == y;
        assert s[0].row.createdAt >= s[k].row.createdAt;
      }
      ConsNewestFirst(e, s);
    } else {
      var t := Insert(e, s[1..]);
      InsertNewestFirst(e, s[1..]);
      forall y | y in t ensures y.row.createdAt <= s[0].row.createdAt {
        assert y in multiset(t);
        assert y == e || y in multiset(s[1..]);
        if y != e {
          var k :| 0 <= k < |s[1..]| && s[1..][k] == y;
          assert s[k + 1] == y;
        }
      }
      ConsNewestFirst(s[0], t);
    }
  }

  /** The comparator `b.createdAt - a.createdAt` under a stable sort, as an
      insertion sort from the back. */
  function SortNewestFirst(s: seq<Entry>): (r: seq<Entry>)
    ensures NewestFirst(r)
    ensures multiset(r) == multiset(s)
    ensures |r| == |s|
  {
    if s == [] then []
    else
      assert s == [s[0]] + s[1..];
      var t := SortNewestFirst(s[1..]);
      InsertNewestFirst(s[0], t);
      Insert(s[0], t)
  }

  /** Lines 54-58: the merged, sorted history. */
  function Merge(seo: seq<Row>, heat: seq<Row>, cit: seq<Row>): (r: seq<Entry>)
    ensures |r| == |seo| + |heat| + |cit|
    ensures NewestFirst(r)
    ensures multiset(r) == multiset(Tag(seo, Seo) + Tag(heat, HeatMap) + Tag(cit, CitationCheck))
  {
    SortNewestFirst(Tag(seo, Seo) + Tag(heat, HeatMap) + Tag(cit, CitationCheck))
  }

  function IsKind(kind: Kind): Entry -> bool
  {
    (e: Entry) => e.kind == kind
  }

  /** `analyses.filter(a => a.type === kind)` */
  function Tab(analyses: seq<Entry>, kind: Kind): seq<Entry>
  {
    Filter(analyses, IsKind(kind))
  }

  /** A filter keeps, of each value, all copies that pass and none that
      fail. */
  lemma {:induction false} FilterCounts<T>(s: seq<T>, p: T -> bool, x: T)
    ensures multiset(Filter(s, p))[x] == if p(x) then multiset(s)[x] else 0
  {
    if s != [] {
      FilterCounts(s[1..], p, x);
      assert s == [s[0]] + s[1..];
    }
  }

  /** A filter of a sorted list is sorted. */
  lemma {:induction false} FilterNewestFirst(s: seq<Entry>, p: Entry -> bool)
    requires NewestFirst(s)
    ensures NewestFirst(Filter(s, p))
  {
    if s != [] {
      assert NewestFirst(s[1..]);
      FilterNewestFirst(s[1..], p);
      var t := Filter(s[1..], p);
      if p(s[0]) {
        forall y | y in t ensures y.row.createdAt <= s[0].row.createdAt {
          FilterMembers(s[1..], p, y);
          var k :| 0 <= k < |s[1..]| && s[1..][k] == y;
          assert s[k + 1] == y;
        }
        ConsNewestFirst(s[0], t);
      }
    }
  }

  /** Each tab of the merged history lists exactly the rows of one kind,
      each once per occurrence in its list, newest first. */
  lemma TabHoldsOneKind(seo: seq<Row>, heat: seq<Row>, cit: seq<Row>, kind: Kind)
    ensures var t := Tab(Merge(seo, heat, cit), kind);
      && NewestFirst(t)
      && (forall i :: 0 <= i < |t| ==> t[i].kind == kind)
      && multiset(t) == multiset(Tag(Rows(seo, heat, cit, kind), kind))
  {
    var p := IsKind(kind);
    var m := Merge(seo, heat, cit);
    var all := Tag(seo, Seo) + Tag(heat, HeatMap) + Tag(cit, CitationCheck);
    FilterNewestFirst(m, p);
    FilterOfTags(seo, heat, cit, kind);
    forall x ensures multiset(Filter(m, p))[x] == multiset(Filter(all, p))[x] {
      FilterCounts(m, p, x);
      FilterCounts(all, p, x);
    }
    assert multiset(Filter(m, p)) == multiset(Filter(all, p));
  }

  /** The list a kind's rows come from. */
  function Rows(seo: seq<Row>, heat: seq<Row>, cit: seq<Row>, kind: Kind): seq<Row>
  {
    match kind
    case Seo => seo
    case HeatMap => heat
    case CitationCheck => cit
  }

  /** Filtering the tagged lists by kind leaves that kind's list. */
  lemma FilterOfTags(seo: seq<Row>, heat: seq<Row>, cit: seq<Row>, kind: Kind)
    ensures Filter(Tag(seo, Seo) + Tag(heat, HeatMap) + Tag(cit, CitationCheck), IsKind(kind))
         == Tag(Rows(seo, heat, cit, kind), kind)
  {
    var p := IsKind(kind);
    var a, b, c := Tag(seo, Seo), Tag(heat, HeatMap), Tag(cit, CitationCheck);
    FilterConcat(a + b, c, p);
    FilterConcat(a, b, p);
    var fa, fb, fc := Filter(a, p), Filter(b, p), Filter(c, p);
    assert Filter(a + b + c, p) == fa + fb + fc;
    FilterTag(seo, Seo, kind);
    FilterTag(heat, HeatMap, kind);
    FilterTag(cit, CitationCheck, kind);
    match kind
    case Seo =>
      assert fa == a && fb == [] && fc == [];
      assert fa + fb + fc == a;
    case HeatMap =>
      assert fa == [] && fb == b && fc == [];
      assert fa + fb + fc == b;
    case CitationCheck =>
      assert fa == [] && fb == [] && fc == c;
      assert fa + fb + fc == c;
  }

  lemma {:induction false} FilterTag(rows: seq<Row>, k: Kind, kind: Kind)
    ensures Filter(Tag(rows, k), IsKind(kind)) == if k == kind then Tag(rows, k) else []
  {
    var t, p := Tag(rows, k), IsKind(kind);
    if rows == [] {
      assert t == [];
    } else {
      FilterTag(rows[1..], k, kind);
      assert t[0] == Entry(rows[0], k);
      assert t[1..] == Tag(rows[1..], k);
      if k == kind {
        assert p(t[0]);
        assert Filter(t, p) == [t[0]] + Filter(t[1..], p);
        assert t == [t[0]] + t[1..];
      } else {
        assert !p(t[0]);
        assert Filter(t, p) == Filter(t[1..], p);
      }
    }
  }

  /** `getTypeLabel` */
  function TypeLabel(kind: Kind): (text: string)
    ensures kind == Seo ==> text == "SEO Scanner"
    ensures kind == HeatMap ==> text == "Keyword Heat Map"
    ensures kind == CitationCheck ==> text == "Citation Management"
  {
    match kind
    case Seo => "SEO Scanner"
    case HeatMap => "Keyword Heat Map"
    case CitationCheck => "Citation Management"
  }

  /** Distinct kinds get distinct labels. */
  lemma LabelsDistinct(a: Kind, b: Kind)
    requires a != b
    ensures TypeLabel(a) != TypeLabel(b)
  {
  }

  datatype Color = Green | Yellow | Red

  /** `getScoreColor` */
  function ScoreColor(score: int): (c: Color)
    ensures c == Green <==> score >= 80
    ensures c == Yellow <==> 60 <= score < 80
    ensures c == Red <==> score < 60
  {
    if score >= 80 then Green else if score >= 60 then Yellow else Red
  }

  function Rank(c: Color): nat
  {
    match c
    case Red => 0
    case Yellow => 1
    case Green => 2
  }

  /** A higher score never gets a worse colour. */
  lemma ColorMonotone(s: int, t: int)
    requires s <= t
    ensures Rank(ScoreColor(s)) <= Rank(ScoreColor(t))
  {
  }

  /** What `fetchAnalyses` got: the three lists, or an error. */
  datatype Fetched = Lists(seo: seq<Row>, heat: seq<Row>, cit: seq<Row>) | FetchError

  /** The list after a fetch: replaced by the merge, or kept on error. */
  function AfterFetch(current: seq<Entry>, f: Fetched): (r: seq<Entry>)
    ensures f.FetchError? ==> r == current
    ensures f.Lists? ==> r == Merge(f.seo, f.heat, f.cit)
  {
    match f
    case FetchError => current
    case Lists(seo, heat, cit) => Merge(seo, heat, cit)
  }
}
