/** The keyword heat-map route (`POST /api/keyword-heatmap`): the comma
    separated keyword list is normalised, and for each keyword the route
    counts the whole-word, non-overlapping occurrences in the lower-cased
    body text of the page. */
module KeywordHeatmap {
  import opened Common
  import opened Strings
  import opened Seqs

  /** One piece of the comma list after `trim()` and `toLowerCase()`. */
  function Normalize(piece: string): (k: string)
    ensures k == [] || (!IsSpace(k[0]) && !IsSpace(k[|k| - 1]))
    ensures ',' !in piece ==> ',' !in k
    ensures ToLower(k) == k
    ensures var a := |piece| - |TrimStart(piece)|;
      && a + |k| <= |piece| && (forall i :: 0 <= i < |k| ==> k[i] == LowerChar(piece[a + i]))
      && forall j :: 0 <= j < a || a + |k| <= j < |piece| ==> IsSpace(piece[j])
  {
    LowerOfTrimShape(piece);
    LowerOfTrim(piece);
    ToLower(Trim(piece))
  }

  /** The lower-cased trim has no white space at its ends, gains no comma
      and is its own lower-casing. */
  lemma {:induction false} LowerOfTrimShape(piece: string)
    ensures var k := ToLower(Trim(piece));
      && (k == [] || (!IsSpace(k[0]) && !IsSpace(k[|k| - 1])))
      && (',' !in piece ==> ',' !in k)
      && ToLower(k) == k
  {
    var t := Trim(piece);
    var k := ToLower(t);
    if k != [] {
      assert k[0] == LowerChar(t[0]) && !IsSpace(k[0]);
      assert k[|k| - 1] == LowerChar(t[|t| - 1]) && !IsSpace(k[|k| - 1]);
    }
    ToLowerIdempotent(t);
    TrimKeeps(piece, ',');
    LowerKeeps(t, ',');
  }

  /** The lower-cased trim is the lower-cased middle of the piece, between
      white-space ends. */
  lemma {:induction false} LowerOfTrim(piece: string)
    ensures var k := ToLower(Trim(piece));
      var a := |piece| - |TrimStart(piece)|;
      && a + |k| <= |piece| && (forall i :: 0 <= i < |k| ==> k[i] == LowerChar(piece[a + i]))
      && forall j :: 0 <= j < a || a + |k| <= j < |piece| ==> IsSpace(piece[j])
  {
    var t := Trim(piece);
    var a := |piece| - |TrimStart(piece)|;
    var k := ToLower(t);
    assert |k| == |t|;
    forall i | 0 <= i < |k| ensures k[i] == LowerChar(piece[a + i]) {
      assert t[i] == piece[a + i];
    }
  }

  predicate NonEmpty(k: string) { k != "" }

  /** `pieces.map(k => k.trim().toLowerCase())` */
  function NormalizeAll(pieces: seq<string>): (r: seq<string>)
    ensures |r| == |pieces|
    ensures forall i :: 0 <= i < |pieces| ==> r[i] == Normalize(pieces[i])
  {
    seq(|pieces|, i requires 0 <= i < |pieces| => Normalize(pieces[i]))
  }

  /** What every kept keyword looks like. */
  predicate WellFormed(k: string)
  {
    && k != "" && ',' !in k && ToLower(k) == k
    && !IsSpace(k[0]) && !IsSpace(k[|k| - 1])
  }

  /** `keywords.split(',').map(k => k.trim().toLowerCase()).filter(Boolean)` */
  function ParseKeywords(keywords: string): (kws: seq<string>)
    ensures forall k :: 0 <= k < |kws| ==> WellFormed(kws[k])
    ensures |kws| <= |SplitOn(keywords, ',')|
  {
    var pieces := SplitOn(keywords, ',');
    var normal := NormalizeAll(pieces);
    var kws := Filter(normal, NonEmpty);
    forall k | 0 <= k < |kws| ensures WellFormed(kws[k]) {
      KeptWellFormed(keywords, kws[k]);
    }
    kws
  }

  /** Every kept keyword is well formed. */
  lemma KeptWellFormed(keywords: string, x: string)
    requires x in Filter(NormalizeAll(SplitOn(keywords, ',')), NonEmpty)
    ensures WellFormed(x)
  {
    var pieces := SplitOn(keywords, ',');
    var normal := NormalizeAll(pieces);
    FilterMembers(normal, NonEmpty, x);
    var i :| 0 <= i < |normal| && normal[i] == x;
    NormalizedWellFormed(pieces[i]);
  }

  /** A non-empty normalised piece without a comma is a well-formed keyword. */
  lemma NormalizedWellFormed(piece: string)
    requires ',' !in piece && Normalize(piece) != ""
    ensures WellFormed(Normalize(piece))
  {
  }

  /** A string is kept exactly when it is the normalised form of one of the
      comma-separated pieces and is not empty. */
  lemma KeywordMembers(keywords: string, kw: string)
    ensures var pieces := SplitOn(keywords, ',');
      (kw in ParseKeywords(keywords)) <==> (kw != "" && exists i :: 0 <= i < |pieces| && kw == Normalize(pieces[i]))
  {
    var pieces := SplitOn(keywords, ',');
    var normal := NormalizeAll(pieces);
    FilterMembers(normal, NonEmpty, kw);
  }

  /** `\w` of a regular expression without the `u` flag. */
  predicate IsWordChar(c: char)
  {
    ('a' <= c <= 'z') || ('A' <= c <= 'Z') || ('0' <= c <= '9') || c == '_'
  }

  predicate WordAt(s: string, i: int)
  {
    0 <= i < |s| && IsWordChar(s[i])
  }

  /** `\b` at position i: exactly one of the neighbouring characters is a
      word character (outside the string counts as a non-word character). */
  predicate Boundary(s: string, i: int)
  {
    WordAt(s, i - 1) != WordAt(s, i)
  }

  /** `\b<kw>\b` matches at `i`. The keyword's metacharacters are escaped,
      so it matches as literal text. */
  predicate MatchAt(s: string, kw: string, i: nat)
  {
    OccursAt(s, kw, i) && Boundary(s, i) && Boundary(s, i + |kw|)
  }

  /** The number of matches a global search finds from position `i`: after a
      match the search resumes at its end, otherwise one position later. It
      is 0 exactly when no whole-word match starts at `i` or later. */
  function MatchesFrom(s: string, kw: string, i: nat): (n: nat)
    requires kw != "" && i <= |s|
    ensures n == 0 <==> forall j: nat :: i <= j ==> !MatchAt(s, kw, j)
    decreases |s| - i
  {
    if i + |kw| > |s| then 0
    else if MatchAt(s, kw, i) then 1 + MatchesFrom(s, kw, i + |kw|)
    else MatchesFrom(s, kw, i + 1)
  }

  /** `(text.match(regex) || []).length`: 0 exactly when the keyword has no
      whole-word match in the text (`match` returning null), and the
      non-overlapping matches fit in the text. */
  function Occurrences(text: string, kw: string): (n: nat)
    requires kw != ""
    ensures n == 0 <==> forall j: nat :: !MatchAt(text, kw, j)
    ensures n * |kw| <= |text|
  {
    MatchesFit(text, kw, 0);
    MatchesFrom(text, kw, 0)
  }

  /** One more match of length `n` still fits when the rest fit in what
      remains after it. */
  lemma FitStep(c: nat, m: nat, n: nat, room: int)
    requires c == 1 + m && m * n <= room - n
    ensures c * n <= room
  {
    assert c * n == n + m * n;
  }

  /** Matches do not overlap, so together they never cover more than the
      text: count * |kw| <= |text|. */
  lemma {:induction false} MatchesFit(s: string, kw: string, i: nat)
    requires kw != "" && i <= |s|
    ensures MatchesFrom(s, kw, i) * |kw| <= |s| - i
    decreases |s| - i
  {
    if i + |kw| <= |s| {
      if MatchAt(s, kw, i) {
        MatchesFit(s, kw, i + |kw|);
        var m := MatchesFrom(s, kw, i + |kw|);
        assert MatchesFrom(s, kw, i) == 1 + m;
        FitStep(MatchesFrom(s, kw, i), m, |kw|, |s| - i);
      } else {
        MatchesFit(s, kw, i + 1);
        assert MatchesFrom(s, kw, i) == MatchesFrom(s, kw, i + 1);
      }
    } else {
      assert MatchesFrom(s, kw, i) == 0;
    }
  }

  /** A whole-word match is required: in "seodoc seo" the keyword "seo"
      occurs twice as text but is counted once. */
  lemma SeoExample()
    ensures Occurrences("seodoc seo", "seo") == 1
  {
    var s := "seodoc seo";
    assert !Boundary(s, 3);
    assert !MatchAt(s, "seo", 0);
    assert s[1..4] != "seo" && s[2..5] != "seo" && s[3..6] != "seo";
    assert s[4..7] != "seo" && s[5..8] != "seo" && s[6..9] != "seo";
    assert MatchAt(s, "seo", 7);
    assert MatchesFrom(s, "seo", 10) == 0;
    assert MatchesFrom(s, "seo", 7) == 1;
    assert MatchesFrom(s, "seo", 1) == MatchesFrom(s, "seo", 2) == MatchesFrom(s, "seo", 3);
    assert MatchesFrom(s, "seo", 3) == MatchesFrom(s, "seo", 4) == MatchesFrom(s, "seo", 5);
    assert MatchesFrom(s, "seo", 5) == MatchesFrom(s, "seo", 6) == MatchesFrom(s, "seo", 7);
  }

  /** The keywords of a list, as the key set of the result object. */
  function Elements(kws: seq<string>): set<string>
  {
    set kw | kw in kws
  }

  /** Lines 19-23: `result[kw] = ...` for each keyword in order; a repeated
      keyword rewrites the same key with the same count. */
  method CountKeywords(text: string, kws: seq<string>) returns (result: map<string, nat>)
    requires forall k :: 0 <= k < |kws| ==> kws[k] != ""
    ensures result.Keys == Elements(kws)
    ensures forall kw :: kw in result ==> kw != "" && result[kw] == Occurrences(text, kw)
    ensures forall kw :: kw in result ==> result[kw] * |kw| <= |text|
  {
    result := map[];
    for i := 0 to |kws|
      invariant result.Keys == Elements(kws[..i])
      invariant forall kw :: kw in result ==> kw != "" && result[kw] == Occurrences(text, kw)
    {
      var kw := kws[i];
      result := result[kw := Occurrences(text, kw)];
      assert kws[..i + 1] == kws[..i] + [kw];
    }
    assert kws[..|kws|] == kws;
    forall kw | kw in result ensures result[kw] * |kw| <= |text| {
      MatchesFit(text, kw, 0);
    }
  }

  datatype Response = Response(url: string, keywords: map<string, nat>)

  datatype Outcome = Counted(response: Response) | Rejected(failure: Failure)

  /** What fetching and parsing the page produced: the body text, or the
      error message of the failure. */
  datatype Fetch = Fetched(bodyText: string) | FetchFailed(message: string)

  /** The route: a missing url or keyword list is a 400; otherwise every
      normalised keyword is a key of the result, counted over the
      lower-cased body text. */
  method Post(url: Option<string>, keywords: Option<string>, fetch: Fetch) returns (out: Outcome)
    ensures !Truthy(url) || !Truthy(keywords) ==> out == Rejected(Failure(400, "URL dan keyword wajib diisi"))
    ensures Truthy(url) && Truthy(keywords) && fetch.FetchFailed? ==>
      out == Rejected(Failure(500, if fetch.message != "" then fetch.message else "Terjadi kesalahan"))
    ensures Truthy(url) && Truthy(keywords) && fetch.Fetched? ==>
      && out.Counted? && out.response.url == url.value
      && out.response.keywords.Keys == Elements(ParseKeywords(keywords.value))
      && forall kw :: kw in out.response.keywords ==>
           kw != "" && out.response.keywords[kw] == Occurrences(ToLower(fetch.bodyText), kw)
  {
    if !Truthy(url) || !Truthy(keywords) {
      return Rejected(Failure(400, "URL dan keyword wajib diisi"));
    }
    match fetch
    case FetchFailed(m) =>
      out := Rejected(Failure(500, if m != "" then m else "Terjadi kesalahan"));
    case Fetched(body) =>
      var text := ToLower(body);
      var result := CountKeywords(text, ParseKeywords(keywords.value));
      out := Counted(Response(url.value, result));
  }

  /** Counting is case-insensitive in the text: two bodies that differ only
      in the case of their letters give the same count for every keyword. */
  lemma CaseInsensitive(body1: string, body2: string, kw: string)
    requires kw != "" && |body1| == |body2|
    requires forall i :: 0 <= i < |body1| ==> LowerChar(body1[i]) == LowerChar(body2[i])
    ensures Occurrences(ToLower(body1), kw) == Occurrences(ToLower(body2), kw)
  {
    assert ToLower(body1) == ToLower(body2);
  }

  /** An upper-cased body counts like the original one. */
  lemma UpperCaseBodyCountsAlike(body: string, kw: string)
    requires kw != ""
    ensures Occurrences(ToLower(ToUpper(body)), kw) == Occurrences(ToLower(body), kw)
  {
    CaseInsensitive(ToUpper(body), body, kw);
  }
}
