/** The lightweight scan route (`POST /api/seo-scan`): title, meta
    description, text of the first h1 and a word count obtained by splitting
    the body text on runs of white space (`split(/\s+/)`). */
module SeoScan {
  import opened Common
  import opened Strings

  /** What the parser reports about the fetched page. */
  datatype Page = Page(
    title: string,
    metaDescription: Option<string>,
    h1Texts: seq<string>,   // text of every h1, in document order
    bodyText: string)

  datatype Summary = Summary(title: string, metaDesc: string, h1: string, wordCount: nat, url: string)

  datatype Outcome = Scanned(summary: Summary) | Rejected(failure: Failure)

  /** Length of the longest prefix without white space. */
  function WordLen(s: string): (n: nat)
    ensures n <= |s|
  {
    if s == [] || IsSpace(s[0]) then 0 else 1 + WordLen(s[1..])
  }

  /** A word ends at white space or at the end of the string. */
  lemma {:induction false} WordLenStops(s: string)
    ensures WordLen(s) < |s| ==> IsSpace(s[WordLen(s)])
  {
    if s != [] && !IsSpace(s[0]) {
      WordLenStops(s[1..]);
    }
  }

  lemma {:induction false} WordLenNoSpace(s: string)
    ensures forall i :: 0 <= i < WordLen(s) ==> !IsSpace(s[i])
  {
    if s != [] && !IsSpace(s[0]) {
      WordLenNoSpace(s[1..]);
      forall i | 0 < i < WordLen(s) ensures !IsSpace(s[i]) {
        assert s[i] == s[1..][i - 1];
      }
    }
  }

  /** Length of the longest prefix made only of white space. */
  function SpaceLen(s: string): (n: nat)
    ensures n <= |s| && (n < |s| ==> !IsSpace(s[n]))
    ensures s != [] && IsSpace(s[0]) ==> n >= 1
  {
    if s != [] && IsSpace(s[0]) then 1 + SpaceLen(s[1..]) else 0
  }

  lemma {:induction false} SpaceLenAllSpace(s: string)
    ensures forall i :: 0 <= i < SpaceLen(s) ==> IsSpace(s[i])
  {
    if s != [] && IsSpace(s[0]) {
      SpaceLenAllSpace(s[1..]);
      forall i | 0 < i < SpaceLen(s) ensures IsSpace(s[i]) {
        assert s[i] == s[1..][i - 1];
      }
    }
  }

  /** `s.split(/\s+/)`: the pieces between maximal runs of white space. A
      run at either end leaves an empty piece there, and the empty string
      gives one empty piece. */
  function SplitSpaces(s: string): (r: seq<string>)
    ensures |r| >= 1
    decreases |s|
  {
    if WordLen(s) == |s| then [s]
    else [s[..WordLen(s)]] + SplitSpaces(AfterRun(s))
  }

  /** What follows the first word and the white-space run after it. */
  function AfterRun(s: string): (r: string)
    requires WordLen(s) < |s|
    ensures |r| < |s|
  {
    var w := WordLen(s);
    WordLenStops(s);
    s[w + SpaceLen(s[w..])..]
  }

  /** No piece holds white space. */
  lemma {:induction false} PiecesHaveNoSpace(s: string)
    ensures forall k :: 0 <= k < |SplitSpaces(s)| ==> NoSpace(SplitSpaces(s)[k])
    decreases |s|
  {
    var w := WordLen(s);
    assert NoSpace(s[..w]) by { WordLenNoSpace(s); }
    if w < |s| {
      var rest := AfterRun(s);
      PiecesHaveNoSpace(rest);
      var r := SplitSpaces(s);
      assert r == [s[..w]] + SplitSpaces(rest);
      forall k | 0 <= k < |r| ensures NoSpace(r[k]) {
        if k > 0 { assert r[k] == SplitSpaces(rest)[k - 1]; }
      }
    }
  }

  /** Number of maximal white-space runs, read character by character:
      `prevSpace` says whether the character before `s` was white space. */
  function RunsAfter(prevSpace: bool, s: string): nat
    decreases |s|
  {
    if s == [] then 0
    else (if IsSpace(s[0]) && !prevSpace then 1 else 0) + RunsAfter(IsSpace(s[0]), s[1..])
  }

  function Runs(s: string): nat
  {
    RunsAfter(false, s)
  }

  lemma {:induction false} RunsSkipWord(s: string, n: nat)
    requires n <= |s| && forall i :: 0 <= i < n ==> !IsSpace(s[i])
    ensures RunsAfter(false, s) == RunsAfter(false, s[n..])
    decreases n
  {
    if n > 0 {
      RunsSkipWord(s[1..], n - 1);
      assert s[1..][n - 1..] == s[n..];
    }
  }

  lemma {:induction false} RunsSkipSpaces(s: string, n: nat)
    requires 0 < n <= |s| && (forall i :: 0 <= i < n ==> IsSpace(s[i]))
    requires n < |s| ==> !IsSpace(s[n])
    ensures RunsAfter(true, s[1..]) == RunsAfter(false, s[n..])
    decreases n
  {
    if n == 1 {
      if |s| > 1 {
        assert s[1..] == s[n..];
      }
    } else {
      RunsSkipSpaces(s[1..], n - 1);
      assert s[1..][n - 1..] == s[n..];
    }
  }

  /** The word count is one more than the number of white-space runs. */
  lemma {:induction false} PiecesAreRunsPlusOne(s: string)
    ensures |SplitSpaces(s)| == Runs(s) + 1
    decreases |s|
  {
    if WordLen(s) == |s| {
      RunsOfWord(s);
    } else {
      RunsStep(s);
      PiecesAreRunsPlusOne(AfterRun(s));
    }
  }

  /** Text without white space has no run. */
  lemma RunsOfWord(s: string)
    requires WordLen(s) == |s|
    ensures Runs(s) == 0 && |SplitSpaces(s)| == 1
  {
    WordLenNoSpace(s);
    RunsSkipWord(s, |s|);
    assert s[|s|..] == [];
  }

  /** A word followed by a run of white space: one piece and one run more
      than the rest. */
  lemma RunsStep(s: string)
    requires WordLen(s) < |s|
    ensures Runs(s) == 1 + Runs(AfterRun(s))
    ensures |SplitSpaces(s)| == 1 + |SplitSpaces(AfterRun(s))|
  {
    var w := WordLen(s);
    var t := s[w..];
    var k := SpaceLen(t);
    assert RunsAfter(false, s) == RunsAfter(false, t) by {
      WordLenNoSpace(s);
      RunsSkipWord(s, w);
    }
    assert t != [] && IsSpace(t[0]) by { WordLenStops(s); }
    assert RunsAfter(true, t[1..]) == RunsAfter(false, t[k..]) by {
      SpaceLenAllSpace(t);
      RunsSkipSpaces(t, k);
    }
    assert RunsAfter(false, t) == 1 + RunsAfter(true, t[1..]);
    var rest := AfterRun(s);
    assert t[k..] == rest;
    assert Runs(s) == 1 + Runs(rest);
    assert SplitSpaces(s) == [s[..w]] + SplitSpaces(rest);
  }

  /** White space at the very start or very end of the body adds an empty
      piece at that end. */
  lemma LeadingSpaceGivesEmptyPiece(s: string)
    requires s != [] && IsSpace(s[0])
    ensures SplitSpaces(s)[0] == ""
  {
  }

  lemma TrailingSpaceGivesEmptyPiece(s: string)
    requires s != [] && IsSpace(s[|s| - 1])
    ensures SplitSpaces(s)[|SplitSpaces(s)| - 1] == ""
  {
    LastPieceIsLast(s);
    LastPieceEmpty(s, s[|s| - 1]);
  }

  /** The piece after the last run of white space. */
  function LastPiece(s: string): string
    decreases |s|
  {
    if WordLen(s) == |s| then s else LastPiece(AfterRun(s))
  }

  lemma {:induction false} LastPieceIsLast(s: string)
    ensures SplitSpaces(s)[|SplitSpaces(s)| - 1] == LastPiece(s)
    decreases |s|
  {
    if WordLen(s) < |s| {
      LastPieceIsLast(AfterRun(s));
    }
  }

  /** The induction behind TrailingSpaceGivesEmptyPiece, on a string ending
      with the white-space character `c`. */
  lemma {:induction false} LastPieceEmpty(s: string, c: char)
    requires IsSpace(c) && s != [] && s[|s| - 1] == c
    ensures LastPiece(s) == ""
    decreases |s|
  {
    assert WordLen(s) < |s| by { WordLenNoSpace(s); }
    var rest := AfterRun(s);
    if rest != [] {
      AfterRunLast(s);
      LastPieceEmpty(rest, c);
    }
  }

  /** The rest after a run ends where `s` ends. */
  lemma AfterRunLast(s: string)
    requires WordLen(s) < |s| && AfterRun(s) != []
    ensures AfterRun(s)[|AfterRun(s)| - 1] == s[|s| - 1]
  {
  }

  function WordCount(body: string): (n: nat)
    ensures n >= 1
    ensures body == "" ==> n == 1
  {
    |SplitSpaces(body)|
  }

  /** The summary of lines 17-20 and 22-28: the description defaults to '',
      only the first h1 is reported, and the url is echoed unchanged. */
  function Summarize(url: string, page: Page): (s: Summary)
    ensures s.url == url && s.title == page.title
    ensures page.metaDescription.Some? ==> s.metaDesc == page.metaDescription.value
    ensures page.metaDescription.None? ==> s.metaDesc == ""
    ensures page.h1Texts == [] ==> s.h1 == ""
    ensures page.h1Texts != [] ==> s.h1 == page.h1Texts[0]
    ensures s.wordCount == Runs(page.bodyText) + 1
  {
    PiecesAreRunsPlusOne(page.bodyText);
    Summary(page.title, page.metaDescription.GetOr(""),
            if page.h1Texts == [] then "" else page.h1Texts[0],
            WordCount(page.bodyText), url)
  }

  /** The route: a missing `url` is a 400 and nothing is fetched; a failed
      fetch is a 500 carrying the error's message. */
  function Post(url: Option<string>, fetched: Result): (out: Outcome)
    ensures !Truthy(url) ==> out == Rejected(Failure(400, "URL tidak boleh kosong"))
    ensures Truthy(url) && fetched.Failed? ==>
      out == Rejected(Failure(500, if fetched.message != "" then fetched.message else "Terjadi kesalahan"))
    ensures Truthy(url) && fetched.Ok? ==> out == Scanned(Summarize(url.value, fetched.page))
    ensures Truthy(url) && fetched.Ok? ==>
      && out.summary.url == url.value && out.summary.title == fetched.page.title
      && out.summary.wordCount == Runs(fetched.page.bodyText) + 1
  {
    if !Truthy(url) then Rejected(Failure(400, "URL tidak boleh kosong"))
    else match fetched
      case Failed(m) => Rejected(Failure(500, if m != "" then m else "Terjadi kesalahan"))
      case Ok(page) => Scanned(Summarize(url.value, page))
  }

  datatype Result = Ok(page: Page) | Failed(message: string)

  /** Concrete cases: an empty body counts one word, and a body with
      surrounding white space counts the empty end pieces too. */
  lemma WordCountExamples()
    ensures WordCount("") == 1
    ensures WordCount(" a ") == 3
  {
    var s := " a ";
    assert WordLen(s) == 0 && SpaceLen(s) == 1;
    assert s[1..] == "a " && "a "[1..] == " " && WordLen(" ") == 0;
    assert WordLen("a ") == 1 && SpaceLen(" ") == 1;
    assert "a "[..1] == "a" && "a "[1..][1..] == "" && "a "[2..] == "";
    assert SplitSpaces("a ") == ["a"] + SplitSpaces("");
    assert SplitSpaces(s) == [""] + SplitSpaces("a ");
  }
}
