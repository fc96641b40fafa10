/** The ad-hoc session-token extraction of the plan-selection and
    dashboard-statistics routes:
    `cookie?.split('token=')[1]?.split(';')[0]`. */
module Cookies {
  import opened Common
  import opened Strings

  const TokenKey := "token="

  /** `t` is what the extraction takes from `rest`, the text after the
      first `token=`: a prefix of `rest` holding no `;` and no `token=`,
      that ends where `rest` ends, at a `;`, or at the next `token=`. */
  predicate TokenExtent(rest: string, t: string)
  {
    && StartsWith(rest, t)
    && ';' !in t
    && (forall j: nat :: j < |t| ==> !OccursAt(rest, TokenKey, j))
    && (|t| == |rest| || rest[|t|] == ';' || OccursAt(rest, TokenKey, |t|))
  }

  /** Piece 1 of `split('token=')` is the text between the first and the
      second occurrence of `token=`; piece 0 of `split(';')` is the text
      before the first `;`. An absent header, or one without `token=`,
      gives `undefined` (`None`). */
  function Token(cookie: Option<string>): (t: Option<string>)
    ensures cookie.None? ==> t.None?
    ensures cookie.Some? ==> (t.None? <==> !Includes(cookie.value, TokenKey))
    ensures t.Some? ==> exists i: nat ::
      && OccursAt(cookie.value, TokenKey, i)
      && (forall j: nat :: j < i ==> !OccursAt(cookie.value, TokenKey, j))
      && TokenExtent(cookie.value[i + |TokenKey|..], t.value)
  {
    match cookie
    case None => None
    case Some(c) =>
      match AfterFirst(c, TokenKey)
      case None => None
      case Some(rest) =>
        var piece := BeforeFirst(rest, TokenKey);
        var token := BeforeFirst(piece, ";");
        var i := IndexOf(c, TokenKey).value;
        assert rest == c[i + |TokenKey|..];
        ExtractionExtent(rest, piece, token);
        Some(token)
  }

  /** The two `split`s take exactly the token's extent. */
  lemma ExtractionExtent(rest: string, piece: string, token: string)
    requires piece == BeforeFirst(rest, TokenKey) && token == BeforeFirst(piece, ";")
    ensures TokenExtent(rest, token)
  {
    NoSemicolon(piece, token);
    assert rest[..|token|] == token by {
      assert piece[..|token|] == token;
      assert rest[..|piece|] == piece;
    }
    if Includes(piece, ";") {
      assert piece[|token|..|token| + 1] == ";";
      assert rest[|token|] == piece[|token|];
    } else if Includes(rest, TokenKey) {
      assert token == piece;
    } else {
      assert token == piece && piece == rest;
    }
  }

  /** The extent determines the token: two strings that both fit it are
      the same. */
  lemma TokenExtentUnique(rest: string, t1: string, t2: string)
    requires TokenExtent(rest, t1) && TokenExtent(rest, t2)
    ensures t1 == t2
  {
    // The longer one would go on past the shorter one's end, which is the
    // end of `rest`, a `;` or a `token=`.
    assert |t1| == |t2|;
    assert t1 == rest[..|t1|] == t2;
  }

  /** The text before the first `;` holds no `;`. */
  lemma NoSemicolon(s: string, r: string)
    requires r == BeforeFirst(s, ";")
    ensures ';' !in r
  {
    if ';' in r {
      var j :| 0 <= j < |r| && r[j] == ';';
      assert s[j..j + 1] == [';'];
      assert OccursAt(s, ";", j);
    }
  }

  /** The route's `!token` test: no token, or an empty one. */
  predicate HasToken(cookie: Option<string>)
  {
    Truthy(Token(cookie))
  }

  /** A plain cookie header yields the token's value. */
  lemma PlainCookie()
    ensures Token(Some("token=ab;x=1")) == Some("ab")
  {
    var c := "token=ab;x=1";
    assert OccursAt(c, TokenKey, 0);
    assert IndexOf(c, TokenKey) == Some(0);
    var rest := c[6..];
    assert AfterFirst(c, TokenKey) == Some(rest);
    assert rest == "ab;x=1";
    assert !OccursAt(rest, TokenKey, 0) by { assert rest[0..6][0] == 'a'; }
    assert !Includes(rest, TokenKey);
    assert BeforeFirst(rest, TokenKey) == rest;
    assert OccursAt(rest, ";", 2) by {
      assert rest[2] == ';';
      assert rest[2..3] == [rest[2]];
    }
    assert !OccursAt(rest, ";", 0) by { assert rest[0..1][0] == 'a'; }
    assert !OccursAt(rest, ";", 1) by { assert rest[1..2][0] == 'b'; }
    assert IndexOf(rest, ";") == Some(2);
    assert BeforeFirst(rest, ";") == rest[..2] == "ab";
  }

  /** Unlike cookie-pair parsing (section 4.2.1 of RFC 6265), a cookie
      whose name merely ends in `token` is read as the session token. */
  lemma SuffixNameMatches()
    ensures Token(Some("xtoken=evil")) == Some("evil")
  {
    var c := "xtoken=evil";
    assert c[1..7] == TokenKey && OccursAt(c, TokenKey, 1);
    assert !OccursAt(c, TokenKey, 0) by {
      assert c[0..6][0] == 'x';
    }
    var rest := c[7..];
    assert rest == "evil";
    assert forall i: nat :: !OccursAt(rest, TokenKey, i);
    assert forall j: nat :: !OccursAt(rest, ";", j) by {
      forall j: nat ensures !OccursAt(rest, ";", j) {
        if j + 1 <= |rest| {
          assert rest[j..j + 1][0] == rest[j];
        }
      }
    }
  }

  /** Without `token=` there is no token; with an empty value the token is
      empty, which the routes treat alike. */
  lemma MissingOrEmptyToken()
    ensures !HasToken(Some("theme=dark"))
    ensures !HasToken(Some("token=;theme=dark"))
    ensures !HasToken(None)
  {
    NoKeyNoToken();
    EmptyValueNoToken();
  }

  lemma NoKeyNoToken()
    ensures Token(Some("theme=dark")).None?
  {
    var c := "theme=dark";
    assert forall i: nat :: !OccursAt(c, TokenKey, i) by {
      forall i: nat ensures !OccursAt(c, TokenKey, i) {
        if i + 6 <= |c| {
          assert c[i..i + 6][0] == c[i];
          assert c[i..i + 6][1] == c[i + 1];
        }
      }
    }
  }

  lemma EmptyValueNoToken()
    ensures Token(Some("token=;theme=dark")) == Some("")
  {
    var d := "token=;theme=dark";
    assert OccursAt(d, TokenKey, 0);
    var rest := d[6..];
    assert rest[0..1] == ";" && OccursAt(rest, ";", 0);
  }
}
