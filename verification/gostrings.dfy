/** The functions of Go's `strings` package that the operator and its upgrade script call. */
module GoStrings {
  import opened GoTypes

  predicate OccursAt(s: string, part: string, i: nat) {
    i + |part| <= |s| && s[i..i + |part|] == part
  }

  predicate Contains(s: string, part: string) {
    exists i | 0 <= i <= |s| :: OccursAt(s, part, i)
  }

  /** The pieces between the separators; always at least one. */
  function Split(s: string, sep: char): (r: seq<string>)
    ensures |r| > 0
    ensures forall piece | piece in r :: sep !in piece
  {
    if s == "" then [""]
    else
      var rest := Split(s[1..], sep);
      if s[0] == sep then [""] + rest else [[s[0]] + rest[0]] + rest[1..]
  }

  function Join(pieces: seq<string>, sep: char): string
    requires |pieces| > 0
  {
    if |pieces| == 1 then pieces[0] else pieces[0] + [sep] + Join(pieces[1..], sep)
  }

  /** Splitting loses nothing. */
  lemma {:induction false} JoinSplit(s: string, sep: char)
    ensures Join(Split(s, sep), sep) == s
  {
    if s != "" {
      JoinSplit(s[1..], sep);
      var rest := Split(s[1..], sep);
      if s[0] == sep {
        assert Split(s, sep)[1..] == rest;
      } else {
        assert Split(s, sep)[1..] == rest[1..];
        if |rest| == 1 {
          assert Split(s, sep) == [[s[0]] + rest[0]];
        }
      }
      assert s == [s[0]] + s[1..];
    }
  }

  lemma {:induction false} SplitWhole(piece: string, sep: char)
    requires sep !in piece
    ensures Split(piece, sep) == [piece]
  {
    if piece != "" {
      SplitWhole(piece[1..], sep);
      assert piece == [piece[0]] + piece[1..];
    }
  }

  lemma {:induction false} SplitAppend(piece: string, rest: string, sep: char)
    requires sep !in piece
    ensures Split(piece + [sep] + rest, sep) == [piece] + Split(rest, sep)
  {
    var whole := piece + [sep] + rest;
    if piece == "" {
      assert whole[1..] == rest;
    } else {
      SplitAppend(piece[1..], rest, sep);
      assert whole[1..] == piece[1..] + [sep] + rest;
      assert piece == [piece[0]] + piece[1..];
    }
  }

  /** Joining and splitting again gives the same pieces. */
  lemma {:induction false} SplitJoin(pieces: seq<string>, sep: char)
    requires |pieces| > 0
    requires forall piece | piece in pieces :: sep !in piece
    ensures Split(Join(pieces, sep), sep) == pieces
  {
    if |pieces| == 1 {
      SplitWhole(pieces[0], sep);
    } else {
      SplitJoin(pieces[1..], sep);
      SplitAppend(pieces[0], Join(pieces[1..], sep), sep);
    }
  }

  lemma {:induction false} JoinConcat(a: seq<string>, b: seq<string>, sep: char)
    requires a != [] && b != []
    ensures Join(a + b, sep) == Join(a, sep) + [sep] + Join(b, sep)
    decreases |a|
  {
    assert (a + b)[1..] == a[1..] + b;
    if |a| > 1 {
      JoinConcat(a[1..], b, sep);
    } else {
      assert a + b == [a[0]] + b && (a + b)[1..] == b;
    }
  }

  lemma SplitConcat(x: string, y: string, sep: char)
    ensures Split(x + [sep] + y, sep) == Split(x, sep) + Split(y, sep)
  {
    JoinSplit(x, sep);
    JoinSplit(y, sep);
    JoinConcat(Split(x, sep), Split(y, sep), sep);
    SplitJoin(Split(x, sep) + Split(y, sep), sep);
  }

  /** A stretch of the text without separators, between separators or the ends. */
  predicate IsPiece(s: string, sep: char, pre: string, piece: string, post: string) {
    s == pre + piece + post && sep !in piece &&
    (pre != "" ==> pre[|pre| - 1] == sep) && (post != "" ==> post[0] == sep)
  }

  lemma PieceBefore(piece: string, post: string, sep: char)
    requires sep !in piece && (post != "" ==> post[0] == sep)
    ensures piece in Split(piece + post, sep)
  {
    if post == "" {
      SplitWhole(piece, sep);
      assert piece + post == piece;
    } else {
      SplitAppend(piece, post[1..], sep);
      assert post == [sep] + post[1..];
      assert piece + post == piece + [sep] + post[1..];
    }
  }

  lemma PieceAfter(pre: string, tail: string, sep: char, piece: string)
    requires (pre != "" ==> pre[|pre| - 1] == sep) && piece in Split(tail, sep)
    ensures piece in Split(pre + tail, sep)
  {
    if pre == "" {
      assert pre + tail == tail;
    } else {
      var front := pre[..|pre| - 1];
      SplitConcat(front, tail, sep);
      assert pre == front + [sep];
    }
  }

  lemma PieceIsSplitOff(s: string, sep: char, pre: string, piece: string, post: string)
    requires IsPiece(s, sep, pre, piece, post)
    ensures piece in Split(s, sep)
  {
    PieceBefore(piece, post, sep);
    PieceAfter(pre, piece + post, sep, piece);
    assert pre + (piece + post) == pre + piece + post;
  }

  lemma JoinFrom(pieces: seq<string>, i: nat, sep: char) returns (pre: string)
    requires i < |pieces|
    ensures Join(pieces, sep) == pre + Join(pieces[i..], sep) && (pre != "" ==> pre[|pre| - 1] == sep)
  {
    if i == 0 {
      pre := "";
      assert pieces[i..] == pieces;
    } else {
      pre := Join(pieces[..i], sep) + [sep];
      JoinConcat(pieces[..i], pieces[i..], sep);
      assert pieces[..i] + pieces[i..] == pieces;
    }
  }

  lemma JoinHead(pieces: seq<string>, sep: char) returns (post: string)
    requires pieces != []
    ensures Join(pieces, sep) == pieces[0] + post && (post != "" ==> post[0] == sep)
  {
    if |pieces| == 1 {
      post := "";
    } else {
      post := [sep] + Join(pieces[1..], sep);
      assert pieces[0] + post == pieces[0] + [sep] + Join(pieces[1..], sep);
    }
  }

  lemma SplitOffIsPiece(s: string, sep: char, i: nat) returns (pre: string, post: string)
    requires i < |Split(s, sep)|
    ensures IsPiece(s, sep, pre, Split(s, sep)[i], post)
  {
    var pieces := Split(s, sep);
    JoinSplit(s, sep);
    pre := JoinFrom(pieces, i, sep);
    post := JoinHead(pieces[i..], sep);
    assert pieces[i] in pieces;
    assert s == pre + (pieces[i] + post) == pre + pieces[i] + post;
  }

  /** The pieces are exactly the stretches between separators. */
  lemma SplitExactly(s: string, sep: char, piece: string)
    ensures piece in Split(s, sep) <==> exists pre, post :: IsPiece(s, sep, pre, piece, post)
  {
    if piece in Split(s, sep) {
      var i :| 0 <= i < |Split(s, sep)| && Split(s, sep)[i] == piece;
      var pre, post := SplitOffIsPiece(s, sep, i);
    }
    if pre, post :| IsPiece(s, sep, pre, piece, post) {
      PieceIsSplitOff(s, sep, pre, piece, post);
    }
  }

  /** The last position of a character. */
  function LastIndex(s: string, c: char): (r: Option<nat>)
    ensures r.Some? ==> r.value < |s| && s[r.value] == c && c !in s[r.value + 1..]
    ensures r.None? ==> c !in s
  {
    if s == "" then None
    else if s[|s| - 1] == c then Some(|s| - 1)
    else
      var r := LastIndex(s[..|s| - 1], c);
      assert s == s[..|s| - 1] + [s[|s| - 1]];
      r
  }

  /** Unicode white space. */
  predicate Blank(c: char) {
    c in {' ', '\t', '\n', '\U{000B}', '\U{000C}', '\r', '\U{0085}', '\U{00A0}', '\U{1680}',
          '\U{2028}', '\U{2029}', '\U{202F}', '\U{205F}', '\U{3000}'} || '\U{2000}' <= c <= '\U{200A}'
  }

  function TrimLeft(s: string): string {
    if s != "" && Blank(s[0]) then TrimLeft(s[1..]) else s
  }

  function TrimRight(s: string): string {
    if s != "" && Blank(s[|s| - 1]) then TrimRight(s[..|s| - 1]) else s
  }

  function TrimSpace(s: string): string {
    TrimRight(TrimLeft(s))
  }

  ghost predicate Trimmed(s: string) {
    s != "" ==> !Blank(s[0]) && !Blank(s[|s| - 1])
  }

  predicate AllBlank(s: string) {
    forall c | c in s :: Blank(c)
  }

  /** The text, without the white space around it. */
  predicate IsCore(s: string, pre: string, core: string, post: string) {
    s == pre + core + post && AllBlank(pre) && AllBlank(post) &&
    (core != "" ==> !Blank(core[0]) && !Blank(core[|core| - 1]))
  }

  lemma {:induction false} TrimLeftCuts(pre: string, s: string)
    requires AllBlank(pre) && (s != "" ==> !Blank(s[0]))
    ensures TrimLeft(pre + s) == s
    decreases |pre|
  {
    if pre != "" {
      assert pre[0] in pre && (pre + s)[1..] == pre[1..] + s;
      TrimLeftCuts(pre[1..], s);
    } else {
      assert pre + s == s;
    }
  }

  lemma {:induction false} TrimRightCuts(s: string, post: string)
    requires AllBlank(post) && (s != "" ==> !Blank(s[|s| - 1]))
    ensures TrimRight(s + post) == s
    decreases |post|
  {
    if post != "" {
      assert post[|post| - 1] in post && (s + post)[..|s + post| - 1] == s + post[..|post| - 1];
      TrimRightCuts(s, post[..|post| - 1]);
    } else {
      assert s + post == s;
    }
  }

  lemma {:induction false} TrimLeftKeeps(s: string) returns (pre: string)
    ensures AllBlank(pre) && s == pre + TrimLeft(s) && (TrimLeft(s) != "" ==> !Blank(TrimLeft(s)[0]))
    decreases |s|
  {
    pre := "";
    if s != "" && Blank(s[0]) {
      var rest := TrimLeftKeeps(s[1..]);
      pre := [s[0]] + rest;
    }
  }

  lemma {:induction false} TrimRightKeeps(s: string) returns (post: string)
    ensures AllBlank(post) && s == TrimRight(s) + post
    ensures TrimRight(s) != "" ==> !Blank(TrimRight(s)[|TrimRight(s)| - 1]) && TrimRight(s)[0] == s[0]
    decreases |s|
  {
    post := "";
    if s != "" && Blank(s[|s| - 1]) {
      var rest := TrimRightKeeps(s[..|s| - 1]);
      post := rest + [s[|s| - 1]];
    }
  }

  /** Trimming takes away the white space around the text and nothing else. */
  lemma TrimExactly(s: string, core: string)
    ensures TrimSpace(s) == core <==> exists pre, post :: IsCore(s, pre, core, post)
  {
    var pre := TrimLeftKeeps(s);
    var post := TrimRightKeeps(TrimLeft(s));
    assert s == pre + TrimSpace(s) + post;
    assert IsCore(s, pre, TrimSpace(s), post);
    if a, b :| IsCore(s, a, core, b) {
      assert s == a + (core + b);
      if core == "" {
        assert a + b == (a + b) + "" && s == a + b;
        TrimLeftCuts(a + b, "");
      } else {
        TrimLeftCuts(a, core + b);
        TrimRightCuts(core, b);
      }
    }
  }
}
