/** Session ids from names: `slugify`. */
module Slug {
  import opened Sequences

  predicate IsAlphanumeric(c: char) {
    '0' <= c <= '9' || 'a' <= c <= 'z' || 'A' <= c <= 'Z'
  }

  /** What lower-casing leaves of the letters and digits that a slug keeps. */
  predicate IsKept(c: char) {
    '0' <= c <= '9' || 'a' <= c <= 'z'
  }

  function Hyphenate(s: string): (t: string)
    ensures |t| == |s| && forall i :: 0 <= i < |s| ==> t[i] == if IsAlphanumeric(s[i]) then s[i] else '-'
  {
    if s == [] then [] else [if IsAlphanumeric(s[0]) then s[0] else '-'] + Hyphenate(s[1..])
  }

  /** The pieces between hyphens: one more than there are hyphens. */
  function Split(s: string): (pieces: seq<string>)
    ensures pieces != []
  {
    if s == [] then [""]
    else
      var rest := Split(s[1..]);
      if s[0] == '-' then [""] + rest else [[s[0]] + rest[0]] + rest[1..]
  }

  function NonEmpty(pieces: seq<string>): seq<string> {
    if pieces == [] then [] else (if pieces[0] == "" then [] else [pieces[0]]) + NonEmpty(pieces[1..])
  }

  function Join(pieces: seq<string>): string {
    if pieces == [] then "" else if |pieces| == 1 then pieces[0] else pieces[0] + "-" + Join(pieces[1..])
  }

  /** `lowered` is the lower-cased name. */
  function SlugOf(lowered: string): string {
    Join(NonEmpty(Split(Hyphenate(lowered))))
  }

  function Slugify(s: string, lower: string -> string): string {
    SlugOf(lower(s))
  }

  // ---------------------------------------------------------------- one pass

  /** Reads from left to right. `started` says that a letter or digit was written, `gap` that something else was read
      since; a hyphen is written only when the gap ends. */
  function OnePass(s: string, started: bool, gap: bool): string {
    if s == [] then []
    else if !('0' <= s[0] <= '9' || 'a' <= s[0] <= 'z' || 'A' <= s[0] <= 'Z') then OnePass(s[1..], started, true)
    else (if started && gap then "-" else "") + [s[0]] + OnePass(s[1..], true, false)
  }

  predicate IsPiece(p: string) {
    p != "" && forall c :: c in p ==> IsAlphanumeric(c)
  }

  predicate ArePieces(pieces: seq<string>) {
    forall p :: p in pieces ==> IsPiece(p)
  }

  lemma {:induction false} SplitPieces(s: string)
    ensures forall p, c :: p in Split(Hyphenate(s)) && c in p ==> IsAlphanumeric(c)
    decreases |s|
  {
    if s != [] {
      SplitPieces(s[1..]);
      assert Hyphenate(s)[1..] == Hyphenate(s[1..]);
    }
  }

  lemma {:induction false} NonEmptyPieces(pieces: seq<string>)
    requires forall p, c :: p in pieces && c in p ==> IsAlphanumeric(c)
    ensures ArePieces(NonEmpty(pieces))
  {
    if pieces != [] {
      assert forall p :: p in pieces[1..] ==> p in pieces;
      NonEmptyPieces(pieces[1..]);
    }
  }

  /** A slug is empty, or runs of letters and digits joined by single hyphens, with none at either end. */
  lemma SlugIsNormal(s: string)
    ensures exists pieces :: ArePieces(pieces) && SlugOf(s) == Join(pieces)
    ensures SlugOf(s) != "" ==> IsAlphanumeric(SlugOf(s)[0]) && IsAlphanumeric(SlugOf(s)[|SlugOf(s)| - 1])
    ensures forall i :: 0 <= i < |SlugOf(s)| ==> IsAlphanumeric(SlugOf(s)[i]) || SlugOf(s)[i] == '-'
    ensures forall i :: 0 < i < |SlugOf(s)| ==> !(SlugOf(s)[i - 1] == '-' && SlugOf(s)[i] == '-')
  {
    SplitPieces(s);
    NonEmptyPieces(Split(Hyphenate(s)));
    JoinIsNormal(NonEmpty(Split(Hyphenate(s))));
  }

  lemma {:induction false} JoinIsNormal(pieces: seq<string>)
    requires ArePieces(pieces)
    ensures pieces != [] ==> Join(pieces) != ""
    ensures pieces != [] ==> IsAlphanumeric(Join(pieces)[0]) && IsAlphanumeric(Join(pieces)[|Join(pieces)| - 1])
    ensures forall i :: 0 <= i < |Join(pieces)| ==> IsAlphanumeric(Join(pieces)[i]) || Join(pieces)[i] == '-'
    ensures forall i :: 0 < i < |Join(pieces)| ==> !(Join(pieces)[i - 1] == '-' && Join(pieces)[i] == '-')
  {
    if pieces != [] {
      assert IsPiece(pieces[0]);
      assert forall i :: 0 <= i < |pieces[0]| ==> pieces[0][i] in pieces[0];
      if |pieces| > 1 {
        assert forall p :: p in pieces[1..] ==> p in pieces;
        JoinIsNormal(pieces[1..]);
        var (a, rest) := (pieces[0], Join(pieces[1..]));
        var joined := a + "-" + rest;
        assert joined[|a|] == '-' && joined[|a| + 1..] == rest;
        assert forall i :: 0 <= i < |a| ==> joined[i] == a[i];
        assert forall i :: |a| < i < |joined| ==> joined[i] == rest[i - |a| - 1];
      }
    }
  }

  // ---------------------------------------------------------------- the one pass is the slug

  function Pieces(s: string): seq<string> {
    NonEmpty(Split(Hyphenate(s)))
  }

  function Resumed(pieces: seq<string>): string {
    if pieces == [] then "" else "-" + Join(pieces)
  }

  lemma JoinCons(piece: string, pieces: seq<string>)
    ensures Join([piece] + pieces) == piece + Resumed(pieces)
  {
    assert ([piece] + pieces)[1..] == pieces;
  }

  lemma HyphenateCons(s: string)
    requires s != ""
    ensures Hyphenate(s)[0] == (if IsAlphanumeric(s[0]) then s[0] else '-') && Hyphenate(s)[1..] == Hyphenate(s[1..])
  {
  }

  /** What the rest of the name adds, from each state of the pass. */
  predicate PassesAs(s: string) {
    OnePass(s, false, false) == Join(Pieces(s)) && OnePass(s, false, true) == Join(Pieces(s))
    && OnePass(s, true, true) == Resumed(Pieces(s))
    && OnePass(s, true, false) == Split(Hyphenate(s))[0] + Resumed(NonEmpty(Split(Hyphenate(s))[1..]))
  }

  lemma LetterIsWritten(s: string)
    requires s != "" && IsAlphanumeric(s[0])
    ensures var written := [s[0]] + OnePass(s[1..], true, false);
            OnePass(s, false, false) == written && OnePass(s, false, true) == written
            && OnePass(s, true, false) == written && OnePass(s, true, true) == "-" + written
  {
    var rest := OnePass(s[1..], true, false);
    assert "" + [s[0]] + rest == [s[0]] + rest;
    assert "-" + [s[0]] + rest == "-" + ([s[0]] + rest);
  }

  lemma LetterJoinsPiece(s: string)
    requires s != "" && IsAlphanumeric(s[0])
    ensures var rest := Split(Hyphenate(s[1..]));
            Split(Hyphenate(s))[0] == [s[0]] + rest[0] && Split(Hyphenate(s))[1..] == rest[1..]
            && Pieces(s) == [[s[0]] + rest[0]] + NonEmpty(rest[1..])
  {
    HyphenateCons(s);
    var rest := Split(Hyphenate(s[1..]));
    assert Split(Hyphenate(s)) == [[s[0]] + rest[0]] + rest[1..];
  }

  lemma PassOverLetter(s: string)
    requires s != "" && IsAlphanumeric(s[0]) && PassesAs(s[1..])
    ensures PassesAs(s)
  {
    LetterIsWritten(s);
    LetterJoinsPiece(s);
    var rest := Split(Hyphenate(s[1..]));
    JoinCons([s[0]] + rest[0], NonEmpty(rest[1..]));
    Associates([s[0]], rest[0], Resumed(NonEmpty(rest[1..])));
  }

  lemma PassOverGap(s: string)
    requires s != "" && !IsAlphanumeric(s[0]) && PassesAs(s[1..])
    ensures PassesAs(s)
  {
    HyphenateCons(s);
    var rest := Split(Hyphenate(s[1..]));
    assert Split(Hyphenate(s)) == [""] + rest && ([""] + rest)[1..] == rest;
    assert Pieces(s) == Pieces(s[1..]);
    assert OnePass(s, true, false) == "" + Resumed(Pieces(s));
  }

  lemma {:induction false} OnePassFromAnyState(s: string)
    ensures PassesAs(s)
    decreases |s|
  {
    if s != "" {
      OnePassFromAnyState(s[1..]);
      if IsAlphanumeric(s[0]) {
        PassOverLetter(s);
      } else {
        PassOverGap(s);
      }
    }
  }

  /** Mapping, splitting, dropping and joining comes to one pass over the name. */
  lemma SlugIsOnePass(s: string)
    ensures SlugOf(s) == OnePass(s, false, false)
  {
    OnePassFromAnyState(s);
  }

  // ---------------------------------------------------------------- a slug is its own slug

  /** Lower-casing leaves no capital of the Latin alphabet behind and does not touch lower-case letters, digits and
      hyphens. */
  ghost predicate IsLowerCasing(lower: string -> string) {
    forall s :: (forall c :: c in lower(s) && IsAlphanumeric(c) ==> IsKept(c))
                && ((forall c :: c in s ==> IsKept(c) || c == '-') ==> lower(s) == s)
  }

  function LowerChar(c: char): (d: char)
    ensures IsAlphanumeric(d) ==> IsKept(d)
    ensures IsKept(c) || c == '-' ==> d == c
  {
    if 'A' <= c <= 'Z' then (c as int + 32) as char else c
  }

  /** Lower-casing as far as ASCII goes. */
  function AsciiLower(s: string): (t: string)
    ensures |t| == |s| && forall i :: 0 <= i < |s| ==> t[i] == LowerChar(s[i])
  {
    if s == [] then [] else [LowerChar(s[0])] + AsciiLower(s[1..])
  }

  lemma AsciiLowerIsLowerCasing()
    ensures IsLowerCasing(AsciiLower)
  {
    forall s: string | forall c :: c in s ==> IsKept(c) || c == '-' ensures AsciiLower(s) == s {
      assert forall i :: 0 <= i < |s| ==> s[i] in s;
    }
  }

  lemma {:induction false} HyphenateIsIdentity(s: string)
    requires forall c :: c in s ==> IsAlphanumeric(c) || c == '-'
    ensures Hyphenate(s) == s
  {
    forall i | 0 <= i < |s| ensures Hyphenate(s)[i] == s[i] {
      assert s[i] in s;
    }
  }

  lemma {:induction false} SplitAtHyphen(a: string, s: string)
    requires forall c :: c in a ==> c != '-'
    ensures Split(a + "-" + s) == [a] + Split(s) && Split(a) == [a]
    decreases |a|
  {
    if a == "" {
      assert a + "-" + s == "-" + s && ("-" + s)[1..] == s;
    } else {
      assert a[0] in a && forall c :: c in a[1..] ==> c in a;
      SplitAtHyphen(a[1..], s);
      assert (a + "-" + s)[1..] == a[1..] + "-" + s && (a + "-" + s)[0] == a[0];
      assert [a[0]] + a[1..] == a;
    }
  }

  lemma {:induction false} SplitUndoesJoin(pieces: seq<string>)
    requires ArePieces(pieces)
    ensures NonEmpty(Split(Join(pieces))) == pieces
    decreases |pieces|
  {
    if pieces != [] {
      var a, rest := pieces[0], pieces[1..];
      assert IsPiece(a);
      if rest == [] {
        SplitAtHyphen(a, "");
        assert NonEmpty([a]) == [a] + NonEmpty([]);
      } else {
        assert forall p :: p in rest ==> p in pieces;
        SplitUndoesJoin(rest);
        SplitAtHyphen(a, Join(rest));
        assert ([a] + Split(Join(rest)))[1..] == Split(Join(rest));
      }
    }
  }

  lemma {:induction false} JoinedCharacters(pieces: seq<string>, c: char)
    requires c in Join(pieces)
    ensures c == '-' || exists p :: p in pieces && c in p
  {
    if |pieces| > 1 && c !in pieces[0] && c != '-' {
      assert Join(pieces) == pieces[0] + "-" + Join(pieces[1..]);
      JoinedCharacters(pieces[1..], c);
      var p :| p in pieces[1..] && c in p;
      assert p in pieces;
    } else if |pieces| >= 1 && c in pieces[0] {
      assert pieces[0] in pieces;
    }
  }

  lemma {:induction false} KeptPieces(pieces: seq<string>, p: string)
    requires p in NonEmpty(pieces)
    ensures p in pieces
  {
    if p != pieces[0] {
      KeptPieces(pieces[1..], p);
    }
  }

  lemma PieceCharacters(s: string, p: string, c: char)
    requires p in Pieces(s) && c in p
    ensures c in s && IsAlphanumeric(c)
  {
    KeptPieces(Split(Hyphenate(s)), p);
    SplitPieces(s);
    PiecesComeFrom(Hyphenate(s), p, c);
    var i :| 0 <= i < |s| && Hyphenate(s)[i] == c;
    assert s[i] == c;
  }

  lemma {:induction false} PiecesComeFrom(s: string, p: string, c: char)
    requires p in Split(s) && c in p
    ensures c in s
    decreases |s|
  {
    if s != "" && c != s[0] {
      var rest := Split(s[1..]);
      if s[0] != '-' && p == [s[0]] + rest[0] {
        assert c in rest[0];
        PiecesComeFrom(s[1..], rest[0], c);
      } else {
        assert p in rest;
        PiecesComeFrom(s[1..], p, c);
      }
    }
  }

  lemma SlugOfSlug(s: string)
    ensures SlugOf(SlugOf(s)) == SlugOf(s)
  {
    SplitPieces(s);
    NonEmptyPieces(Split(Hyphenate(s)));
    forall c | c in SlugOf(s) ensures IsAlphanumeric(c) || c == '-' {
      JoinedCharacters(Pieces(s), c);
      if c != '-' {
        var p :| p in Pieces(s) && c in p;
        PieceCharacters(s, p, c);
      }
    }
    HyphenateIsIdentity(SlugOf(s));
    SplitUndoesJoin(Pieces(s));
  }

  /** Whatever Unicode lower-casing does beyond that, a slug is its own slug. */
  lemma SlugifyIsIdempotent(s: string, lower: string -> string)
    requires IsLowerCasing(lower)
    ensures Slugify(Slugify(s, lower), lower) == Slugify(s, lower)
  {
    var slug := SlugOf(lower(s));
    forall c | c in slug ensures IsKept(c) || c == '-' {
      JoinedCharacters(Pieces(lower(s)), c);
      if c != '-' {
        var p :| p in Pieces(lower(s)) && c in p;
        PieceCharacters(lower(s), p, c);
      }
    }
    assert lower(slug) == slug;
    SlugOfSlug(lower(s));
  }
}
