/**
 * The text operations the chart loader of src/BeatMapHandler.cpp performs on
 * one line of a chart: prefix tests (`compare(0, n, key)`), the first-match
 * search `std::string::find`, splitting on the delimiter, removing spaces
 * (the erase-remove idiom) and the camelCase-to-spaced transformation of a
 * beatmap name. Each is a specification function; the lemmas below state
 * what the loader relies on.
 */
module ChartText {
  import opened Wrappers

  /** `s` begins with `prefix`: the meaning of `s.compare(0, prefix.size(), prefix) == 0`. */
  predicate StartsWith(s: string, prefix: string)
  {
    |prefix| <= |s| && s[..|prefix|] == prefix
  }

  /** `s.find_first_not_of(' ') != npos`: some character of `s` is not a space. */
  predicate HasNonSpace(s: string)
  {
    exists i :: 0 <= i < |s| && s[i] != ' '
  }

  /** `d` occurs in `s` starting at index `q`. */
  predicate OccursAt(s: string, d: string, q: int)
  {
    0 <= q && q + |d| <= |s| && s[q..q + |d|] == d
  }

  ghost predicate Contains(s: string, d: string)
  {
    exists q :: OccursAt(s, d, q)
  }

  lemma OccursShift(s: string, d: string)
    requires s != []
    ensures forall q {:trigger OccursAt(s, d, q)} :: 1 <= q ==> (OccursAt(s, d, q) <==> OccursAt(s[1..], d, q - 1))
  {
    forall q | 1 <= q
      ensures OccursAt(s, d, q) <==> OccursAt(s[1..], d, q - 1)
    {
      if q + |d| <= |s| {
        assert s[1..][q - 1..q - 1 + |d|] == s[q..q + |d|];
      }
    }
  }

  /** `s.find(d)`: the index of the first occurrence of `d` in `s`, or None for npos. */
  function Find(s: string, d: string): (r: Option<nat>)
    requires d != []
    ensures r.Some? ==> OccursAt(s, d, r.value)
    decreases |s|
  {
    if |s| < |d| then None
    else if s[..|d|] == d then Some(0)
    else
      OccursShift(s, d);
      match Find(s[1..], d)
      case None => None
      case Some(p) => Some(p + 1)
  }

  /** `find` answers the first occurrence, and npos only when there is none. */
  lemma {:induction false} FindIsFirst(s: string, d: string)
    requires d != []
    ensures Find(s, d).Some? ==> forall q :: 0 <= q < Find(s, d).value ==> !OccursAt(s, d, q)
    ensures Find(s, d).None? ==> forall q :: !OccursAt(s, d, q)
    decreases |s|
  {
    if |s| < |d| {
    } else if s[..|d|] == d {
    } else {
      OccursShift(s, d);
      FindIsFirst(s[1..], d);
    }
  }

  /** If `d` occurs at `p` and nowhere before, `find` answers `p`. */
  lemma FindFirst(s: string, d: string, p: nat)
    requires d != []
    requires OccursAt(s, d, p)
    requires forall q :: 0 <= q < p ==> !OccursAt(s, d, q)
    ensures Find(s, d) == Some(p)
  {
    FindIsFirst(s, d);
  }

  lemma PrefixBeforeFirst(s: string, d: string, p: nat)
    requires d != []
    requires OccursAt(s, d, p)
    requires forall q :: 0 <= q < p ==> !OccursAt(s, d, q)
    ensures !Contains(s[..p], d)
  {
    forall q | OccursAt(s[..p], d, q)
      ensures false
    {
      assert s[..p][q..q + |d|] == s[q..q + |d|];
      assert OccursAt(s, d, q);
    }
  }

  /**
   * The tokens the loader takes from a line: each `find(d)` cuts off the text
   * before the delimiter as one token and erases it together with the
   * delimiter; what is left when no delimiter remains is the last token.
   */
  function Tokens(s: string, d: string): (r: seq<string>)
    requires d != []
    ensures |r| >= 1
    decreases |s|
  {
    match Find(s, d)
    case None => [s]
    case Some(p) => [s[..p]] + Tokens(s[p + |d|..], d)
  }

  /** No token contains the delimiter. */
  lemma {:induction false} TokensHaveNoDelimiter(s: string, d: string)
    requires d != []
    ensures forall t :: t in Tokens(s, d) ==> !Contains(t, d)
    decreases |s|
  {
    FindIsFirst(s, d);
    match Find(s, d)
    case None =>
    case Some(p) =>
      PrefixBeforeFirst(s, d, p);
      TokensHaveNoDelimiter(s[p + |d|..], d);
  }

  /** Where the delimiter occurs first, the first token ends and the rest of the text is tokenised on its own. */
  lemma TokensStep(s: string, d: string, p: nat)
    requires d != [] && Find(s, d) == Some(p) && p + |d| <= |s|
    ensures Tokens(s, d) == [s[..p]] + Tokens(s[p + |d|..], d)
  {
  }

  /** Cutting the next token off the text still to be tokenised. */
  lemma TokensAfter(line: string, d: string, taken: seq<string>, s: string, p: nat)
    requires d != [] && Find(s, d) == Some(p)
    requires Tokens(line, d) == taken + Tokens(s, d)
    ensures p + |d| <= |s|
    ensures Tokens(line, d) == (taken + [s[..p]]) + Tokens(s[p + |d|..], d)
  {
    TokensStep(s, d, p);
    assert taken + ([s[..p]] + Tokens(s[p + |d|..], d)) == (taken + [s[..p]]) + Tokens(s[p + |d|..], d);
  }

  /** When no delimiter is left, the text still to be tokenised is the last token. */
  lemma TokensAtEnd(line: string, d: string, taken: seq<string>, s: string)
    requires d != [] && Find(s, d).None?
    requires Tokens(line, d) == taken + Tokens(s, d)
    ensures var toks := Tokens(line, d); toks[|toks| - 1] == s && toks[..|toks| - 1] == taken
  {
    assert Tokens(s, d) == [s];
    assert (taken + [s])[..|taken|] == taken;
  }

  /** The tokens put back together, with the delimiter between each two. */
  function Join(ts: seq<string>, d: string): string
    requires |ts| >= 1
    decreases |ts|
  {
    if |ts| == 1 then ts[0] else ts[0] + d + Join(ts[1..], d)
  }

  /** Tokenising loses nothing: joining the tokens with the delimiter gives the line back. */
  lemma {:induction false} JoinTokens(s: string, d: string)
    requires d != []
    ensures Join(Tokens(s, d), d) == s
    decreases |s|
  {
    match Find(s, d)
    case None =>
    case Some(p) =>
      var rest := s[p + |d|..];
      TokensStep(s, d, p);
      JoinTokens(rest, d);
      assert s[p..p + |d|] == d;
      assert s == s[..p] + d + rest;
  }

  /**
   * Tokens that can be told apart again after joining: in each token but the
   * last, followed by the delimiter, the first delimiter is the appended one,
   * and the last token holds no delimiter at all.
   */
  ghost predicate Separable(ts: seq<string>, d: string)
    requires d != []
  {
    && |ts| >= 1
    && (forall i :: 0 <= i < |ts| - 1 ==> Find(ts[i] + d, d) == Some(|ts[i]|))
    && !Contains(ts[|ts| - 1], d)
  }

  lemma FindExtends(a: string, d: string, b: string)
    requires d != []
    requires Find(a + d, d) == Some(|a|)
    ensures Find(a + d + b, d) == Some(|a|)
  {
    var s := a + d + b;
    FindIsFirst(a + d, d);
    assert s[|a|..|a| + |d|] == d;
    forall q | 0 <= q < |a|
      ensures !OccursAt(s, d, q)
    {
      if OccursAt(s, d, q) {
        assert (a + d)[q..q + |d|] == s[q..q + |d|];
        assert OccursAt(a + d, d, q);
      }
    }
    FindFirst(s, d, |a|);
  }

  /** The converse round trip: separable tokens are recovered by tokenising their join. */
  lemma {:induction false} TokensJoin(ts: seq<string>, d: string)
    requires d != []
    requires Separable(ts, d)
    ensures Tokens(Join(ts, d), d) == ts
    decreases |ts|
  {
    if |ts| == 1 {
      NoDelimiterFindsNothing(ts[0], d);
    } else {
      var tail := ts[1..];
      SeparableTail(ts, d);
      TokensJoin(tail, d);
      TokensOfJoined(ts[0], d, Join(tail, d));
      assert ts == [ts[0]] + tail;
    }
  }

  lemma SeparableTail(ts: seq<string>, d: string)
    requires d != []
    requires Separable(ts, d) && |ts| > 1
    ensures Separable(ts[1..], d)
    ensures Find(ts[0] + d, d) == Some(|ts[0]|)
  {
    var tail := ts[1..];
    forall i | 0 <= i < |tail| - 1
      ensures Find(tail[i] + d, d) == Some(|tail[i]|)
    {
      assert tail[i] == ts[i + 1];
    }
    assert tail[|tail| - 1] == ts[|ts| - 1];
  }

  lemma NoDelimiterFindsNothing(s: string, d: string)
    requires d != []
    requires !Contains(s, d)
    ensures Tokens(s, d) == [s]
  {
  }

  lemma TokensOfJoined(a: string, d: string, b: string)
    requires d != []
    requires Find(a + d, d) == Some(|a|)
    ensures Tokens(a + d + b, d) == [a] + Tokens(b, d)
  {
    var s := a + d + b;
    FindExtends(a, d, b);
    assert s[..|a|] == a;
    assert s[|a| + |d|..] == b;
  }

  /** The erase-remove idiom `erase(remove(begin, end, ' '), end)`: every space taken out. */
  function RemoveSpaces(s: string): (r: string)
    ensures ' ' !in r
    ensures |r| <= |s|
    decreases |s|
  {
    if s == [] then []
    else RemoveSpaces(s[..|s| - 1]) + (if s[|s| - 1] == ' ' then [] else [s[|s| - 1]])
  }

  /** Removing spaces works piece by piece, so every other character keeps its order. */
  lemma {:induction false} RemoveSpacesAppend(a: string, b: string)
    ensures RemoveSpaces(a + b) == RemoveSpaces(a) + RemoveSpaces(b)
    decreases |b|
  {
    if b == [] {
      assert a + b == a;
    } else {
      var b' := b[..|b| - 1];
      assert (a + b)[..|a + b| - 1] == a + b';
      RemoveSpacesAppend(a, b');
    }
  }

  /** A text without spaces is left as it is. */
  lemma {:induction false} RemoveSpacesOfSpaceless(s: string)
    requires ' ' !in s
    ensures RemoveSpaces(s) == s
    decreases |s|
  {
    if s != [] {
      var s' := s[..|s| - 1];
      assert forall c :: c in s' ==> c in s;
      RemoveSpacesOfSpaceless(s');
      assert s == s' + [s[|s| - 1]];
    }
  }

  /** `isupper` in the C locale. */
  predicate IsUpper(c: char)
  {
    'A' <= c <= 'Z'
  }

  /** What the name loop makes of the character at index `i`: a space goes before it when it is upper case and not the first. */
  function NamePiece(i: nat, c: char): string
  {
    if i != 0 && IsUpper(c) then [' ', c] else [c]
  }

  /** The beatmap name transformation: a space before every upper-case character at an index above 0. */
  function Spaced(s: string): string
    decreases |s|
  {
    if s == [] then []
    else Spaced(s[..|s| - 1]) + NamePiece(|s| - 1, s[|s| - 1])
  }

  /** Transforming one more character of a prefix appends that character's piece. */
  lemma SpacedPrefixStep(s: string, k: nat)
    requires k < |s|
    ensures Spaced(s[..k + 1]) == Spaced(s[..k]) + NamePiece(k, s[k])
  {
    assert s[..k + 1][..k] == s[..k];
  }

  /** The number of upper-case characters at indices above 0. */
  function UpperAfterFirst(s: string): nat
    decreases |s|
  {
    if |s| <= 1 then 0
    else UpperAfterFirst(s[..|s| - 1]) + (if IsUpper(s[|s| - 1]) then 1 else 0)
  }

  /** The name grows by one character per space inserted. */
  lemma {:induction false} SpacedLength(s: string)
    ensures |Spaced(s)| == |s| + UpperAfterFirst(s)
    decreases |s|
  {
    if s != [] {
      SpacedLength(s[..|s| - 1]);
    }
  }

  /** Only spaces are inserted: with spaces removed, the transformed name is the original. */
  lemma {:induction false} SpacedChangesOnlySpaces(s: string)
    ensures RemoveSpaces(Spaced(s)) == RemoveSpaces(s)
    decreases |s|
  {
    if s != [] {
      var s' := s[..|s| - 1];
      var c := s[|s| - 1];
      var piece := NamePiece(|s| - 1, c);
      SpacedChangesOnlySpaces(s');
      calc {
        RemoveSpaces(Spaced(s));
        { assert Spaced(s) == Spaced(s') + piece; }
        RemoveSpaces(Spaced(s') + piece);
        { RemoveSpacesAppend(Spaced(s'), piece); }
        RemoveSpaces(Spaced(s')) + RemoveSpaces(piece);
        { PieceLosesItsSpace(|s| - 1, c); }
        RemoveSpaces(s') + RemoveSpaces([c]);
        { RemoveSpacesAppend(s', [c]); assert s == s' + [c]; }
        RemoveSpaces(s);
      }
    }
  }

  lemma PieceLosesItsSpace(i: nat, c: char)
    ensures RemoveSpaces(NamePiece(i, c)) == RemoveSpaces([c])
  {
    if i != 0 && IsUpper(c) {
      assert [' ', c][..1] == [' '];
    }
  }

  /**
   * Where the spaces go, for a name without spaces of its own (the loader
   * strips them first): the first character stays first, every upper-case
   * character after the first position is preceded by a space, and every
   * space stands between a character and an upper-case one.
   */
  lemma {:induction false} SpacedPlacement(s: string)
    requires ' ' !in s
    ensures s != [] ==> |Spaced(s)| > 0 && Spaced(s)[0] == s[0]
    ensures forall j :: 0 < j < |Spaced(s)| && IsUpper(Spaced(s)[j]) ==> Spaced(s)[j - 1] == ' '
    ensures forall j :: 0 <= j < |Spaced(s)| && Spaced(s)[j] == ' ' ==>
              0 < j && j + 1 < |Spaced(s)| && IsUpper(Spaced(s)[j + 1])
    decreases |s|
  {
    if s != [] {
      var s' := s[..|s| - 1];
      var c := s[|s| - 1];
      assert forall x :: x in s' ==> x in s;
      SpacedPlacement(s');
      SpacedLength(s');
      var p := Spaced(s');
      var r := Spaced(s);
      assert r == p + NamePiece(|s| - 1, c);
      assert c != ' ';
      forall j | 0 < j < |r| && IsUpper(r[j])
        ensures r[j - 1] == ' '
      {
        if j < |p| {
          assert r[j] == p[j] && r[j - 1] == p[j - 1];
        }
      }
      forall j | 0 <= j < |r| && r[j] == ' '
        ensures 0 < j && j + 1 < |r| && IsUpper(r[j + 1])
      {
        if j < |p| {
          assert r[j] == p[j];
        }
      }
    }
  }
}
