/** The text parser of the planetary-positions endpoint
    (src/routes/api/planets/positions/+server.ts, parseHorizonsData): JPL Horizons answers
    with a plain-text page whose ephemeris table sits between a `$$SOE` line and a `$$EOE`
    line; the parser reads the position line and the velocity line that follow the date
    line after `$$SOE` and cuts each one at its axis labels.

    Strings are modelled as they are; `parseFloat` and the conversion from km to AU are
    not, so each axis holds the text that `parseFloat` would read. */
module HorizonsParser {
  import opened Outcomes

  /** ECMAScript WhiteSpace and LineTerminator code points: what `String.prototype.trim`
      removes and what the regular-expression class `\s` matches. */
  predicate IsWhitespace(c: char) {
    || c == '\t' || c == '\n' || c == '\U{000B}' || c == '\U{000C}' || c == '\r' || c == ' '
    || c == '\U{00A0}' || c == '\U{1680}' || ('\U{2000}' <= c <= '\U{200A}')
    || c == '\U{2028}' || c == '\U{2029}' || c == '\U{202F}' || c == '\U{205F}'
    || c == '\U{3000}' || c == '\U{FEFF}'
  }

  // ---------------------------------------------------------------------------
  // data.split('\n')
  // ---------------------------------------------------------------------------

  /** `s.split(c)` for a one-character separator: the runs between occurrences of `c`,
      always at least one (the empty string gives `[""]`). */
  function SplitOnChar(s: string, c: char): (pieces: seq<string>)
    ensures |pieces| >= 1
    ensures forall k :: 0 <= k < |pieces| ==> c !in pieces[k]
  {
    if |s| == 0 then [""]
    else
      var rest := SplitOnChar(s[1..], c);
      if s[0] == c then [""] + rest else [[s[0]] + rest[0]] + rest[1..]
  }

  /** `pieces.join(c)`, the inverse of `SplitOnChar`. */
  function JoinWith(pieces: seq<string>, c: char): string
    requires |pieces| >= 1
  {
    if |pieces| == 1 then pieces[0] else pieces[0] + [c] + JoinWith(pieces[1..], c)
  }

  /** Joining the pieces back with the separator gives the original text. */
  lemma {:induction false} JoinSplit(s: string, c: char)
    ensures JoinWith(SplitOnChar(s, c), c) == s
  {
    if |s| > 0 {
      JoinSplit(s[1..], c);
      var rest := SplitOnChar(s[1..], c);
      var pieces := SplitOnChar(s, c);
      if s[0] == c {
        assert pieces[1..] == rest;
      } else if |rest| > 1 {
        assert pieces[1..] == rest[1..];
      }
    }
  }

  lemma {:induction false} SplitWithoutSeparator(s: string, c: char)
    requires c !in s
    ensures SplitOnChar(s, c) == [s]
  {
    if |s| > 0 {
      SplitWithoutSeparator(s[1..], c);
      assert [s[0]] + s[1..] == s;
    }
  }

  lemma {:induction false} SplitAfterPiece(p: string, c: char, rest: string)
    requires c !in p
    ensures SplitOnChar(p + [c] + rest, c) == [p] + SplitOnChar(rest, c)
  {
    if |p| == 0 {
      assert p + [c] + rest == [c] + rest;
      assert ([c] + rest)[1..] == rest;
    } else {
      SplitAfterPiece(p[1..], c, rest);
      assert (p + [c] + rest)[1..] == p[1..] + [c] + rest;
      assert [p[0]] + p[1..] == p;
    }
  }

  /** Splitting lines that hold no separator, once joined, gives back exactly those lines. */
  lemma {:induction false} SplitJoin(pieces: seq<string>, c: char)
    requires |pieces| >= 1
    requires forall k :: 0 <= k < |pieces| ==> c !in pieces[k]
    ensures SplitOnChar(JoinWith(pieces, c), c) == pieces
  {
    if |pieces| == 1 {
      SplitWithoutSeparator(pieces[0], c);
    } else {
      SplitJoin(pieces[1..], c);
      SplitAfterPiece(pieces[0], c, JoinWith(pieces[1..], c));
    }
  }

  // ---------------------------------------------------------------------------
  // lines.findIndex(line => line.includes(marker))
  // ---------------------------------------------------------------------------

  /** `line.includes(pattern)`: `pattern` is a prefix of `line` or of one of its suffixes. */
  predicate Contains(line: string, pattern: string)
    decreases |line|
  {
    |pattern| <= |line| && (line[..|pattern|] == pattern || Contains(line[1..], pattern))
  }

  /** `pattern` occurs in `line` starting at index `i`. */
  predicate OccursAt(line: string, pattern: string, i: int) {
    0 <= i <= |line| - |pattern| && line[i..i + |pattern|] == pattern
  }

  /** `Contains` holds exactly when the pattern occurs at some index of the line. */
  lemma {:induction false} ContainsIsOccurrence(line: string, pattern: string)
    ensures Contains(line, pattern) <==> exists i :: OccursAt(line, pattern, i)
    decreases |line|
  {
    if |pattern| <= |line| {
      if line[..|pattern|] == pattern {
        assert OccursAt(line, pattern, 0);
      } else {
        ContainsIsOccurrence(line[1..], pattern);
        forall i | 0 < i <= |line| - |pattern|
          ensures OccursAt(line, pattern, i) <==> OccursAt(line[1..], pattern, i - 1)
        {
          assert line[1..][i - 1..i - 1 + |pattern|] == line[i..i + |pattern|];
        }
        if Contains(line[1..], pattern) {
          var i :| OccursAt(line[1..], pattern, i);
          assert OccursAt(line, pattern, i + 1);
        }
      }
    }
  }

  /** `i` is the first index whose line contains `pattern`. */
  ghost predicate IsFirstContaining(lines: seq<string>, pattern: string, i: int) {
    0 <= i < |lines| && Contains(lines[i], pattern) &&
    forall j :: 0 <= j < i ==> !Contains(lines[j], pattern)
  }

  ghost predicate NoneContains(lines: seq<string>, pattern: string) {
    forall j :: 0 <= j < |lines| ==> !Contains(lines[j], pattern)
  }

  /** `lines.findIndex(line => line.includes(pattern))`: the first index whose line contains
      the pattern, or -1 when no line does. */
  function FindIndex(lines: seq<string>, pattern: string): (r: int)
    ensures -1 <= r < |lines|
    ensures r >= 0 ==> IsFirstContaining(lines, pattern, r)
    ensures r == -1 <==> NoneContains(lines, pattern)
  {
    if |lines| == 0 then -1
    else if Contains(lines[0], pattern) then 0
    else
      var r := FindIndex(lines[1..], pattern);
      assert forall j :: 1 <= j < |lines| ==> lines[j] == lines[1..][j - 1];
      if r == -1 then -1 else r + 1
  }

  // ---------------------------------------------------------------------------
  // line.trim()
  // ---------------------------------------------------------------------------

  /** Drops the leading whitespace: what is left is a suffix of `s` that is empty or starts
      with a non-whitespace character, and everything dropped is whitespace. */
  function TrimStart(s: string): (r: string)
    ensures |r| <= |s| && r == s[|s| - |r|..]
    ensures forall k :: 0 <= k < |s| - |r| ==> IsWhitespace(s[k])
    ensures r == [] || !IsWhitespace(r[0])
  {
    if |s| > 0 && IsWhitespace(s[0]) then TrimStart(s[1..]) else s
  }

  /** Drops the trailing whitespace, symmetrically to `TrimStart`. */
  function TrimEnd(s: string): (r: string)
    ensures |r| <= |s| && r == s[..|r|]
    ensures forall k :: |r| <= k < |s| ==> IsWhitespace(s[k])
    ensures r == [] || !IsWhitespace(r[|r| - 1])
  {
    if |s| > 0 && IsWhitespace(s[|s| - 1]) then TrimEnd(s[..|s| - 1]) else s
  }

  /** `s.trim()`: the contiguous middle of `s` between its leading and trailing whitespace,
      everything cut off on either side being whitespace; it is empty exactly when `s` is
      all whitespace. */
  function Trim(s: string): (r: string)
    ensures r == [] || (!IsWhitespace(r[0]) && !IsWhitespace(r[|r| - 1]))
    ensures r == [] <==> forall k :: 0 <= k < |s| ==> IsWhitespace(s[k])
    ensures exists i :: OccursAt(s, r, i) && AllWhitespace(s, 0, i) && AllWhitespace(s, i + |r|, |s|)
  {
    var t := TrimStart(s);
    WhitespaceAround(s, t, TrimEnd(t));
    TrimEnd(t)
  }

  /** A suffix `t` of `s` after leading whitespace, and a prefix `r` of `t` before trailing
      whitespace, sit in `s` with only whitespace around them. */
  lemma WhitespaceAround(s: string, t: string, r: string)
    requires |t| <= |s| && t == s[|s| - |t|..]
    requires forall k :: 0 <= k < |s| - |t| ==> IsWhitespace(s[k])
    requires t == [] || !IsWhitespace(t[0])
    requires |r| <= |t| && r == t[..|r|]
    requires forall k :: |r| <= k < |t| ==> IsWhitespace(t[k])
    ensures var i := |s| - |t|;
      && OccursAt(s, r, i) && AllWhitespace(s, 0, i) && AllWhitespace(s, i + |r|, |s|)
      && (r == [] <==> forall k :: 0 <= k < |s| ==> IsWhitespace(s[k]))
  {
    var i := |s| - |t|;
    assert forall k :: i <= k < |s| ==> s[k] == t[k - i];
    if r != [] {
      assert s[i] == r[0];
    }
  }

  /** A string with no whitespace at either end is its own trim. */
  lemma TrimOfTrimmed(s: string)
    requires s == [] || (!IsWhitespace(s[0]) && !IsWhitespace(s[|s| - 1]))
    ensures Trim(s) == s
  {
  }

  // ---------------------------------------------------------------------------
  // line.split(/…\s*=\s*/)
  // ---------------------------------------------------------------------------

  /** A split pattern of the shape `lead [cls] \s* = \s*`: a literal prefix, one character
      of a class, then `=` with optional whitespace on either side. */
  datatype Separator = Separator(lead: string, cls: set<char>)

  // The position pattern, `/[XYZ]\s*=\s*/`.
  const POSITION_SEPARATOR := Separator("", {'X', 'Y', 'Z'})

  // The velocity pattern as written, `/[VX|VY|VZ]\s*=\s*/`: a class of the five
  // characters V, X, |, Y and Z, followed by `=`.
  const VELOCITY_SEPARATOR := Separator("", {'V', 'X', '|', 'Y', 'Z'})

  // `/V[XYZ]\s*=\s*/`: the velocity labels `VX=`, `VY=`, `VZ=` that the velocity pattern
  // is meant to cut at.
  const INTENDED_VELOCITY_SEPARATOR := Separator("V", {'X', 'Y', 'Z'})

  /** The first index at or after `i` that does not hold whitespace. */
  function SkipWhitespace(s: string, i: nat): (j: nat)
    requires i <= |s|
    ensures i <= j <= |s|
    ensures forall k :: i <= k < j ==> IsWhitespace(s[k])
    ensures j < |s| ==> !IsWhitespace(s[j])
    decreases |s| - i
  {
    if i < |s| && IsWhitespace(s[i]) then SkipWhitespace(s, i + 1) else i
  }

  /** `t`, as a whole, is one match of the separator pattern. */
  ghost predicate IsMatch(t: string, sep: Separator) {
    var n := |sep.lead|;
    && n + 2 <= |t| && t[..n] == sep.lead && t[n] in sep.cls
    && exists e :: n + 1 <= e < |t| && t[e] == '=' && AllWhitespace(t, n + 1, e) && AllWhitespace(t, e + 1, |t|)
  }

  ghost predicate AllWhitespace(t: string, from: int, to: int)
    requires 0 <= from && to <= |t|
  {
    forall k :: from <= k < to ==> IsWhitespace(t[k])
  }

  /** The length of the match found when the pattern is tried at the start of `s`
      (`MatchAtIsLongestMatch` states what it means). */
  function MatchAt(s: string, sep: Separator): (m: Option<nat>)
    ensures m.Some? ==> |sep.lead| + 2 <= m.value <= |s|
  {
    var n := |sep.lead|;
    if n < |s| && s[..n] == sep.lead && s[n] in sep.cls then
      var e := SkipWhitespace(s, n + 1);
      if e < |s| && s[e] == '=' then Some(SkipWhitespace(s, e + 1)) else None
    else None
  }

  /** `MatchAt` follows the regular-expression semantics: it finds a match exactly when
      some prefix of `s` matches, and then the longest one. Both `\s*` are greedy and need
      no backtracking, since `=` is not whitespace. */
  lemma MatchAtIsLongestMatch(s: string, sep: Separator)
    ensures var m := MatchAt(s, sep);
      && (m.Some? ==> IsMatch(s[..m.value], sep) && (m.value == |s| || !IsWhitespace(s[m.value])))
      && (m.None? ==> forall k :: 0 <= k <= |s| ==> !IsMatch(s[..k], sep))
  {
    var n := |sep.lead|;
    if n < |s| && s[..n] == sep.lead && s[n] in sep.cls {
      var e := SkipWhitespace(s, n + 1);
      if e < |s| && s[e] == '=' {
        var m := SkipWhitespace(s, e + 1);
        assert s[..m][..n] == sep.lead;
        assert AllWhitespace(s[..m], n + 1, e) && AllWhitespace(s[..m], e + 1, m);
      } else {
        NoMatchWhenNoEquals(s, sep, e);
      }
    } else {
      NoMatchWhenNoLabel(s, sep);
    }
  }

  lemma NoMatchWhenNoLabel(s: string, sep: Separator)
    requires !(|sep.lead| < |s| && s[..|sep.lead|] == sep.lead && s[|sep.lead|] in sep.cls)
    ensures forall k :: 0 <= k <= |s| ==> !IsMatch(s[..k], sep)
  {
    var n := |sep.lead|;
    forall k | 0 <= k <= |s| && n + 2 <= k ensures s[..k][..n] == s[..n] && s[..k][n] == s[n] {
    }
  }

  lemma NoMatchWhenNoEquals(s: string, sep: Separator, e: nat)
    requires |sep.lead| < |s| && s[..|sep.lead|] == sep.lead && s[|sep.lead|] in sep.cls
    requires e == SkipWhitespace(s, |sep.lead| + 1)
    requires !(e < |s| && s[e] == '=')
    ensures forall k :: 0 <= k <= |s| ==> !IsMatch(s[..k], sep)
  {
    var n := |sep.lead|;
    forall k | 0 <= k <= |s| ensures !IsMatch(s[..k], sep) {
      var t := s[..k];
      forall e' | n + 1 <= e' < |t| ensures !(t[e'] == '=' && AllWhitespace(t, n + 1, e')) {
        assert e' < e ==> IsWhitespace(t[e']);
        assert e < e' ==> !IsWhitespace(t[e]);
      }
    }
  }

  /** The ECMAScript `split` loop for a pattern that never matches the empty string: scan
      from the left, cut at each match and resume right after it. `piece` holds the
      characters read since the last cut. */
  function SplitFrom(s: string, sep: Separator, piece: string): (pieces: seq<string>)
    ensures |pieces| >= 1
    decreases |s|
  {
    if |s| == 0 then [piece]
    else
      match MatchAt(s, sep)
      case Some(n) => [piece] + SplitFrom(s[n..], sep, [])
      case None => SplitFrom(s[1..], sep, piece + [s[0]])
  }

  /** `s.split(pattern)` */
  function RegexSplit(s: string, sep: Separator): seq<string> {
    SplitFrom(s, sep, [])
  }

  /** The matches the split cuts at, in order: the text that `RegexSplit` leaves out. */
  function SplitSeparators(s: string, sep: Separator): seq<string>
    decreases |s|
  {
    if |s| == 0 then []
    else
      match MatchAt(s, sep)
      case Some(n) => [s[..n]] + SplitSeparators(s[n..], sep)
      case None => SplitSeparators(s[1..], sep)
  }

  /** The characters read before the scan only lengthen the first piece. */
  lemma {:induction false} SplitFromPiece(s: string, sep: Separator, piece: string)
    ensures var r := RegexSplit(s, sep);
      SplitFrom(s, sep, piece) == [piece + r[0]] + r[1..]
    decreases |s|
  {
    if |s| > 0 {
      match MatchAt(s, sep)
      case Some(n) =>
        var rest := SplitFrom(s[n..], sep, []);
        var r := RegexSplit(s, sep);
        assert r == [[]] + rest;
        assert r[1..] == rest && piece + r[0] == piece;
      case None =>
        SplitFromPiece(s[1..], sep, piece + [s[0]]);
        SplitFromPiece(s[1..], sep, [s[0]]);
        var r := RegexSplit(s[1..], sep);
        assert [] + [s[0]] == [s[0]];
        var whole := RegexSplit(s, sep);
        assert whole == [[s[0]] + r[0]] + r[1..];
        assert whole[0] == [s[0]] + r[0] && whole[1..] == r[1..];
        assert piece + [s[0]] + r[0] == piece + whole[0];
    } else {
      assert piece + [] == piece;
    }
  }

  /** A pattern as the split sees it: the length of the match found at the start of a
      text, if any. */
  type Matcher = string -> Option<nat>

  /** The separator pattern as a matcher. */
  function MatcherOf(sep: Separator): Matcher {
    t => MatchAt(t, sep)
  }

  /** No match of `m` starts at any index of `s` in `from .. to`. */
  predicate NoMatchIn(s: string, m: Matcher, from: nat, to: nat)
    requires from <= to <= |s|
  {
    forall i :: from <= i < to ==> m(s[i..]).None?
  }

  /** `pieces` and `seps` split `s` at the matches of `m` found scanning from the left: `s`
      is `pieces[0] seps[0] pieces[1] … seps[k-1] pieces[k]`, each `seps[j]` is the match
      found where it starts (never an empty one), and no match starts inside a piece. */
  predicate SplitsAs(s: string, m: Matcher, pieces: seq<string>, seps: seq<string>)
    decreases |seps|
  {
    && |pieces| == |seps| + 1
    && (if seps == [] then s == pieces[0] && NoMatchIn(s, m, 0, |s|)
        else
          var p := pieces[0];
          && 0 < |seps[0]| && |p| + |seps[0]| <= |s|
          && s[..|p|] == p && NoMatchIn(s, m, 0, |p|)
          && m(s[|p|..]) == Some(|seps[0]|) && s[|p|..|p| + |seps[0]|] == seps[0]
          && SplitsAs(s[|p| + |seps[0]|..], m, pieces[1..], seps[1..]))
  }

  /** A character at which no match starts extends a match-free run in front of it. */
  lemma NoMatchInCons(c: char, t: string, m: Matcher, to: nat)
    requires to <= |t| && m([c] + t).None? && NoMatchIn(t, m, 0, to)
    ensures NoMatchIn([c] + t, m, 0, to + 1)
  {
    forall i | 0 < i < to + 1 ensures m(([c] + t)[i..]).None? {
      assert ([c] + t)[i..] == t[i - 1..];
    }
    assert ([c] + t)[0..] == [c] + t;
  }

  /** A first piece and separator in front of a split of the rest of the text. */
  lemma SplitsAsIntro(s: string, m: Matcher, p: string, sp: string, pieces: seq<string>, seps: seq<string>)
    requires 0 < |sp| && |p| + |sp| <= |s| && s[..|p|] == p && NoMatchIn(s, m, 0, |p|)
    requires m(s[|p|..]) == Some(|sp|) && s[|p|..|p| + |sp|] == sp
    requires SplitsAs(s[|p| + |sp|..], m, pieces, seps)
    ensures SplitsAs(s, m, [p] + pieces, [sp] + seps)
  {
    assert ([p] + pieces)[1..] == pieces && ([sp] + seps)[1..] == seps;
  }

  /** After the first piece and separator, the rest of a split splits the rest of the text. */
  lemma SplitsAsRest(s: string, m: Matcher, pieces: seq<string>, seps: seq<string>, rest: string)
    requires SplitsAs(s, m, pieces, seps) && seps != []
    requires |pieces[0]| + |seps[0]| <= |s| && rest == s[|pieces[0]| + |seps[0]|..]
    ensures SplitsAs(rest, m, pieces[1..], seps[1..])
  {
  }

  /** A match at the very start is cut off in front of an empty first piece. */
  lemma SplitsAsCut(s: string, m: Matcher, n: nat, pieces: seq<string>, seps: seq<string>)
    requires 0 < n <= |s| && m(s) == Some(n) && SplitsAs(s[n..], m, pieces, seps)
    ensures SplitsAs(s, m, [[]] + pieces, [s[..n]] + seps)
  {
    assert s[0..] == s && s[0..0 + n] == s[..n] && s[0 + n..] == s[n..];
    SplitsAsIntro(s, m, [], s[..n], pieces, seps);
  }

  /** A character at which no match starts joins the first piece of a split. */
  lemma SplitsAsCons(c: char, t: string, m: Matcher, pieces: seq<string>, seps: seq<string>)
    requires SplitsAs(t, m, pieces, seps) && m([c] + t).None?
    ensures SplitsAs([c] + t, m, [[c] + pieces[0]] + pieces[1..], seps)
  {
    var s := [c] + t;
    var q := pieces[0];
    var p := [c] + q;
    if seps == [] {
      NoMatchInCons(c, t, m, |t|);
      assert [p] + pieces[1..] == [s];
    } else {
      var sp := seps[0];
      var rest := t[|q| + |sp|..];
      SplitsAsRest(t, m, pieces, seps, rest);
      NoMatchInCons(c, t, m, |q|);
      assert s[..|p|] == p;
      assert s[|p|..] == t[|q|..];
      assert s[|p|..|p| + |sp|] == t[|q|..|q| + |sp|];
      assert s[|p| + |sp|..] == rest;
      SplitsAsIntro(s, m, p, sp, pieces[1..], seps[1..]);
      assert [sp] + seps[1..] == seps;
    }
  }

  /** The split follows the ECMAScript semantics: `RegexSplit` cuts `s` into pieces at the
      matches `SplitSeparators` lists, which put back in between rebuild `s`, and no match
      starts inside a piece. */
  lemma {:induction false} RegexSplitSplits(s: string, sep: Separator)
    ensures SplitsAs(s, MatcherOf(sep), RegexSplit(s, sep), SplitSeparators(s, sep))
    decreases |s|
  {
    var m := MatcherOf(sep);
    var pieces, seps := RegexSplit(s, sep), SplitSeparators(s, sep);
    if |s| == 0 {
      assert pieces == [s] && seps == [];
    } else {
      match MatchAt(s, sep)
      case Some(n) =>
        RegexSplitSplits(s[n..], sep);
        SplitsAsCut(s, m, n, RegexSplit(s[n..], sep), SplitSeparators(s[n..], sep));
        assert pieces == [[]] + RegexSplit(s[n..], sep);
        assert seps == [s[..n]] + SplitSeparators(s[n..], sep);
      case None =>
        var r := RegexSplit(s[1..], sep);
        RegexSplitSplits(s[1..], sep);
        SplitFromPiece(s[1..], sep, [s[0]]);
        assert [] + [s[0]] == [s[0]];
        assert pieces == [[s[0]] + r[0]] + r[1..];
        assert seps == SplitSeparators(s[1..], sep);
        assert [s[0]] + s[1..] == s;
        SplitsAsCons(s[0], s[1..], m, r, seps);
    }
  }

  /** Where the first piece of a split ends: the first index at which a match starts, or
      the end of the text. */
  predicate IsFirstCut(s: string, m: Matcher, c: nat) {
    c <= |s| && NoMatchIn(s, m, 0, c) && (c == |s| || m(s[c..]).Some?)
  }

  lemma FirstCutIsUnique(s: string, m: Matcher, c1: nat, c2: nat)
    requires IsFirstCut(s, m, c1) && IsFirstCut(s, m, c2)
    ensures c1 == c2
  {
    NoMatchBeforeCut(s, m, c2, c1);
    NoMatchBeforeCut(s, m, c1, c2);
  }

  lemma NoMatchBeforeCut(s: string, m: Matcher, c: nat, d: nat)
    requires IsFirstCut(s, m, c) && d <= |s|
    ensures d < c ==> m(s[d..]).None?
  {
  }

  /** Where the first piece of a split ends, and what the first piece and separator are. */
  lemma SplitsAsFirstCut(s: string, m: Matcher, pieces: seq<string>, seps: seq<string>) returns (c: nat)
    requires SplitsAs(s, m, pieces, seps)
    ensures IsFirstCut(s, m, c)
    ensures seps == [] <==> c == |s|
    ensures seps == [] ==> pieces == [s]
    ensures seps != [] ==> && c == |pieces[0]| && |pieces[0]| + |seps[0]| <= |s| && pieces[0] == s[..c]
                           && m(s[c..]) == Some(|seps[0]|) && seps[0] == s[c..c + |seps[0]|]
  {
    if seps == [] {
      c := |s|;
      assert pieces == [pieces[0]];
    } else {
      c := |pieces[0]|;
    }
  }

  /** There is only one such split: any pieces and separators that split `s` as `SplitsAs`
      describes are the ones `RegexSplit` and `SplitSeparators` give. */
  lemma {:induction false} SplitsAsUnique(s: string, m: Matcher, p1: seq<string>, m1: seq<string>,
                                          p2: seq<string>, m2: seq<string>)
    requires SplitsAs(s, m, p1, m1) && SplitsAs(s, m, p2, m2)
    ensures p1 == p2 && m1 == m2
    decreases |m1|
  {
    var c1 := SplitsAsFirstCut(s, m, p1, m1);
    var c2 := SplitsAsFirstCut(s, m, p2, m2);
    FirstCutIsUnique(s, m, c1, c2);
    if m1 == [] {
      assert p1 == [s] == p2;
    } else {
      var a, n := c1, |m1[0]|;
      assert p1[0] == s[..a] == p2[0];
      assert m1[0] == s[a..a + n] == m2[0];
      var rest := s[a + n..];
      SplitsAsRest(s, m, p1, m1, rest);
      SplitsAsRest(s, m, p2, m2, rest);
      SplitsAsUnique(rest, m, p1[1..], m1[1..], p2[1..], m2[1..]);
      SameHeadSameTail(p1, p2);
      SameHeadSameTail(m1, m2);
    }
  }

  /** Two non-empty sequences with the same head and the same tail are equal. */
  lemma SameHeadSameTail(a: seq<string>, b: seq<string>)
    requires |a| > 0 && |b| > 0 && a[0] == b[0] && a[1..] == b[1..]
    ensures a == b
  {
    assert a == [a[0]] + a[1..] && b == [b[0]] + b[1..];
  }

  /** `parts.filter(Boolean)`: drops the empty strings and keeps the others, each as
      often as it occurs (`DropEmptyCounts`), in order (`DropEmptyKeepsOrder`). */
  function DropEmpty(parts: seq<string>): (r: seq<string>)
    ensures |r| <= |parts|
    ensures forall k :: 0 <= k < |r| ==> r[k] != [] && r[k] in parts
    ensures forall k :: 0 <= k < |parts| && parts[k] != [] ==> parts[k] in r
  {
    if |parts| == 0 then []
    else
      var rest := DropEmpty(parts[1..]);
      assert forall k :: 1 <= k < |parts| ==> parts[k] == parts[1..][k - 1];
      (if parts[0] == [] then [] else [parts[0]]) + rest
  }

  /** `DropEmpty` keeps every non-empty string as often as it occurs, and no empty one. */
  lemma {:induction false} DropEmptyCounts(parts: seq<string>)
    ensures multiset(DropEmpty(parts)) == multiset(parts)[[] := 0]
    decreases |parts|
  {
    if |parts| > 0 {
      DropEmptyCounts(parts[1..]);
      assert parts == [parts[0]] + parts[1..];
    }
  }

  /** `DropEmpty` is the order-preserving filter: a single string is kept exactly when it is
      non-empty, and a concatenation is filtered part by part. */
  lemma DropEmptyKeepsOrder(a: seq<string>, b: seq<string>, x: string)
    ensures DropEmpty([x]) == (if x == [] then [] else [x])
    ensures DropEmpty(a + b) == DropEmpty(a) + DropEmpty(b)
  {
    assert [x][1..] == [];
    DropEmptyDistributes(a, b);
  }

  /** Filtering a concatenation filters each part. */
  lemma {:induction false} DropEmptyDistributes(a: seq<string>, b: seq<string>)
    ensures DropEmpty(a + b) == DropEmpty(a) + DropEmpty(b)
    decreases |a|
  {
    if a == [] {
      assert a + b == b;
    } else {
      DropEmptyDistributes(a[1..], b);
      assert (a + b)[0] == a[0] && (a + b)[1..] == a[1..] + b;
      var head := if a[0] == [] then [] else [a[0]];
      ConcatAssociates(head, DropEmpty(a[1..]), DropEmpty(b));
    }
  }

  /** Concatenation regroups freely. */
  lemma ConcatAssociates(a: seq<string>, b: seq<string>, c: seq<string>)
    ensures a + (b + c) == (a + b) + c
  {
  }

  // ---------------------------------------------------------------------------
  // parseHorizonsData
  // ---------------------------------------------------------------------------

  /** Three axis values, each the text `parseFloat` reads, or `None` where the piece is
      missing (`parts[i]` is `undefined`, which `parseFloat` turns into NaN). */
  datatype Axes = Axes(x: Option<string>, y: Option<string>, z: Option<string>)

  /** One ephemeris record: the position (km, before the division by the AU) and the velocity. */
  datatype Ephemeris = Ephemeris(position: Axes, velocity: Axes)

  datatype ParseError =
    | InvalidFormat  // a marker line is missing: "Invalid data format from Horizons API"
    | MissingLine    // a line read after `$$SOE` does not exist: `.trim()` of `undefined` throws

  const START_MARKER := "$$SOE"
  const END_MARKER := "$$EOE"

  function At(parts: seq<string>, i: nat): Option<string> {
    if i < |parts| then Some(parts[i]) else None
  }

  /** `parts.filter(Boolean)`, read as x, y and z. */
  function FieldsOf(parts: seq<string>): Axes {
    var kept := DropEmpty(parts);
    Axes(At(kept, 0), At(kept, 1), At(kept, 2))
  }

  /** `line.trim().split(pattern).filter(Boolean)`, read as x, y and z. */
  function LineFields(line: string, sep: Separator): Axes {
    FieldsOf(RegexSplit(Trim(line), sep))
  }

  /** parseHorizonsData with the velocity pattern as a parameter: the text is cut into lines
      and read by `ParseLines`. */
  function ParseWith(data: string, velocitySep: Separator): Result<Ephemeris, ParseError> {
    ParseLines(SplitOnChar(data, '\n'), velocitySep)
  }

  /** The position and velocity lines of a response. */
  datatype DataLines = DataLines(position: string, velocity: string)

  /** Where the lines are found. It fails when no line contains `$$SOE` or none contains
      `$$EOE`; otherwise it takes the second and third lines after the first `$$SOE` line,
      wherever `$$EOE` is, and fails when they do not exist. */
  function LocateLines(lines: seq<string>): Result<DataLines, ParseError> {
    var startIndex := FindIndex(lines, START_MARKER) + 1;
    var endIndex := FindIndex(lines, END_MARKER);
    if startIndex == 0 || endIndex == -1 then
      Err(InvalidFormat)
    else if startIndex + 1 >= |lines| || startIndex + 2 >= |lines| then
      Err(MissingLine)
    else
      Ok(DataLines(lines[startIndex + 1], lines[startIndex + 2]))
  }

  /** The reading of the lines: the located position and velocity lines are cut into fields. */
  function ParseLines(lines: seq<string>, velocitySep: Separator): Result<Ephemeris, ParseError> {
    match LocateLines(lines)
    case Err(e) => Err(e)
    case Ok(d) => Ok(Ephemeris(LineFields(d.position, POSITION_SEPARATOR), LineFields(d.velocity, velocitySep)))
  }

  /** Where `LocateLines` looks: it fails with `InvalidFormat` exactly when no line contains
      `$$SOE` or none contains `$$EOE`; it succeeds exactly when, in addition, the first
      `$$SOE` line is followed by at least three lines, and then takes the second and third
      of them. */
  lemma LocateLinesOutcome(lines: seq<string>)
    ensures var r := LocateLines(lines);
      && (r == Err(InvalidFormat) <==> NoneContains(lines, START_MARKER) || NoneContains(lines, END_MARKER))
      && (r.Ok? <==> !NoneContains(lines, END_MARKER) && exists s :: IsFirstContaining(lines, START_MARKER, s) && s + 3 < |lines|)
      && (forall s :: IsFirstContaining(lines, START_MARKER, s) && r.Ok? ==> r.value == DataLines(lines[s + 2], lines[s + 3]))
  {
    var start := FindIndex(lines, START_MARKER);
    if start == -1 {
      forall s | IsFirstContaining(lines, START_MARKER, s) ensures false {
      }
    } else {
      forall s | IsFirstContaining(lines, START_MARKER, s) ensures s == start {
        FirstContainingIsUnique(lines, START_MARKER, s, start);
      }
    }
  }

  lemma FirstContainingIsUnique(lines: seq<string>, pattern: string, i: int, j: int)
    requires IsFirstContaining(lines, pattern, i) && IsFirstContaining(lines, pattern, j)
    ensures i == j
  {
  }

  /** parseHorizonsData exactly as written, with the character-class velocity pattern. */
  function ParseHorizonsDataAsWritten(data: string): Result<Ephemeris, ParseError> {
    ParseWith(data, VELOCITY_SEPARATOR)
  }

  /** parseHorizonsData with the velocity pattern it intends; the endpoint uses this one. */
  function ParseHorizonsData(data: string): Result<Ephemeris, ParseError> {
    ParseWith(data, INTENDED_VELOCITY_SEPARATOR)
  }

  // ---------------------------------------------------------------------------
  // The Horizons line layout, and what the parser reads from it
  // ---------------------------------------------------------------------------

  /** A number as Horizons prints it, e.g. `-2.475767496616169E+07`. */
  predicate IsNumberToken(t: string) {
    |t| > 0 && forall i :: 0 <= i < |t| ==> IsNumberChar(t[i])
  }

  predicate IsNumberChar(c: char) {
    ('0' <= c <= '9') || c == '.' || c == '+' || c == '-' || c == 'E' || c == 'e'
  }

  /** A value of a vector table as Horizons prints it: a blank in place of the sign of a
      non-negative number, or nothing, then the number, e.g. ` 1.452357358436766E+08`. */
  datatype Value = Value(pad: string, digits: string)

  predicate IsValue(v: Value) {
    (v.pad == "" || v.pad == " ") && IsNumberToken(v.digits)
  }

  /** Whitespace at the start of a line. */
  predicate IsIndent(indent: string) {
    forall k :: 0 <= k < |indent| ==> IsWhitespace(indent[k]) && indent[k] != '\n'
  }

  /** The position line of a vector table, after its indent: `X =<x> Y =<y> Z =<z>`. */
  function PositionLine(x: Value, y: Value, z: Value): string {
    "X =" + x.pad + x.digits + " Y =" + y.pad + y.digits + " Z =" + z.pad + z.digits
  }

  /** The velocity line of a vector table, after its indent: `VX=<x> VY=<y> VZ=<z>`. */
  function VelocityLine(x: Value, y: Value, z: Value): string {
    "VX=" + x.pad + x.digits + " VY=" + y.pad + y.digits + " VZ=" + z.pad + z.digits
  }

  /** No match of the pattern can start at character `c`. */
  predicate CannotStartMatch(c: char, sep: Separator) {
    if sep.lead == [] then c !in sep.cls else c != sep.lead[0]
  }

  /** No match of the pattern can start at a digit, sign, point, exponent mark or blank. */
  predicate AvoidsNumbers(sep: Separator) {
    forall c :: IsNumberChar(c) || c == ' ' ==> CannotStartMatch(c, sep)
  }

  /** None of the three patterns can start inside a number or at a blank. */
  lemma SeparatorsAvoidNumbers()
    ensures AvoidsNumbers(POSITION_SEPARATOR)
    ensures AvoidsNumbers(VELOCITY_SEPARATOR)
    ensures AvoidsNumbers(INTENDED_VELOCITY_SEPARATOR)
  {
    forall c | IsNumberChar(c) || c == ' '
      ensures c !in {'X', 'Y', 'Z'} && c !in {'V', 'X', '|', 'Y', 'Z'} && c != 'V'
    {
    }
  }

  lemma NoMatchAtStart(s: string, sep: Separator)
    requires |s| > 0 && CannotStartMatch(s[0], sep)
    ensures MatchAt(s, sep).None?
  {
    if sep.lead != [] && |sep.lead| < |s| {
      assert s[..|sep.lead|][0] == s[0];
    }
  }

  /** A label `lead c <gap> = <post>` followed by a non-blank character is a match of exactly
      its length. */
  lemma LabelMatches(sep: Separator, c: char, gap: string, post: string, tail: string)
    requires c in sep.cls
    requires forall k :: 0 <= k < |gap| ==> IsWhitespace(gap[k])
    requires forall k :: 0 <= k < |post| ==> IsWhitespace(post[k])
    requires tail == [] || !IsWhitespace(tail[0])
    ensures MatchAt(sep.lead + [c] + gap + "=" + post + tail, sep) == Some(|sep.lead| + |gap| + 2 + |post|)
  {
    LabelLayout(sep.lead, c, gap, post, tail);
  }

  /** Where the parts of a label `lead c <gap> = <post>` sit in the text that starts with it. */
  lemma LabelLayout(lead: string, c: char, gap: string, post: string, tail: string)
    requires forall k :: 0 <= k < |gap| ==> IsWhitespace(gap[k])
    requires forall k :: 0 <= k < |post| ==> IsWhitespace(post[k])
    requires tail == [] || !IsWhitespace(tail[0])
    ensures var s := lead + [c] + gap + "=" + post + tail; var eq := |lead| + 1 + |gap|;
      && |lead| < |s| && s[..|lead|] == lead && s[|lead|] == c
      && SkipWhitespace(s, |lead| + 1) == eq && eq < |s| && s[eq] == '='
      && SkipWhitespace(s, eq + 1) == eq + 1 + |post|
  {
    var s := lead + [c] + gap + "=" + post + tail;
    var n := |lead|;
    assert s[..n] == lead;
    assert s[n] == c;
    var eq := n + 1 + |gap|;
    var end := eq + 1 + |post|;
    assert s[eq] == '=';
    assert forall k :: n + 1 <= k < eq ==> s[k] == gap[k - n - 1];
    assert !IsWhitespace(s[eq]);
    SkipWhitespaceStops(s, n + 1, eq);
    assert forall k :: eq + 1 <= k < end ==> s[k] == post[k - eq - 1];
    assert end < |s| ==> s[end] == tail[0];
    SkipWhitespaceStops(s, eq + 1, end);
  }

  /** `SkipWhitespace` stops at the first character after `i` that is not whitespace. */
  lemma SkipWhitespaceStops(s: string, i: nat, j: nat)
    requires i <= j <= |s|
    requires forall k :: i <= k < j ==> IsWhitespace(s[k])
    requires j < |s| ==> !IsWhitespace(s[j])
    ensures SkipWhitespace(s, i) == j
  {
  }

  /** No match of the pattern starts at any index of `s` in `from .. to`. */
  predicate MatchFree(s: string, sep: Separator, from: nat, to: nat)
    requires from <= to <= |s|
  {
    forall i :: from <= i < to ==> MatchAt(s[i..], sep).None?
  }

  /** Characters at which no match starts go into the current piece. */
  lemma {:induction false} SkipNoMatch(t: string, rest: string, sep: Separator, piece: string)
    requires MatchFree(t + rest, sep, 0, |t|)
    ensures SplitFrom(t + rest, sep, piece) == SplitFrom(rest, sep, piece + t)
  {
    if |t| == 0 {
      assert t + rest == rest && piece + t == piece;
    } else {
      assert (t + rest)[0..] == t + rest;
      assert (t + rest)[1..] == t[1..] + rest;
      forall i | 0 <= i < |t[1..]| ensures MatchAt((t[1..] + rest)[i..], sep).None? {
        assert (t[1..] + rest)[i..] == (t + rest)[i + 1..];
      }
      assert MatchFree(t[1..] + rest, sep, 0, |t[1..]|);
      SkipNoMatch(t[1..], rest, sep, piece + [t[0]]);
      assert piece + [t[0]] + t[1..] == piece + t;
    }
  }

  lemma CutAtStart(s: string, sep: Separator, piece: string, n: nat)
    requires MatchAt(s, sep) == Some(n)
    ensures SplitFrom(s, sep, piece) == [piece] + SplitFrom(s[n..], sep, [])
  {
  }

  lemma TokenIsMatchFree(tok: string, rest: string, sep: Separator)
    requires IsNumberToken(tok) && AvoidsNumbers(sep)
    ensures MatchFree(tok + rest, sep, 0, |tok|)
  {
    forall i | 0 <= i < |tok| ensures MatchAt((tok + rest)[i..], sep).None? {
      var s := (tok + rest)[i..];
      assert s[0] == tok[i] && IsNumberChar(tok[i]);
      NoMatchAtStart(s, sep);
    }
  }

  /** Match-free text `pre`, then a label that matches: `pre` is one piece. */
  lemma CutBeforeLabel(pre: string, lbl: string, tail: string, sep: Separator, piece: string)
    requires MatchFree(pre + (lbl + tail), sep, 0, |pre|)
    requires MatchAt(lbl + tail, sep) == Some(|lbl|)
    ensures SplitFrom(pre + (lbl + tail), sep, piece) == [piece + pre] + SplitFrom(tail, sep, [])
  {
    SkipNoMatch(pre, lbl + tail, sep, piece);
    CutAtStart(lbl + tail, sep, piece + pre, |lbl|);
    assert (lbl + tail)[|lbl|..] == tail;
  }

  /** A number, a blank, match-free text `pre`, then a label: one piece up to the label. */
  lemma FieldThenLabel(tok: string, pre: string, lbl: string, tail: string, sep: Separator)
    requires IsNumberToken(tok) && AvoidsNumbers(sep)
    requires MatchFree(pre + (lbl + tail), sep, 0, |pre|)
    requires MatchAt(lbl + tail, sep) == Some(|lbl|)
    ensures SplitFrom(tok + (" " + (pre + (lbl + tail))), sep, []) == [tok + " " + pre] + SplitFrom(tail, sep, [])
  {
    var r2 := pre + (lbl + tail);
    var r1 := " " + r2;
    TokenIsMatchFree(tok, r1, sep);
    SkipNoMatch(tok, r1, sep, []);
    assert [] + tok == tok;
    assert r1[0..][0] == ' ';
    NoMatchAtStart(r1[0..], sep);
    assert MatchFree(" " + r2, sep, 0, 1);
    SkipNoMatch(" ", r2, sep, tok);
    CutBeforeLabel(pre, lbl, tail, sep, tok + " ");
  }

  /** A number token at the end of the line is the last piece. */
  lemma LastField(tok: string, sep: Separator)
    requires IsNumberToken(tok) && AvoidsNumbers(sep)
    ensures SplitFrom(tok, sep, []) == [tok]
  {
    assert tok + [] == tok;
    TokenIsMatchFree(tok, [], sep);
    SkipNoMatch(tok, [], sep, []);
    assert [] + tok == tok;
  }

  /** The tail `y _ p2 l2 z` of a labelled line splits into the last two pieces. */
  lemma LastTwoFields(sep: Separator, y: string, p2: string, l2: string, z: string)
    requires AvoidsNumbers(sep) && IsNumberToken(y) && IsNumberToken(z)
    requires MatchFree(p2 + (l2 + z), sep, 0, |p2|) && MatchAt(l2 + z, sep) == Some(|l2|)
    ensures SplitFrom(y + (" " + (p2 + (l2 + z))), sep, []) == [y + " " + p2, z]
  {
    FieldThenLabel(y, p2, l2, z, sep);
    LastField(z, sep);
  }

  /** The tail `x _ p1 l1 y _ p2 l2 z` of a labelled line splits into the last three pieces. */
  lemma LastThreeFields(sep: Separator, x: string, p1: string, l1: string, t1: string, y: string, p2: string, l2: string,
                        z: string)
    requires AvoidsNumbers(sep)
    requires IsNumberToken(x) && IsNumberToken(y) && IsNumberToken(z)
    requires MatchFree(p1 + (l1 + t1), sep, 0, |p1|) && MatchAt(l1 + t1, sep) == Some(|l1|)
    requires t1 == y + (" " + (p2 + (l2 + z)))
    requires MatchFree(p2 + (l2 + z), sep, 0, |p2|) && MatchAt(l2 + z, sep) == Some(|l2|)
    ensures SplitFrom(x + (" " + (p1 + (l1 + t1))), sep, []) == [x + " " + p1, y + " " + p2, z]
  {
    LastTwoFields(sep, y, p2, l2, z);
    FieldThenLabel(x, p1, l1, t1, sep);
  }

  /** The split of a line laid out as `p0 l0 x _ p1 l1 y _ p2 l2 z`, where `_` is a blank, each
      `l` is a label that matches and each `p` is match-free text in front of it; `t0` and
      `t1` name the tails after the first and the second label. */
  lemma LabelledLineSplit(sep: Separator, p0: string, l0: string, x: string, t0: string, p1: string, l1: string,
                          y: string, t1: string, p2: string, l2: string, z: string)
    requires AvoidsNumbers(sep)
    requires IsNumberToken(x) && IsNumberToken(y) && IsNumberToken(z)
    requires t1 == y + (" " + (p2 + (l2 + z)))
    requires t0 == x + (" " + (p1 + (l1 + t1)))
    requires MatchFree(p0 + (l0 + t0), sep, 0, |p0|) && MatchAt(l0 + t0, sep) == Some(|l0|)
    requires MatchFree(p1 + (l1 + t1), sep, 0, |p1|) && MatchAt(l1 + t1, sep) == Some(|l1|)
    requires MatchFree(p2 + (l2 + z), sep, 0, |p2|) && MatchAt(l2 + z, sep) == Some(|l2|)
    ensures RegexSplit(p0 + (l0 + t0), sep) == [p0, x + " " + p1, y + " " + p2, z]
  {
    LastThreeFields(sep, x, p1, l1, t1, y, p2, l2, z);
    CutBeforeLabel(p0, l0, t0, sep, []);
    PrependPiece([] + p0, p0, [x + " " + p1, y + " " + p2, z]);
  }

  /** One piece in front of three. */
  lemma PrependPiece(piece: string, p: string, rest: seq<string>)
    requires piece == p && |rest| == 3
    ensures [piece] + rest == [p, rest[0], rest[1], rest[2]]
  {
  }

  /** The labels of the position line, spelt as the pattern describes them. */
  lemma PositionLabels()
    ensures "X =" == POSITION_SEPARATOR.lead + ['X'] + " " + "="
    ensures "Y =" == POSITION_SEPARATOR.lead + ['Y'] + " " + "="
    ensures "Z =" == POSITION_SEPARATOR.lead + ['Z'] + " " + "="
  {
  }

  /** The labels of the velocity line, spelt as the intended pattern describes them. */
  lemma IntendedVelocityLabels()
    ensures "VX=" == INTENDED_VELOCITY_SEPARATOR.lead + ['X'] + "" + "="
    ensures "VY=" == INTENDED_VELOCITY_SEPARATOR.lead + ['Y'] + "" + "="
    ensures "VZ=" == INTENDED_VELOCITY_SEPARATOR.lead + ['Z'] + "" + "="
  {
  }

  /** What the character class of the pattern as written takes for labels. */
  lemma AsWrittenVelocityLabels()
    ensures "X=" == VELOCITY_SEPARATOR.lead + ['X'] + "" + "="
    ensures "Y=" == VELOCITY_SEPARATOR.lead + ['Y'] + "" + "="
    ensures "Z=" == VELOCITY_SEPARATOR.lead + ['Z'] + "" + "="
  {
  }

  lemma NumberIsNotWhitespace(t: string)
    requires IsNumberToken(t)
    ensures !IsWhitespace(t[0]) && !IsWhitespace(t[|t| - 1])
  {
    assert IsNumberChar(t[0]) && IsNumberChar(t[|t| - 1]);
  }

  /** A label `lead c=` or `lead c =`, with at most one blank, and the blank that may stand
      for the sign of the number after it, followed by a number, is a match. */
  lemma LabelBeforeNumber(sep: Separator, lbl: string, c: char, gap: string, pad: string, tok: string, rest: string)
    requires c in sep.cls && IsNumberToken(tok)
    requires gap == "" || gap == " "
    requires pad == "" || pad == " "
    requires lbl == sep.lead + [c] + gap + "=" + pad
    ensures MatchAt(lbl + (tok + rest), sep) == Some(|lbl|)
  {
    NumberIsNotWhitespace(tok);
    assert forall k :: 0 <= k < |pad| ==> pad[k] == ' ';
    LabelMatches(sep, c, gap, pad, tok + rest);
    assert sep.lead + [c] + gap + "=" + pad + (tok + rest) == lbl + (tok + rest);
  }

  /** A label at the very end of the line, in front of the last number. */
  lemma LabelBeforeLastNumber(sep: Separator, lbl: string, c: char, gap: string, pad: string, tok: string)
    requires c in sep.cls && IsNumberToken(tok)
    requires gap == "" || gap == " "
    requires pad == "" || pad == " "
    requires lbl == sep.lead + [c] + gap + "=" + pad
    ensures MatchAt(lbl + tok, sep) == Some(|lbl|)
  {
    LabelBeforeNumber(sep, lbl, c, gap, pad, tok, []);
    assert tok + [] == tok;
  }

  /** An indented line with no blank at its end trims to the text after the indent. */
  lemma TrimIndented(indent: string, t: string)
    requires IsIndent(indent)
    requires t != [] && !IsWhitespace(t[0]) && !IsWhitespace(t[|t| - 1])
    ensures Trim(indent + t) == t
  {
    var s := indent + t;
    var u := TrimStart(s);
    assert s[|indent|] == t[0];
    assert |s| - |u| <= |indent|;
    assert forall k :: 0 <= k < |indent| ==> s[k] == indent[k];
    assert u == t;
  }

  /** The fields of an indented line are those of the text after the indent: when that text
      splits into four pieces, the last three non-empty, they are the last three pieces or,
      if the first piece is not empty, the first three. */
  lemma FieldsOfIndentedLine(indent: string, t: string, sep: Separator, parts: seq<string>)
    requires IsIndent(indent)
    requires t != [] && !IsWhitespace(t[0]) && !IsWhitespace(t[|t| - 1])
    requires RegexSplit(t, sep) == parts
    requires |parts| == 4 && parts[1] != [] && parts[2] != [] && parts[3] != []
    ensures parts[0] == [] ==> LineFields(indent + t, sep) == Axes(Some(parts[1]), Some(parts[2]), Some(parts[3]))
    ensures parts[0] != [] ==> LineFields(indent + t, sep) == Axes(Some(parts[0]), Some(parts[1]), Some(parts[2]))
  {
    TrimIndented(indent, t);
    FieldsOfFour(parts);
  }

  /** Dropping the empty pieces of `["", x, y, z]` or `[v, x, y, z]` with x, y, z non-empty. */
  lemma FieldsOfFour(parts: seq<string>)
    requires |parts| == 4 && parts[1] != [] && parts[2] != [] && parts[3] != []
    ensures parts[0] == [] ==> FieldsOf(parts) == Axes(Some(parts[1]), Some(parts[2]), Some(parts[3]))
    ensures parts[0] != [] ==> FieldsOf(parts) == Axes(Some(parts[0]), Some(parts[1]), Some(parts[2]))
  {
    assert parts == [parts[0]] + parts[1..];
    assert parts[1..] == [parts[1]] + parts[2..];
    assert parts[2..] == [parts[2]] + parts[3..];
    assert DropEmpty(parts[3..]) == [parts[3]];
    assert DropEmpty(parts[2..]) == [parts[2], parts[3]];
    assert DropEmpty(parts[1..]) == [parts[1], parts[2], parts[3]];
  }

  /** A line `q0 l0 p0 d0 s1 q1 l1 p1 d1 s2 q2 l2 p2 d2` regrouped around its labels `l p`. */
  lemma RegroupLabelledLine(q0: string, l0: string, p0: string, d0: string, s1: string, q1: string, l1: string,
                            p1: string, d1: string, s2: string, q2: string, l2: string, p2: string, d2: string)
    ensures (q0 + l0) + p0 + d0 + (s1 + (q1 + l1)) + p1 + d1 + (s2 + (q2 + l2)) + p2 + d2
         == q0 + ((l0 + p0) + (d0 + (s1 + (q1 + ((l1 + p1) + (d1 + (s2 + (q2 + ((l2 + p2) + d2)))))))))
  {
  }

  /** The position line, regrouped as a labelled line with empty text before each label;
      the pad of each value goes with its label. */
  lemma PositionLineLayout(x: Value, y: Value, z: Value)
    ensures PositionLine(x, y, z)
         == "" + (("X =" + x.pad) + (x.digits + (" " + ("" + (("Y =" + y.pad) + (y.digits + (" " + ("" + (("Z =" + z.pad) + z.digits)))))))))
  {
    assert "X =" == "" + "X =";
    assert " Y =" == " " + ("" + "Y =");
    assert " Z =" == " " + ("" + "Z =");
    RegroupLabelledLine("", "X =", x.pad, x.digits, " ", "", "Y =", y.pad, y.digits, " ", "", "Z =", z.pad, z.digits);
  }

  /** Both data lines start with a label and end with the last digit of z. */
  lemma LineEnds(x: Value, y: Value, z: Value)
    requires IsValue(z)
    ensures var p := PositionLine(x, y, z); p != [] && !IsWhitespace(p[0]) && !IsWhitespace(p[|p| - 1])
    ensures var v := VelocityLine(x, y, z); v != [] && !IsWhitespace(v[0]) && !IsWhitespace(v[|v| - 1])
  {
    NumberIsNotWhitespace(z.digits);
    var p, v := PositionLine(x, y, z), VelocityLine(x, y, z);
    assert p[0] == 'X' && v[0] == 'V';
    assert p[|p| - 1] == z.digits[|z.digits| - 1] && v[|v| - 1] == z.digits[|z.digits| - 1];
  }

  /** The position line splits at its three labels; the piece before `X =` is empty and the
      blank that stands for a sign goes with the label. */
  lemma PositionLineSplit(x: Value, y: Value, z: Value)
    requires IsValue(x) && IsValue(y) && IsValue(z)
    ensures RegexSplit(PositionLine(x, y, z), POSITION_SEPARATOR) == ["", x.digits + " ", y.digits + " ", z.digits]
  {
    var lx, ly, lz := "X =" + x.pad, "Y =" + y.pad, "Z =" + z.pad;
    var t1 := y.digits + (" " + ("" + (lz + z.digits)));
    var t0 := x.digits + (" " + ("" + (ly + t1)));
    PositionLineLayout(x, y, z);
    PositionLabels();
    assert AvoidsNumbers(POSITION_SEPARATOR) by {
      SeparatorsAvoidNumbers();
    }
    assert MatchAt(lz + z.digits, POSITION_SEPARATOR) == Some(|lz|) by {
      LabelBeforeLastNumber(POSITION_SEPARATOR, lz, 'Z', " ", z.pad, z.digits);
    }
    assert MatchAt(ly + t1, POSITION_SEPARATOR) == Some(|ly|) by {
      LabelBeforeNumber(POSITION_SEPARATOR, ly, 'Y', " ", y.pad, y.digits, " " + ("" + (lz + z.digits)));
    }
    assert MatchAt(lx + t0, POSITION_SEPARATOR) == Some(|lx|) by {
      LabelBeforeNumber(POSITION_SEPARATOR, lx, 'X', " ", x.pad, x.digits, " " + ("" + (ly + t1)));
    }
    LabelledLineSplit(POSITION_SEPARATOR, "", lx, x.digits, t0, "", ly, y.digits, t1, "", lz, z.digits);
    assert x.digits + " " + "" == x.digits + " " && y.digits + " " + "" == y.digits + " ";
  }

  /** Horizons' position line `X =x Y =y Z =z`, indented, reads as x, y and z, each number
      keeping the blank in front of the next label (which parseFloat ignores). */
  lemma PositionLineFields(indent: string, x: Value, y: Value, z: Value)
    requires IsIndent(indent) && IsValue(x) && IsValue(y) && IsValue(z)
    ensures LineFields(indent + PositionLine(x, y, z), POSITION_SEPARATOR)
         == Axes(Some(x.digits + " "), Some(y.digits + " "), Some(z.digits))
  {
    var line := PositionLine(x, y, z);
    PositionLineSplit(x, y, z);
    LineEnds(x, y, z);
    FieldsOfIndentedLine(indent, line, POSITION_SEPARATOR, ["", x.digits + " ", y.digits + " ", z.digits]);
  }

  /** The velocity line, regrouped as a labelled line with empty text before each label. */
  lemma IntendedVelocityLineLayout(x: Value, y: Value, z: Value)
    ensures VelocityLine(x, y, z)
         == "" + (("VX=" + x.pad) + (x.digits + (" " + ("" + (("VY=" + y.pad) + (y.digits + (" " + ("" + (("VZ=" + z.pad) + z.digits)))))))))
  {
    assert "VX=" == "" + "VX=";
    assert " VY=" == " " + ("" + "VY=");
    assert " VZ=" == " " + ("" + "VZ=");
    RegroupLabelledLine("", "VX=", x.pad, x.digits, " ", "", "VY=", y.pad, y.digits, " ", "", "VZ=", z.pad, z.digits);
  }

  /** With the intended pattern `V[XYZ]\s*=\s*` the velocity line splits like the position line. */
  lemma IntendedVelocityLineSplit(x: Value, y: Value, z: Value)
    requires IsValue(x) && IsValue(y) && IsValue(z)
    ensures RegexSplit(VelocityLine(x, y, z), INTENDED_VELOCITY_SEPARATOR) == ["", x.digits + " ", y.digits + " ", z.digits]
  {
    var lx, ly, lz := "VX=" + x.pad, "VY=" + y.pad, "VZ=" + z.pad;
    var t1 := y.digits + (" " + ("" + (lz + z.digits)));
    var t0 := x.digits + (" " + ("" + (ly + t1)));
    IntendedVelocityLineLayout(x, y, z);
    IntendedVelocityLabels();
    assert AvoidsNumbers(INTENDED_VELOCITY_SEPARATOR) by {
      SeparatorsAvoidNumbers();
    }
    assert MatchAt(lz + z.digits, INTENDED_VELOCITY_SEPARATOR) == Some(|lz|) by {
      LabelBeforeLastNumber(INTENDED_VELOCITY_SEPARATOR, lz, 'Z', "", z.pad, z.digits);
    }
    assert MatchAt(ly + t1, INTENDED_VELOCITY_SEPARATOR) == Some(|ly|) by {
      LabelBeforeNumber(INTENDED_VELOCITY_SEPARATOR, ly, 'Y', "", y.pad, y.digits, " " + ("" + (lz + z.digits)));
    }
    assert MatchAt(lx + t0, INTENDED_VELOCITY_SEPARATOR) == Some(|lx|) by {
      LabelBeforeNumber(INTENDED_VELOCITY_SEPARATOR, lx, 'X', "", x.pad, x.digits, " " + ("" + (ly + t1)));
    }
    LabelledLineSplit(INTENDED_VELOCITY_SEPARATOR, "", lx, x.digits, t0, "", ly, y.digits, t1, "", lz, z.digits);
    assert x.digits + " " + "" == x.digits + " " && y.digits + " " + "" == y.digits + " ";
  }

  /** With the intended pattern the velocity line `VX=x VY=y VZ=z`, indented, reads as x, y
      and z. */
  lemma IntendedVelocityLineFields(indent: string, x: Value, y: Value, z: Value)
    requires IsIndent(indent) && IsValue(x) && IsValue(y) && IsValue(z)
    ensures LineFields(indent + VelocityLine(x, y, z), INTENDED_VELOCITY_SEPARATOR)
         == Axes(Some(x.digits + " "), Some(y.digits + " "), Some(z.digits))
  {
    var line := VelocityLine(x, y, z);
    IntendedVelocityLineSplit(x, y, z);
    LineEnds(x, y, z);
    FieldsOfIndentedLine(indent, line, INTENDED_VELOCITY_SEPARATOR, ["", x.digits + " ", y.digits + " ", z.digits]);
  }

  /** Under the character class `[VX|VY|VZ]` a `V` followed by an axis letter starts no match:
      the class consumes the `V` and then finds a letter where it needs `=`. */
  lemma VIsNoLabel(rest: string)
    requires |rest| > 0 && (rest[0] == 'X' || rest[0] == 'Y' || rest[0] == 'Z')
    ensures MatchFree("V" + rest, VELOCITY_SEPARATOR, 0, 1)
  {
    var s := "V" + rest;
    assert s[0..] == s && s[1] == rest[0];
    assert SkipWhitespace(s, 1) == 1;
  }

  /** The velocity line, regrouped for the character class: each label is `V` followed by a
      label `X=`, `Y=` or `Z=` of the class and the pad of the value. */
  lemma AsWrittenVelocityLineLayout(x: Value, y: Value, z: Value)
    ensures VelocityLine(x, y, z)
         == "V" + (("X=" + x.pad) + (x.digits + (" " + ("V" + (("Y=" + y.pad) + (y.digits + (" " + ("V" + (("Z=" + z.pad) + z.digits)))))))))
  {
    assert "VX=" == "V" + "X=";
    assert " VY=" == " " + ("V" + "Y=");
    assert " VZ=" == " " + ("V" + "Z=");
    RegroupLabelledLine("V", "X=", x.pad, x.digits, " ", "V", "Y=", y.pad, y.digits, " ", "V", "Z=", z.pad, z.digits);
  }

  /** As written, `[VX|VY|VZ]\s*=\s*` is a character class: it cuts `VX=x VY=y VZ=z` after each
      `V`, leaving the `V` of every label in the piece before it. */
  lemma AsWrittenVelocityLineSplit(x: Value, y: Value, z: Value)
    requires IsValue(x) && IsValue(y) && IsValue(z)
    ensures RegexSplit(VelocityLine(x, y, z), VELOCITY_SEPARATOR) == ["V", x.digits + " V", y.digits + " V", z.digits]
  {
    var lx, ly, lz := "X=" + x.pad, "Y=" + y.pad, "Z=" + z.pad;
    var t1 := y.digits + (" " + ("V" + (lz + z.digits)));
    var t0 := x.digits + (" " + ("V" + (ly + t1)));
    AsWrittenVelocityLineLayout(x, y, z);
    AsWrittenVelocityLabels();
    assert AvoidsNumbers(VELOCITY_SEPARATOR) by {
      SeparatorsAvoidNumbers();
    }
    assert MatchAt(lz + z.digits, VELOCITY_SEPARATOR) == Some(|lz|) by {
      LabelBeforeLastNumber(VELOCITY_SEPARATOR, lz, 'Z', "", z.pad, z.digits);
    }
    assert MatchAt(ly + t1, VELOCITY_SEPARATOR) == Some(|ly|) by {
      LabelBeforeNumber(VELOCITY_SEPARATOR, ly, 'Y', "", y.pad, y.digits, " " + ("V" + (lz + z.digits)));
    }
    assert MatchAt(lx + t0, VELOCITY_SEPARATOR) == Some(|lx|) by {
      LabelBeforeNumber(VELOCITY_SEPARATOR, lx, 'X', "", x.pad, x.digits, " " + ("V" + (ly + t1)));
    }
    VIsNoLabel(lz + z.digits);
    VIsNoLabel(ly + t1);
    VIsNoLabel(lx + t0);
    LabelledLineSplit(VELOCITY_SEPARATOR, "V", lx, x.digits, t0, "V", ly, y.digits, t1, "V", lz, z.digits);
    assert x.digits + " " + "V" == x.digits + " V" && y.digits + " " + "V" == y.digits + " V";
  }

  /** The discrepancy: as written, the velocity line reads as `V` (NaN for parseFloat) for
      vx, vx (with a trailing ` V`) for vy and vy for vz; vz is lost. */
  lemma AsWrittenVelocityLineFields(indent: string, x: Value, y: Value, z: Value)
    requires IsIndent(indent) && IsValue(x) && IsValue(y) && IsValue(z)
    ensures LineFields(indent + VelocityLine(x, y, z), VELOCITY_SEPARATOR)
         == Axes(Some("V"), Some(x.digits + " V"), Some(y.digits + " V"))
  {
    var line := VelocityLine(x, y, z);
    AsWrittenVelocityLineSplit(x, y, z);
    LineEnds(x, y, z);
    FieldsOfIndentedLine(indent, line, VELOCITY_SEPARATOR, ["V", x.digits + " V", y.digits + " V", z.digits]);
  }

  // ---------------------------------------------------------------------------
  // Whole responses
  // ---------------------------------------------------------------------------

  /** A Horizons text response: header lines, the `$$SOE` line, the date line of the first
      record, its position and velocity lines, then the trailer (further records, the `$$EOE`
      line and the closing text), joined by line breaks. */
  function Response(header: seq<string>, date: string, pos: string, vel: string, trailer: seq<string>): string {
    JoinWith(header + [START_MARKER, date, pos, vel] + trailer, '\n')
  }

  /** Every part of a well-formed response is a line, `$$SOE` first appears in its own line
      and some line of the trailer holds `$$EOE`. */
  predicate WellFormedParts(header: seq<string>, date: string, pos: string, vel: string, trailer: seq<string>) {
    && (forall k :: 0 <= k < |header| ==> '\n' !in header[k] && !Contains(header[k], START_MARKER))
    && (forall k :: 0 <= k < |trailer| ==> '\n' !in trailer[k])
    && (exists k :: 0 <= k < |trailer| && Contains(trailer[k], END_MARKER))
    && '\n' !in date && '\n' !in pos && '\n' !in vel
  }

  /** The parser reads the second and third lines after the `$$SOE` line of a response. */
  lemma {:induction false} ParseOfResponse(header: seq<string>, date: string, pos: string, vel: string,
                                           trailer: seq<string>, velocitySep: Separator)
    requires WellFormedParts(header, date, pos, vel, trailer)
    ensures ParseWith(Response(header, date, pos, vel, trailer), velocitySep)
         == Ok(Ephemeris(LineFields(pos, POSITION_SEPARATOR), LineFields(vel, velocitySep)))
  {
    var lines := header + [START_MARKER, date, pos, vel] + trailer;
    var h := |header|;
    forall k | 0 <= k < |lines| ensures '\n' !in lines[k] {
      if k < h {
        assert lines[k] == header[k];
      } else if k >= h + 4 {
        assert lines[k] == trailer[k - h - 4];
      }
    }
    SplitJoin(lines, '\n');
    assert lines[h] == START_MARKER && Contains(lines[h], START_MARKER);
    var e :| 0 <= e < |trailer| && Contains(trailer[e], END_MARKER);
    assert lines[h + 4 + e] == trailer[e];
    assert forall j :: 0 <= j < h ==> lines[j] == header[j];
    assert IsFirstContaining(lines, START_MARKER, h);
    assert lines[h + 2] == pos && lines[h + 3] == vel;
    LocateLinesOutcome(lines);
  }

  lemma LinesHaveNoBreak(indent: string, x: Value, y: Value, z: Value)
    requires IsIndent(indent) && IsValue(x) && IsValue(y) && IsValue(z)
    ensures '\n' !in indent + PositionLine(x, y, z) && '\n' !in indent + VelocityLine(x, y, z)
  {
    assert !IsNumberChar('\n');
    assert '\n' !in x.digits && '\n' !in y.digits && '\n' !in z.digits;
    assert '\n' !in x.pad && '\n' !in y.pad && '\n' !in z.pad;
  }

  /** A well-formed response, its data lines indented and each value perhaps with a blank in
      place of its sign, reads as the six numbers, each keeping the blank in front of the next
      label, with the intended velocity pattern. */
  lemma ParsesWellFormedResponse(header: seq<string>, date: string, trailer: seq<string>, indent: string,
                                 px: Value, py: Value, pz: Value, vx: Value, vy: Value, vz: Value)
    requires IsIndent(indent)
    requires IsValue(px) && IsValue(py) && IsValue(pz)
    requires IsValue(vx) && IsValue(vy) && IsValue(vz)
    requires WellFormedParts(header, date, "", "", trailer)
    ensures ParseHorizonsData(Response(header, date, indent + PositionLine(px, py, pz), indent + VelocityLine(vx, vy, vz), trailer))
         == Ok(Ephemeris(Axes(Some(px.digits + " "), Some(py.digits + " "), Some(pz.digits)),
                         Axes(Some(vx.digits + " "), Some(vy.digits + " "), Some(vz.digits))))
  {
    LinesHaveNoBreak(indent, px, py, pz);
    LinesHaveNoBreak(indent, vx, vy, vz);
    ParseOfResponse(header, date, indent + PositionLine(px, py, pz), indent + VelocityLine(vx, vy, vz), trailer,
                    INTENDED_VELOCITY_SEPARATOR);
    PositionLineFields(indent, px, py, pz);
    IntendedVelocityLineFields(indent, vx, vy, vz);
  }

  /** The same response read by the parser as written: the position is right, but the
      velocity comes out as `V`, vx and vy. */
  lemma AsWrittenMisreadsVelocity(header: seq<string>, date: string, trailer: seq<string>, indent: string,
                                  px: Value, py: Value, pz: Value, vx: Value, vy: Value, vz: Value)
    requires IsIndent(indent)
    requires IsValue(px) && IsValue(py) && IsValue(pz)
    requires IsValue(vx) && IsValue(vy) && IsValue(vz)
    requires WellFormedParts(header, date, "", "", trailer)
    ensures ParseHorizonsDataAsWritten(Response(header, date, indent + PositionLine(px, py, pz), indent + VelocityLine(vx, vy, vz), trailer))
         == Ok(Ephemeris(Axes(Some(px.digits + " "), Some(py.digits + " "), Some(pz.digits)),
                         Axes(Some("V"), Some(vx.digits + " V"), Some(vy.digits + " V"))))
  {
    LinesHaveNoBreak(indent, px, py, pz);
    LinesHaveNoBreak(indent, vx, vy, vz);
    ParseOfResponse(header, date, indent + PositionLine(px, py, pz), indent + VelocityLine(vx, vy, vz), trailer,
                    VELOCITY_SEPARATOR);
    PositionLineFields(indent, px, py, pz);
    AsWrittenVelocityLineFields(indent, vx, vy, vz);
  }

  /** A concrete instance of the discrepancy, laid out as Horizons prints Earth's vectors:
      indented lines, a blank in place of the sign of each non-negative value, and `$$EOE`
      after the record. */
  lemma AsWrittenMisreadsEarth()
    ensures ParseHorizonsDataAsWritten(
              Response([], "2460000.5 = A.D. 2023-Feb-24", " " + PositionLine(Value("", "-2.4E+07"), Value(" ", "1.4E+08"), Value("", "-7.2E+03")),
                       " " + VelocityLine(Value("", "-2.98E+01"), Value("", "-5.13E+00"), Value(" ", "6.17E-04")), [END_MARKER]))
         == Ok(Ephemeris(Axes(Some("-2.4E+07 "), Some("1.4E+08 "), Some("-7.2E+03")),
                         Axes(Some("V"), Some("-2.98E+01 V"), Some("-5.13E+00 V"))))
  {
    var px, py, pz := Value("", "-2.4E+07"), Value(" ", "1.4E+08"), Value("", "-7.2E+03");
    var vx, vy, vz := Value("", "-2.98E+01"), Value("", "-5.13E+00"), Value(" ", "6.17E-04");
    EarthValues();
    EarthParts();
    assert "-2.4E+07" + " " == "-2.4E+07 " && "1.4E+08" + " " == "1.4E+08 ";
    assert "-2.98E+01" + " V" == "-2.98E+01 V" && "-5.13E+00" + " V" == "-5.13E+00 V";
    AsWrittenMisreadsVelocity([], "2460000.5 = A.D. 2023-Feb-24", [END_MARKER], " ", px, py, pz, vx, vy, vz);
  }

  lemma EarthValues()
    ensures IsValue(Value("", "-2.4E+07")) && IsValue(Value(" ", "1.4E+08")) && IsValue(Value("", "-7.2E+03"))
    ensures IsValue(Value("", "-2.98E+01")) && IsValue(Value("", "-5.13E+00")) && IsValue(Value(" ", "6.17E-04"))
    ensures IsIndent(" ")
  {
  }

  lemma EarthParts()
    ensures WellFormedParts([], "2460000.5 = A.D. 2023-Feb-24", "", "", [END_MARKER])
  {
    assert [END_MARKER][0] == END_MARKER && END_MARKER[..|END_MARKER|] == END_MARKER;
  }

  /** Only the existence of an `$$EOE` line is checked, not its position: a response whose
      `$$EOE` comes right after `$$SOE` still reads the two lines after the date line. */
  lemma EndMarkerPositionUnchecked(pos: string, vel: string)
    requires '\n' !in pos && '\n' !in vel
    ensures ParseHorizonsData(JoinWith([START_MARKER, END_MARKER, pos, vel], '\n'))
         == Ok(Ephemeris(LineFields(pos, POSITION_SEPARATOR), LineFields(vel, INTENDED_VELOCITY_SEPARATOR)))
  {
    var lines := [START_MARKER, END_MARKER, pos, vel];
    SplitJoin(lines, '\n');
    assert Contains(lines[0], START_MARKER) && Contains(lines[1], END_MARKER);
    assert IsFirstContaining(lines, START_MARKER, 0);
    LocateLinesOutcome(lines);
  }
}
