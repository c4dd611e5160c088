/** The string operations the review format is built from. */
module Text {

  datatype Option<+T> = None | Some(value: T)

  datatype Result<+T, +E> = Ok(value: T) | Err(error: E)

  // ----- Lines

  // The length of the first line, its newline included.
  function LineLength(s: string): (n: nat)
    ensures n <= |s|
    ensures '\n' in s ==> n > 0 && s[n - 1] == '\n' && '\n' !in s[..n - 1]
    ensures '\n' !in s ==> n == |s|
  {
    if s == [] then 0 else if s[0] == '\n' then 1 else 1 + LineLength(s[1..])
  }

  // Splits after every newline; what follows the last newline, even nothing, is the last piece.
  function SplitAfter(s: string): (pieces: seq<string>)
    ensures pieces != []
  {
    if '\n' in s then [s[..LineLength(s)]] + SplitAfter(s[LineLength(s)..]) else [s]
  }

  function Join(pieces: seq<string>): string
  {
    if pieces == [] then "" else pieces[0] + Join(pieces[1..])
  }

  predicate EndsLine(s: string) { s != [] && s[|s| - 1] == '\n' }

  // No newline except as the last character.
  predicate OneLine(s: string) { forall k :: 0 <= k < |s| - 1 ==> s[k] != '\n' }

  predicate FullLine(s: string) { EndsLine(s) && OneLine(s) }

  lemma SplitLine(line: string, rest: string)
    requires FullLine(line)
    ensures SplitAfter(line + rest) == [line] + SplitAfter(rest)
  {
    var s := line + rest;
    assert s[|line| - 1] == '\n' && forall k :: 0 <= k < |line| - 1 ==> s[k] == line[k];
    var n := LineLength(s);
    assert forall k :: 0 <= k < n - 1 ==> s[k] == s[..n - 1][k];
    assert n == |line|;
    assert s[..n] == line && s[n..] == rest;
  }

  lemma {:induction false} SplitJoin(lines: seq<string>, rest: string)
    requires forall k :: 0 <= k < |lines| ==> FullLine(lines[k])
    ensures SplitAfter(Join(lines) + rest) == lines + SplitAfter(rest)
  {
    hide *;
    if lines == [] {
      JoinFirst("", []);
      assert "" + rest == rest && [] + SplitAfter(rest) == SplitAfter(rest);
    } else {
      var line, tail := lines[0], lines[1..];
      assert lines == [line] + tail;
      JoinFirst(line, tail);
      assert line + Join(tail) + rest == line + (Join(tail) + rest);
      SplitLine(line, Join(tail) + rest);
      SplitJoin(tail, rest);
    }
  }

  lemma JoinFirst(line: string, tail: seq<string>)
    ensures Join([line] + tail) == line + Join(tail) && Join([]) == ""
  {
    assert ([line] + tail)[1..] == tail;
  }

  lemma {:induction false} JoinConcat(p: seq<string>, q: seq<string>)
    ensures Join(p + q) == Join(p) + Join(q)
  {
    if p == [] {
      assert p + q == q;
    } else {
      assert (p + q)[1..] == p[1..] + q;
      JoinConcat(p[1..], q);
    }
  }

  // The lines of a text; no final newline leaves the last line without one.
  function ReviewLines(content: string): seq<string>
  {
    if content == "" then [] else
      var lines := SplitAfter(content);
      if lines[|lines| - 1] == "" then lines[..|lines| - 1] else lines
  }

  // Lines of one text: nonempty, and only the last may lack its newline.
  predicate TextLines(lines: seq<string>)
  {
    forall k :: 0 <= k < |lines| ==> lines[k] != "" && OneLine(lines[k]) && (k < |lines| - 1 ==> EndsLine(lines[k]))
  }

  // The pieces of a text, cut behind its newlines: only the last does not end a line.
  predicate Pieces(p: seq<string>, s: string)
  {
    && p != [] && Join(p) == s && !EndsLine(p[|p| - 1])
    && forall k :: 0 <= k < |p| ==> OneLine(p[k]) && (k < |p| - 1 ==> EndsLine(p[k]))
  }

  lemma PiecesMore(x: string, p: seq<string>, s: string)
    requires Pieces(p, s) && OneLine(x) && EndsLine(x)
    ensures Pieces([x] + p, x + s)
  {
    JoinFirst(x, p);
    hide Join, OneLine, EndsLine;
    var q := [x] + p;
    assert q[|q| - 1] == p[|p| - 1] && forall k :: 0 < k < |q| ==> q[k] == p[k - 1];
  }

  lemma PiecesOne(s: string)
    requires '\n' !in s
    ensures Pieces([s], s) && SplitAfter(s) == [s]
  {
    JoinFirst(s, []);
    assert [s] + [] == [s] && s + "" == s;
  }

  lemma {:induction false} SplitPieces(s: string)
    ensures Pieces(SplitAfter(s), s)
    decreases |s|
  {
    if '\n' in s {
      var n := LineLength(s);
      hide *;
      PieceFirst(s);
      SplitPieces(s[n..]);
      PiecesMore(s[..n], SplitAfter(s[n..]), s[n..]);
      assert s == s[..n] + s[n..];
    } else {
      PiecesOne(s);
    }
  }

  lemma PieceFirst(s: string)
    requires '\n' in s
    ensures var n := LineLength(s); SplitAfter(s) == [s[..n]] + SplitAfter(s[n..]) && OneLine(s[..n]) && EndsLine(s[..n])
  {
    var n := LineLength(s);
    assert forall k :: 0 <= k < n - 1 ==> s[..n][k] == s[..n - 1][k];
  }

  // Splitting a text into lines loses nothing, and the lines are its lines.
  lemma LinesJoin(content: string)
    ensures Join(ReviewLines(content)) == content && TextLines(ReviewLines(content))
  {
    hide *;
    LinesAre(content);
    if content != "" {
      SplitPieces(content);
      PiecesText(SplitAfter(content), content);
    } else {
      NoLines();
    }
  }

  lemma LinesAre(content: string)
    ensures ReviewLines(content) ==
              if content == "" then [] else
                var p := SplitAfter(content); if p[|p| - 1] == "" then p[..|p| - 1] else p
  {
    hide SplitAfter;
  }

  lemma NoLines()
    ensures Join([]) == "" && TextLines([])
  {
  }

  // Without an empty last piece, the pieces are the text's lines.
  lemma PiecesText(p: seq<string>, s: string)
    requires Pieces(p, s) && s != ""
    ensures var lines := if p[|p| - 1] == "" then p[..|p| - 1] else p; Join(lines) == s && TextLines(lines)
  {
    var n := |p| - 1;
    if p[n] == "" {
      var q := p[..n];
      assert p == q + [""];
      JoinConcat(q, [""]);
      JoinFirst("", []);
      assert [""] + [] == [""] && Join(q) + "" == Join(q);
      hide Join, OneLine;
      assert forall k :: 0 <= k < n ==> q[k] == p[k];
    }
  }

  lemma JoinLines(lines: seq<string>)
    requires TextLines(lines)
    ensures ReviewLines(Join(lines)) == lines
  {
    if lines != [] {
      var init, last := lines[..|lines| - 1], lines[|lines| - 1];
      assert lines == init + [last];
      JoinConcat(init, [last]);
      assert [last][1..] == [] && Join([last]) == last;
      SplitJoin(init, last);
      assert Join(lines) == Join(init) + last;
      if EndsLine(last) {
        SplitLine(last, "");
        assert last + "" == last && SplitAfter("") == [""];
      } else {
        assert forall k :: 0 <= k < |last| ==> last[k] != '\n';
        assert SplitAfter(last) == [last];
      }
    }
  }

  // ----- Numbers

  function Digit(d: nat): char
    requires d < 10
  {
    "0123456789"[d]
  }

  function Decimal(n: nat): (s: string)
    ensures s != []
    ensures forall k :: 0 <= k < |s| ==> '0' <= s[k] <= '9'
  {
    if n < 10 then [Digit(n)] else Decimal(n / 10) + [Digit(n % 10)]
  }

  function Itoa(n: int): string
  {
    if n < 0 then "-" + Decimal(-n) else Decimal(n)
  }

  function ParseDigits(s: string): (r: Option<int>)
    ensures r.Some? ==> r.value >= 0
  {
    if s == [] then None
    else
      var c := s[|s| - 1];
      if !('0' <= c <= '9') then None
      else if |s| == 1 then Some((c - '0') as int)
      else match ParseDigits(s[..|s| - 1])
        case None => None
        case Some(n) => Some(10 * n + (c - '0') as int)
  }

  // Decimal digits behind an optional sign.  Numbers of any size are read; the range
  // checks behind every use refuse those that are too large.
  function Atoi(s: string): Option<int>
  {
    if s != [] && s[0] in "+-" then
      match ParseDigits(s[1..])
      case None => None
      case Some(n) => Some(if s[0] == '-' then -n else n)
    else
      match ParseDigits(s)
      case None => None
      case Some(n) => Some(n)
  }

  lemma {:induction false} DigitsRoundTrip(n: nat)
    ensures ParseDigits(Decimal(n)) == Some(n)
  {
    if n >= 10 {
      DigitsRoundTrip(n / 10);
      var s := Decimal(n);
      assert s[..|s| - 1] == Decimal(n / 10);
    }
  }

  lemma AtoiRoundTrip(n: nat)
    ensures Atoi(Itoa(n)) == Some(n)
  {
    DigitsRoundTrip(n);
    assert '0' <= Decimal(n)[0] <= '9';
  }

  // ----- Fields and cuts

  // White space as the Unicode standard defines it.
  predicate IsSpace(c: char)
  {
    var n := c as int;
    || 9 <= n <= 13 || n == 32 || n == 0x85 || n == 0xA0 || n == 0x1680 || 0x2000 <= n <= 0x200A
    || n == 0x2028 || n == 0x2029 || n == 0x202F || n == 0x205F || n == 0x3000
  }

  // The length of the run of characters at the start of `s` that are all spaces, or all not.
  function SpanLength(s: string, space: bool): (n: nat)
    ensures n <= |s|
    ensures forall k :: 0 <= k < n ==> IsSpace(s[k]) == space
    ensures n < |s| ==> IsSpace(s[n]) != space
  {
    if s == [] || IsSpace(s[0]) != space then 0 else 1 + SpanLength(s[1..], space)
  }

  function TrimSpace(s: string): (t: string)
    ensures |t| <= |s| && (t != [] ==> !IsSpace(t[0]))
  {
    s[SpanLength(s, true)..]
  }

  // The maximal stretches without white space.
  function Fields(s: string): seq<string>
    decreases |s|
  {
    var t := TrimSpace(s);
    if t == [] then [] else [t[..SpanLength(t, false)]] + Fields(t[SpanLength(t, false)..])
  }

  predicate Token(s: string) { s != [] && forall k :: 0 <= k < |s| ==> !IsSpace(s[k]) }

  lemma FieldsToken(token: string, space: char, rest: string)
    requires Token(token) && IsSpace(space)
    ensures Fields(token + [space] + rest) == [token] + Fields(rest)
  {
    var s := token + [space] + rest;
    assert s[0] == token[0];
    assert TrimSpace(s) == s;
    var n := SpanLength(s, false);
    assert s[|token|] == space && forall k :: 0 <= k < |token| ==> s[k] == token[k];
    assert n == |token|;
    assert s[..n] == token && s[n..] == [space] + rest;
    TrimMore(space, rest);
    var more := [space] + rest;
    assert Fields(more) == Fields(rest);
  }

  // Words on one line, single spaces between them.
  function Spaced(words: seq<string>): string
  {
    if words == [] then ""
    else if |words| == 1 then words[0] + ['\n'] + ""
    else words[0] + [' '] + Spaced(words[1..])
  }

  lemma {:induction false} FieldsSpaced(words: seq<string>)
    requires forall k :: 0 <= k < |words| ==> Token(words[k])
    ensures Fields(Spaced(words)) == words
  {
    if |words| == 0 {
    } else {
      FieldsToken(words[0], if |words| == 1 then '\n' else ' ', if |words| == 1 then "" else Spaced(words[1..]));
      FieldsSpaced(words[1..]);
      assert words == [words[0]] + words[1..];
      assert |words| == 1 ==> words[1..] == [];
    }
  }

  lemma {:induction false} SpacedFullLine(words: seq<string>)
    requires words != [] && forall k :: 0 <= k < |words| ==> Token(words[k])
    ensures FullLine(Spaced(words))
  {
    assert forall k :: 0 <= k < |words[0]| ==> !IsSpace(words[0][k]);
    assert '\n' !in words[0];
    if |words| > 1 {
      SpacedFullLine(words[1..]);
    }
  }

  lemma TrimMore(space: char, rest: string)
    requires IsSpace(space)
    ensures TrimSpace([space] + rest) == TrimSpace(rest)
  {
    var s := [space] + rest;
    assert s[1..] == rest;
    assert s[1 + SpanLength(rest, true)..] == rest[SpanLength(rest, true)..];
  }

  // The text before and after the first occurrence of `c`, if there is one.
  function Cut(s: string, c: char): (string, string, bool)
  {
    if s == [] then ("", "", false)
    else if s[0] == c then ("", s[1..], true)
    else
      var (before, after, found) := Cut(s[1..], c);
      if found then ([s[0]] + before, after, true) else (s, "", false)
  }

  lemma {:induction false} CutAt(before: string, c: char, after: string)
    requires c !in before
    ensures Cut(before + [c] + after, c) == (before, after, true)
  {
    var s := before + [c] + after;
    if before != [] {
      assert s[1..] == before[1..] + [c] + after && s[0] == before[0];
      CutAt(before[1..], c, after);
      assert [before[0]] + before[1..] == before;
    } else {
      assert s[1..] == after;
    }
  }
}
