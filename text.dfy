/** The Ruby String operations the build tool relies on, stated over seq<char>. */
module Text {

  /** The characters Ruby's strip and split treat as whitespace: space, \t, \n, \v, \f, \r. */
  predicate IsSpace(c: char) {
    c == ' ' || c == '\t' || c == '\n' || c == '\U{000B}' || c == '\U{000C}' || c == '\r'
  }

  /** Neither the first nor the last character is whitespace. */
  predicate NoSpaceAtEnds(s: string) {
    s == [] || (!IsSpace(s[0]) && !IsSpace(s[|s| - 1]))
  }

  /** A non-empty run of non-whitespace characters. */
  predicate IsWord(s: string) {
    s != [] && forall i :: 0 <= i < |s| ==> !IsSpace(s[i])
  }

  predicate IsLetter(c: char) { 'a' <= c <= 'z' || 'A' <= c <= 'Z' }
  predicate IsDigit(c: char) { '0' <= c <= '9' }
  predicate IsAlnum(c: char) { IsLetter(c) || IsDigit(c) }

  /** Ruby's \w on a String: [a-zA-Z0-9_]. */
  predicate IsWordChar(c: char) { IsAlnum(c) || c == '_' }

  /** The whole string matches \w+. */
  predicate IsWordString(s: string) {
    s != [] && forall i :: 0 <= i < |s| ==> IsWordChar(s[i])
  }

  predicate StartsWith(s: string, prefix: string) {
    |prefix| <= |s| && s[..|prefix|] == prefix
  }

  // ---------------------------------------------------------------------------
  // strip, lstrip, rstrip

  /** String#lstrip: what remains after the longest all-whitespace prefix. */
  function LStrip(s: string): (r: string)
    ensures |r| <= |s| && r == s[|s| - |r|..]
    ensures r == [] || !IsSpace(r[0])
    ensures forall i :: 0 <= i < |s| - |r| ==> IsSpace(s[i])
  {
    if s != [] && IsSpace(s[0]) then LStrip(s[1..]) else s
  }

  /** String#rstrip: what remains before the longest all-whitespace suffix. */
  function RStrip(s: string): (r: string)
    ensures |r| <= |s| && r == s[..|r|]
    ensures r == [] || !IsSpace(r[|r| - 1])
    ensures forall i :: |r| <= i < |s| ==> IsSpace(s[i])
  {
    if s != [] && IsSpace(s[|s| - 1]) then RStrip(s[..|s| - 1]) else s
  }

  /** String#strip. */
  function Strip(s: string): (r: string)
    ensures NoSpaceAtEnds(r)
  {
    RStrip(LStrip(s))
  }

  lemma LStripNoSpace(s: string)
    requires s == [] || !IsSpace(s[0])
    ensures LStrip(s) == s
  {
  }

  lemma RStripNoSpace(s: string)
    requires s == [] || !IsSpace(s[|s| - 1])
    ensures RStrip(s) == s
  {
  }

  /** Stripping text that starts with a non-blank character and ends with one newline
      removes exactly that newline. */
  lemma StripTrailingNewline(s: string)
    requires s != [] && !IsSpace(s[0]) && !IsSpace(s[|s| - 1])
    ensures Strip(s + "\n") == s
  {
    LStripNoSpace(s + "\n");
    assert (s + "\n")[..|s + "\n"| - 1] == s;
    RStripNoSpace(s);
  }

  /** A string of indentation spaces in front of s is what lstrip removes. */
  lemma LStripIndent(n: nat, s: string)
    requires s == [] || !IsSpace(s[0])
    ensures LStrip(Spaces(n) + s) == s
  {
    var t := Spaces(n) + s;
    var r := LStrip(t);
    assert s != [] ==> t[n] == s[0];
    if |r| > |s| {
      assert r[0] == t[|t| - |r|];
    }
    assert t[n..] == s;
  }

  function Spaces(n: nat): (r: string)
    ensures |r| == n && forall i :: 0 <= i < n ==> r[i] == ' '
  {
    if n == 0 then [] else [' '] + Spaces(n - 1)
  }

  // ---------------------------------------------------------------------------
  // comments and line cleaning

  /** line.sub!(/#.*$/, '') on a line holding no newline: drops everything from the first '#'. */
  function CutComment(s: string): (r: string)
    ensures |r| <= |s| && r == s[..|r|]
    ensures '#' !in r
    ensures |r| < |s| ==> s[|r|] == '#'
  {
    if s == [] || s[0] == '#' then [] else [s[0]] + CutComment(s[1..])
  }

  lemma CutCommentNone(s: string)
    requires '#' !in s
    ensures CutComment(s) == s
  {
  }

  /** What system.rb does to each line: lstrip!, then cut the comment, then rstrip!. */
  function CleanLine(s: string): (r: string)
    ensures NoSpaceAtEnds(r)
    ensures '#' !in r
  {
    var x := CutComment(LStrip(s));
    var r := RStrip(x);
    assert forall i :: 0 <= i < |r| ==> r[i] == x[i];
    r
  }

  /** A line that is already clean is left as it is, whatever indentation precedes it. */
  lemma CleanIndented(n: nat, s: string)
    requires NoSpaceAtEnds(s) && '#' !in s
    ensures CleanLine(Spaces(n) + s) == s
  {
    LStripIndent(n, s);
    CutCommentNone(s);
    RStripNoSpace(s);
  }

  /** An indented comment line cleans to the empty line. */
  lemma CleanIndentedComment(n: nat, s: string)
    requires s != [] && s[0] == '#'
    ensures CleanLine(Spaces(n) + s) == []
  {
    LStripIndent(n, s);
  }

  lemma CleanEmpty()
    ensures CleanLine([]) == []
  {
  }

  // ---------------------------------------------------------------------------
  // split and join

  /** Joins parts with sep between consecutive parts (Ruby's Array#join). */
  function JoinWith(parts: seq<string>, sep: string): string
  {
    if |parts| == 0 then []
    else if |parts| == 1 then parts[0]
    else parts[0] + sep + JoinWith(parts[1..], sep)
  }

  /** The pieces of s between occurrences of c, keeping empty pieces. */
  function SplitOn(s: string, c: char): (r: seq<string>)
    ensures |r| >= 1
    ensures forall piece :: piece in r ==> c !in piece
    ensures JoinWith(r, [c]) == s
  {
    if s == [] then [[]]
    else
      var rest := SplitOn(s[1..], c);
      if s[0] == c then
        assert [c] + s[1..] == s;
        [[]] + rest
      else
        var r := [[s[0]] + rest[0]] + rest[1..];
        assert r[1..] == rest[1..];
        r
  }

  lemma {:induction false} SplitPiece(w: string, c: char, t: string)
    requires c !in w
    ensures SplitOn(w + [c] + t, c) == [w] + SplitOn(t, c)
    decreases |w|
  {
    if w == [] {
      assert w + [c] + t == [c] + t;
      assert ([c] + t)[1..] == t;
    } else {
      assert (w + [c] + t)[1..] == w[1..] + [c] + t;
      SplitPiece(w[1..], c, t);
      assert [w[0]] + w[1..] == w;
    }
  }

  lemma {:induction false} SplitWhole(w: string, c: char)
    requires c !in w
    ensures SplitOn(w, c) == [w]
    decreases |w|
  {
    if w != [] {
      SplitWhole(w[1..], c);
      assert [w[0]] + w[1..] == w;
    }
  }

  /** Splitting at c undoes joining with c, when no part contains c. */
  lemma {:induction false} SplitOfJoin(parts: seq<string>, c: char)
    requires |parts| >= 1
    requires forall p :: p in parts ==> c !in p
    ensures SplitOn(JoinWith(parts, [c]), c) == parts
    decreases |parts|
  {
    if |parts| == 1 {
      SplitWhole(parts[0], c);
    } else {
      SplitOfJoin(parts[1..], c);
      SplitPiece(parts[0], c, JoinWith(parts[1..], [c]));
      assert [parts[0]] + parts[1..] == parts;
    }
  }

  /** The lines of ls, each followed by a newline: what a serialiser appending "...\n" builds. */
  function Unlines(ls: seq<string>): string
  {
    if ls == [] then [] else Unlines(ls[..|ls| - 1]) + ls[|ls| - 1] + "\n"
  }

  lemma UnlinesSnoc(ls: seq<string>, l: string)
    ensures Unlines(ls + [l]) == Unlines(ls) + l + "\n"
  {
    assert (ls + [l])[..|ls|] == ls;
  }

  lemma {:induction false} JoinWithSnoc(ps: seq<string>, x: string, sep: string)
    requires ps != []
    ensures JoinWith(ps + [x], sep) == JoinWith(ps, sep) + sep + x
    decreases |ps|
  {
    if |ps| == 1 {
      assert ps + [x] == [ps[0], x];
      assert [ps[0], x][1..] == [x];
    } else {
      assert (ps + [x])[1..] == ps[1..] + [x];
      JoinWithSnoc(ps[1..], x, sep);
    }
  }

  lemma {:induction false} UnlinesAsJoin(ls: seq<string>)
    ensures Unlines(ls) == JoinWith(ls + [[]], "\n")
    decreases |ls|
  {
    if ls != [] {
      var init, l := ls[..|ls| - 1], ls[|ls| - 1];
      assert init + [l] == ls;
      JoinWithSnoc(ls, [], "\n");
      if init == [] {
        assert ls == [l];
      } else {
        UnlinesAsJoin(init);
        JoinWithSnoc(init, [], "\n");
        JoinWithSnoc(init, l, "\n");
      }
    }
  }

  /** Splitting a serialised text at newlines gives back its lines, then the empty piece
      after the final newline. */
  lemma SplitOfUnlines(ls: seq<string>)
    requires forall l :: l in ls ==> '\n' !in l
    ensures SplitOn(Unlines(ls), '\n') == ls + [[]]
  {
    UnlinesAsJoin(ls);
    SplitOfJoin(ls + [[]], '\n');
  }

  lemma {:induction false} UnlinesAppend(a: seq<string>, b: seq<string>)
    ensures Unlines(a + b) == Unlines(a) + Unlines(b)
    decreases |b|
  {
    if b == [] {
      assert a + b == a;
    } else {
      var init, l := b[..|b| - 1], b[|b| - 1];
      assert a + b == (a + init) + [l];
      assert b == init + [l];
      UnlinesAppend(a, init);
      UnlinesSnoc(a + init, l);
      UnlinesSnoc(init, l);
    }
  }

  /** The i-th line, with its newline, stands in the text right after the lines before it. */
  lemma UnlinesLineAt(ls: seq<string>, i: nat)
    requires i < |ls|
    ensures var at := |Unlines(ls[..i])|;
      at + |ls[i]| + 1 <= |Unlines(ls)| && Unlines(ls)[at..at + |ls[i]| + 1] == ls[i] + "\n"
  {
    assert ls == ls[..i] + [ls[i]] + ls[i + 1..];
    UnlinesAppend(ls[..i] + [ls[i]], ls[i + 1..]);
    UnlinesSnoc(ls[..i], ls[i]);
  }

  lemma FourSpaces()
    ensures Spaces(4) == "    "
  {
  }

  /** Each element of xs on its own line, indented by n spaces. */
  function Indented(xs: seq<string>, n: nat): (r: seq<string>)
    ensures |r| == |xs| && forall i :: 0 <= i < |xs| ==> r[i] == Spaces(n) + xs[i]
  {
    seq(|xs|, i requires 0 <= i < |xs| => Spaces(n) + xs[i])
  }

  /** A string assembled from pieces holds no newline when no piece does. */
  lemma NoNewlineJoin(a: string, b: string)
    requires '\n' !in a && '\n' !in b
    ensures '\n' !in a + b
  {
  }

  lemma NoNewlineJoin4(a: string, b: string, c: string, d: string)
    requires '\n' !in a && '\n' !in b && '\n' !in c && '\n' !in d
    ensures '\n' !in a + b + c + d
  {
    NoNewlineJoin(a, b);
    NoNewlineJoin(a + b, c);
    NoNewlineJoin(a + b + c, d);
  }

  lemma AppendAssoc<T>(a: seq<T>, b: seq<T>, c: seq<T>, e: seq<T>)
    ensures a + b + c + e == a + (b + c + e)
  {
  }

  /** Appends one line and its newline, as each `str += "...\n"` of the serialisers does. */
  method Emit(str: string, ghost done: seq<string>, line: string) returns (s: string, ghost d: seq<string>)
    requires str == Unlines(done)
    ensures d == done + [line] && s == Unlines(d)
  {
    s := str + line + "\n";
    d := done + [line];
    UnlinesSnoc(done, line);
  }

  /** Appends each item on its own line, indented by four spaces, in list order. */
  method EmitItems(str: string, ghost done: seq<string>, items: seq<string>)
    returns (s: string, ghost d: seq<string>)
    requires str == Unlines(done)
    ensures d == done + Indented(items, 4) && s == Unlines(d)
  {
    s, d := str, done;
    var i := 0;
    while i < |items|
      invariant 0 <= i <= |items|
      invariant d == done + Indented(items[..i], 4) && s == Unlines(d)
    {
      ghost var d0 := d;
      s, d := Emit(s, d, "    " + items[i]);
      IndentedStep(done, items, i, d0, d);
      i := i + 1;
    }
    assert items[..i] == items;
  }

  /** Appending the next item's line to the lines written so far. */
  lemma IndentedStep(done: seq<string>, items: seq<string>, i: nat, d: seq<string>, d2: seq<string>)
    requires i < |items| && d == done + Indented(items[..i], 4) && d2 == d + ["    " + items[i]]
    ensures d2 == done + Indented(items[..i + 1], 4)
  {
    FourSpaces();
    assert Indented(items[..i + 1], 4) == Indented(items[..i], 4) + [Spaces(4) + items[i]];
  }

  /** Ruby's Array#split drops trailing empty fields. */
  function DropTrailingEmpty(parts: seq<string>): (r: seq<string>)
    ensures |r| <= |parts| && r == parts[..|r|]
    ensures r == [] || r[|r| - 1] != []
    ensures forall i :: |r| <= i < |parts| ==> parts[i] == []
  {
    if parts != [] && parts[|parts| - 1] == [] then DropTrailingEmpty(parts[..|parts| - 1]) else parts
  }

  /** str.split(/\n/). */
  function SplitLines(s: string): seq<string>
  {
    DropTrailingEmpty(SplitOn(s, '\n'))
  }

  // ---------------------------------------------------------------------------
  // whitespace tokens

  /** The leading run of non-whitespace characters of s. */
  function Word(s: string): (w: string)
    ensures |w| <= |s| && w == s[..|w|]
    ensures forall i :: 0 <= i < |w| ==> !IsSpace(w[i])
    ensures |w| < |s| ==> IsSpace(s[|w|])
  {
    if s == [] || IsSpace(s[0]) then [] else [s[0]] + Word(s[1..])
  }

  /** String#split with no argument: the whitespace-separated words of s, in order. */
  function Tokens(s: string): (r: seq<string>)
    ensures forall t :: t in r ==> IsWord(t)
    decreases |s|
  {
    var t := LStrip(s);
    if t == [] then []
    else
      var w := Word(t);
      [w] + Tokens(t[|w|..])
  }

  /** The first token, or "" where Ruby's tokens.first is nil (interpolated as ""). */
  function FirstToken(s: string): string
  {
    var ts := Tokens(s);
    if ts == [] then [] else ts[0]
  }

  lemma {:induction false} WordOfConcat(w: string, s: string)
    requires IsWord(w)
    requires s == [] || IsSpace(s[0])
    ensures Word(w + s) == w
    decreases |w|
  {
    if |w| == 1 {
      assert (w + s)[1..] == s;
    } else {
      assert (w + s)[1..] == w[1..] + s;
      WordOfConcat(w[1..], s);
      assert [w[0]] + w[1..] == w;
    }
  }

  /** A word followed by nothing or by whitespace is the first token. */
  lemma TokensOfWordThen(w: string, s: string)
    requires IsWord(w)
    requires s == [] || IsSpace(s[0])
    ensures Tokens(w + s) == [w] + Tokens(s)
  {
    LStripNoSpace(w + s);
    WordOfConcat(w, s);
    assert (w + s)[|w|..] == s;
  }

  lemma TokensOfSpaceThen(s: string)
    ensures Tokens(" " + s) == Tokens(s)
  {
    assert (" " + s)[1..] == s;
  }

  lemma TokensOfWord(w: string)
    requires IsWord(w)
    ensures Tokens(w) == [w]
  {
    TokensOfWordThen(w, []);
    assert w + [] == w;
  }

  /** The tokens of "a b" and of "a b c" are the words themselves. */
  lemma TokensOfTwo(a: string, b: string)
    requires IsWord(a) && IsWord(b)
    ensures Tokens(a + " " + b) == [a, b]
  {
    var rest := " " + b;
    assert a + " " + b == a + rest;
    TokensOfWordThen(a, rest);
    TokensOfSpaceThen(b);
    TokensOfWord(b);
  }

  lemma TokensOfThree(a: string, b: string, c: string)
    requires IsWord(a) && IsWord(b) && IsWord(c)
    ensures Tokens(a + " " + b + " " + c) == [a, b, c]
  {
    var tail := b + " " + c;
    var rest := " " + tail;
    assert Tokens(rest) == [b, c] by {
      TokensOfSpaceThen(tail);
      TokensOfTwo(b, c);
    }
    TokensOfWordThen(a, rest);
    RegroupThree(a, b, c);
  }

  lemma RegroupThree(a: string, b: string, c: string)
    ensures a + " " + b + " " + c == a + (" " + (b + " " + c))
  {
  }

  // ---------------------------------------------------------------------------
  // case, numbers, ordering

  /** String#downcase on ASCII letters. */
  function LowerChar(c: char): char
  {
    if 'A' <= c <= 'Z' then (c as int + 32) as char else c
  }

  function Lower(s: string): (r: string)
    ensures |r| == |s| && forall i :: 0 <= i < |s| ==> r[i] == LowerChar(s[i])
  {
    seq(|s|, i requires 0 <= i < |s| => LowerChar(s[i]))
  }

  predicate IsLower(s: string) {
    forall i :: 0 <= i < |s| ==> !('A' <= s[i] <= 'Z')
  }

  function DigitChar(d: nat): char
    requires d < 10
  {
    "0123456789"[d]
  }

  /** Integer#to_s for a non-negative integer. */
  function NatToString(n: nat): (r: string)
    ensures r != [] && forall i :: 0 <= i < |r| ==> IsDigit(r[i])
  {
    if n < 10 then [DigitChar(n)] else NatToString(n / 10) + [DigitChar(n % 10)]
  }

  /** String#<=> says a sorts before b: lexicographic order on character codes. */
  predicate LexLess(a: string, b: string)
  {
    if a == [] then b != []
    else if b == [] then false
    else if a[0] != b[0] then a[0] < b[0]
    else LexLess(a[1..], b[1..])
  }

  lemma {:induction false} LexLessIrreflexive(a: string)
    ensures !LexLess(a, a)
    decreases |a|
  {
    if a != [] { LexLessIrreflexive(a[1..]); }
  }

  lemma {:induction false} LexLessTransitive(a: string, b: string, c: string)
    requires LexLess(a, b) && LexLess(b, c)
    ensures LexLess(a, c)
    decreases |a|
  {
    if a != [] && b != [] && c != [] && a[0] == b[0] && b[0] == c[0] {
      LexLessTransitive(a[1..], b[1..], c[1..]);
    }
  }

  lemma {:induction false} LexLessTotal(a: string, b: string)
    requires a != b
    ensures LexLess(a, b) || LexLess(b, a)
    decreases |a|
  {
    if a != [] && b != [] && a[0] == b[0] {
      assert a == [a[0]] + a[1..] && b == [b[0]] + b[1..];
      LexLessTotal(a[1..], b[1..]);
    }
  }
}
