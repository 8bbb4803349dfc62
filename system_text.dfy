/** The text System#to_s writes is read back by System#from_s as the same builds: the
    normalisation turns the written lines into the bare property lines, the header is
    accepted, and each written build block is read back as its name and projects. */
module SystemText {
  import opened Wrappers
  import opened Text
  import opened Blocks
  import opened Systems

  /** A project name that survives the round trip: one line, no comment marker, no
      surrounding whitespace, and not the closing brace itself. */
  predicate IsProjectLine(p: string)
  {
    p != [] && NoSpaceAtEnds(p) && '#' !in p && '\n' !in p && p != "}"
  }

  /** Builds whose names are block names and whose projects are project lines. */
  predicate WellFormed(es: seq<Entry>)
  {
    forall e :: e in es ==> IsBlockName(e.name) && forall p :: p in e.projects ==> IsProjectLine(p)
  }

  /** One build as from_s sees it after normalisation. */
  function CleanBlock(e: Entry): seq<string>
  {
    ["build " + e.name + " {"] + e.projects + ["}"]
  }

  function CleanBuilds(es: seq<Entry>): seq<string>
  {
    if es == [] then [] else CleanBlock(es[0]) + CleanBuilds(es[1..])
  }

  /** The lines System#to_s writes, with the header keyword as a parameter. */
  function WrittenLines(kw: string, es: seq<Entry>): seq<string>
  {
    [SystemComment, kw + " {"] + BuildLines(es) + ["}"]
  }

  /** The round trip: the text written for well-formed builds parses successfully, and the
      builds it yields are the builds written, in the order written. */
  lemma RoundTrip(es: seq<Entry>)
    requires WellFormed(es)
    ensures ParseSystem(Unlines(SystemLines(es))) == Parse(es, Pass)
  {
    assert "system" + " {" == "system {";
    assert SystemLines(es) == WrittenLines("system", es);
    RoundTripWith("system", es);
  }

  /** The header's keyword is never checked: the same holds for any one-word keyword. */
  lemma RoundTripWith(kw: string, es: seq<Entry>)
    requires IsWord(kw) && '#' !in kw && WellFormed(es)
    ensures ParseSystem(Unlines(WrittenLines(kw, es))) == Parse(es, Pass)
  {
    var body := CleanBuilds(es) + ["}"];
    var text := Unlines(WrittenLines(kw, es));
    NormalizedText(kw, es);
    assert Normalized(text) == [kw + " {"] + body;
    DeclAccepted(kw, body);
    PropertiesOfWritten(es);
    ParseOfDecl(text, [kw + " {"] + body, body);
  }

  /** from_s on a text whose normalised lines have an accepted header runs the property
      loop on the lines after it. */
  lemma ParseOfDecl(text: string, lines: seq<string>, rest: seq<string>)
    requires Normalized(text) == lines && lines != [] && SystemDecl(lines) == Ok(rest) && rest != []
    ensures ParseSystem(text) == Properties(rest)
  {
  }

  /** A fresh System reading the text of well-formed builds with distinct names holds
      exactly those builds afterwards, in the order written. */
  lemma ReloadIntoEmpty(es: seq<Entry>)
    requires WellFormed(es) && Distinct(Names(es))
    ensures ParseSystem(Unlines(SystemLines(es))).outcome == Pass
    ensures UpsertAll([], ParseSystem(Unlines(SystemLines(es))).stored) == es
  {
    RoundTrip(es);
    UpsertAllEmpty(es);
  }

  lemma UpsertAllEmpty(es: seq<Entry>)
    requires Distinct(Names(es))
    ensures UpsertAll([], es) == es
  {
    assert [] + es == es;
    UpsertAllFresh([], es);
  }

  // ---------------------------------------------------------------------------
  // normalisation of the written text

  lemma NormalizedText(kw: string, es: seq<Entry>)
    requires IsWord(kw) && '#' !in kw && WellFormed(es)
    ensures Normalized(Unlines(WrittenLines(kw, es))) == [kw + " {"] + (CleanBuilds(es) + ["}"])
  {
    var ls := WrittenLines(kw, es);
    var kept := [kw + " {"] + CleanBuilds(es) + ["}"];
    SplitWritten(kw, es);
    CleanSystemLines(kw, es);
    KeptNonEmpty(kw, es, kept);
    NormalizedSteps(Unlines(ls), ls, kept);
    Regroup2(kw + " {", CleanBuilds(es), "}");
  }

  /** Stripping the written text and splitting it at newlines gives back the written lines. */
  lemma SplitWritten(kw: string, es: seq<Entry>)
    requires IsWord(kw) && WellFormed(es)
    ensures SplitLines(Strip(Unlines(WrittenLines(kw, es)))) == WrittenLines(kw, es)
  {
    var ls := WrittenLines(kw, es);
    LinesOfSystem(kw, es);
    CommentFacts();
    StripUnlines(ls);
    SplitLinesOfJoin(ls);
  }

  lemma KeptNonEmpty(kw: string, es: seq<Entry>, kept: seq<string>)
    requires IsWord(kw) && WellFormed(es) && kept == [kw + " {"] + CleanBuilds(es) + ["}"]
    ensures forall i :: 0 <= i < |kept| ==> kept[i] != []
  {
    var cb := CleanBuilds(es);
    CleanBuildsNonEmpty(es);
    forall i | 0 <= i < |kept| ensures kept[i] != [] {
      if 0 < i <= |cb| {
        assert kept[i] == cb[i - 1] && cb[i - 1] in cb;
      }
    }
  }

  /** The normalisation of a text whose lines clean to a blank line followed by non-blank
      ones: the blank line is dropped and the others are kept. */
  lemma NormalizedSteps(text: string, ls: seq<string>, kept: seq<string>)
    requires SplitLines(Strip(text)) == ls && CleanAll(ls) == [[]] + kept
    requires forall i :: 0 <= i < |kept| ==> kept[i] != []
    ensures Normalized(text) == kept
  {
    DropBlankHead(kept);
    assert Normalized(text) == DropEmpty(CleanAll(ls));
  }

  lemma DropBlankHead(kept: seq<string>)
    requires forall i :: 0 <= i < |kept| ==> kept[i] != []
    ensures DropEmpty([[]] + kept) == kept
  {
    DropEmptyAppend([[]], kept);
    DropEmptyKeeps(kept);
    assert DropEmpty([[]]) == [];
  }

  /** The facts about the written lines the normalisation needs. */
  lemma LinesOfSystem(kw: string, es: seq<Entry>)
    requires IsWord(kw) && WellFormed(es)
    ensures var ls := WrittenLines(kw, es);
      && |ls| >= 2 && ls[0] == SystemComment && ls[|ls| - 1] == "}"
      && forall l :: l in ls ==> '\n' !in l
  {
    var ls := WrittenLines(kw, es);
    CommentFacts();
    BuildLinesFree(es);
    assert '\n' !in kw;
    NoNewlineJoin(kw, " {");
  }

  lemma CommentFacts()
    ensures '\n' !in SystemComment && SystemComment != [] && SystemComment[0] == '#'
  {
    NoNewlineJoin4("# A system is ", "comprised of builds, ", "each of which ", "contain projects");
  }

  lemma {:induction false} BuildLinesFree(es: seq<Entry>)
    requires WellFormed(es)
    ensures forall l :: l in BuildLines(es) ==> '\n' !in l
    decreases |es|
  {
    if es != [] {
      BlockFree(es[0]);
      BuildLinesFree(es[1..]);
    }
  }

  lemma BlockFree(e: Entry)
    requires IsBlockName(e.name) && forall p :: p in e.projects ==> IsProjectLine(p)
    ensures forall l :: l in BuildBlock(e) ==> '\n' !in l
  {
    assert '\n' !in e.name;
    NoNewlineJoin("  build " + e.name, " {");
    NoNewlineJoin("  build ", e.name);
    FourSpaces();
    forall l | l in Indented(e.projects, 4) ensures '\n' !in l {
      var i :| 0 <= i < |e.projects| && Indented(e.projects, 4)[i] == l;
      assert e.projects[i] in e.projects;
    }
  }

  /** Strip removes just the final newline of text whose first and last lines are
      non-empty and do not begin or end with whitespace. */
  lemma StripUnlines(ls: seq<string>)
    requires ls != [] && ls[0] != [] && !IsSpace(ls[0][0])
    requires ls[|ls| - 1] != [] && !IsSpace(ls[|ls| - 1][|ls[|ls| - 1]| - 1])
    ensures Strip(Unlines(ls)) == JoinWith(ls, "\n")
  {
    UnlinesAsJoin(ls);
    JoinWithSnoc(ls, [], "\n");
    var j := JoinWith(ls, "\n");
    assert Unlines(ls) == j + "\n";
    JoinFirst(ls, "\n");
    JoinLast(ls, "\n");
    StripTrailingNewline(j);
  }

  /** A join begins with the first part's first character and ends with the last part's
      last character. */
  lemma JoinFirst(ls: seq<string>, sep: string)
    requires ls != [] && ls[0] != []
    ensures var j := JoinWith(ls, sep); j != [] && j[0] == ls[0][0]
  {
  }

  lemma {:induction false} JoinLast(ls: seq<string>, sep: string)
    requires ls != [] && ls[|ls| - 1] != []
    ensures var j := JoinWith(ls, sep); j != [] && j[|j| - 1] == ls[|ls| - 1][|ls[|ls| - 1]| - 1]
    decreases |ls|
  {
    if |ls| > 1 {
      JoinLast(ls[1..], sep);
    }
  }

  lemma SplitLinesOfJoin(ls: seq<string>)
    requires |ls| >= 1 && ls[|ls| - 1] != []
    requires forall l :: l in ls ==> '\n' !in l
    ensures SplitLines(JoinWith(ls, "\n")) == ls
  {
    SplitOfJoin(ls, '\n');
  }

  // ---------------------------------------------------------------------------
  // cleaning each line

  lemma CleanAllAppend(a: seq<string>, b: seq<string>)
    ensures CleanAll(a + b) == CleanAll(a) + CleanAll(b)
  {
  }

  /** Cleaning a list of lines framed by a first and a last line. */
  lemma CleanFramed(first: string, mid: seq<string>, last: string, f: string, l: string)
    requires CleanLine(first) == f && CleanLine(last) == l
    ensures CleanAll([first] + mid + [last]) == [f] + CleanAll(mid) + [l]
  {
    CleanAllAppend([first] + mid, [last]);
    CleanAllAppend([first], mid);
    CleanSingle(first, f);
    CleanSingle(last, l);
  }

  lemma CleanSingle(x: string, y: string)
    requires CleanLine(x) == y
    ensures CleanAll([x]) == [y]
  {
    var c := CleanAll([x]);
    assert |c| == 1 && c[0] == y;
  }

  lemma CleanSystemLines(kw: string, es: seq<Entry>)
    requires IsWord(kw) && '#' !in kw && WellFormed(es)
    ensures CleanAll(WrittenLines(kw, es)) == [[]] + ([kw + " {"] + CleanBuilds(es) + ["}"])
  {
    var builds := BuildLines(es);
    var h := kw + " {";
    Regroup(SystemComment, h, builds, "}");
    CommentClean();
    CloseClean(0);
    assert Spaces(0) + "}" == "}";
    CleanFramed(SystemComment, [h] + builds, "}", [], "}");
    CleanAllAppend([h], builds);
    OpenClean(kw);
    CleanSingle(h, h);
    CleanBuildLines(es);
    Regroup2([], [h] + CleanBuilds(es), "}");
  }

  lemma Regroup<T>(a: T, b: T, x: seq<T>, c: T)
    ensures [a, b] + x + [c] == [a] + ([b] + x) + [c]
  {
  }

  lemma Regroup2<T>(a: T, x: seq<T>, c: T)
    ensures [a] + x + [c] == [a] + (x + [c])
  {
  }

  lemma CommentClean()
    ensures CleanLine(SystemComment) == []
  {
    CommentFacts();
    CleanIndentedComment(0, SystemComment);
    assert Spaces(0) + SystemComment == SystemComment;
  }

  lemma OpenClean(kw: string)
    requires IsWord(kw) && '#' !in kw
    ensures CleanLine(kw + " {") == kw + " {"
  {
    var h := kw + " {";
    assert h[0] == kw[0] && h[|h| - 1] == '{';
    assert '#' !in h by {
      forall i | 0 <= i < |h| ensures h[i] != '#' {
        if i < |kw| {
          assert h[i] == kw[i];
        }
      }
    }
    CleanIndented(0, h);
    assert Spaces(0) + h == h;
  }

  /** A closing brace indented by n spaces cleans to a bare brace. */
  lemma CloseClean(n: nat)
    ensures CleanLine(Spaces(n) + "}") == "}"
  {
    CleanIndented(n, "}");
    if n == 0 {
      assert Spaces(n) + "}" == "}";
    }
  }

  lemma {:induction false} CleanBuildLines(es: seq<Entry>)
    requires WellFormed(es)
    ensures CleanAll(BuildLines(es)) == CleanBuilds(es)
    decreases |es|
  {
    if es != [] {
      CleanAllAppend(BuildBlock(es[0]), BuildLines(es[1..]));
      CleanBlockLines(es[0]);
      CleanBuildLines(es[1..]);
    }
  }

  lemma CleanBlockLines(e: Entry)
    requires IsBlockName(e.name) && forall p :: p in e.projects ==> IsProjectLine(p)
    ensures CleanAll(BuildBlock(e)) == CleanBlock(e)
  {
    HeaderClean(e.name);
    CloseClean(2);
    assert Spaces(2) + "}" == "  }";
    CleanFramed("  build " + e.name + " {", Indented(e.projects, 4), "  }", "build " + e.name + " {", "}");
    CleanItems(e.projects);
  }

  lemma HeaderClean(name: string)
    requires IsBlockName(name)
    ensures CleanLine("  build " + name + " {") == "build " + name + " {"
  {
    var header := "build " + name + " {";
    assert Spaces(2) + header == "  build " + name + " {";
    assert header[0] == 'b' && header[|header| - 1] == '{';
    assert '#' !in header by {
      forall i | 0 <= i < |header| ensures header[i] != '#' {
        if 6 <= i < 6 + |name| {
          assert header[i] == name[i - 6];
        }
      }
    }
    CleanIndented(2, header);
  }

  lemma CleanItems(ps: seq<string>)
    requires forall p :: p in ps ==> IsProjectLine(p)
    ensures CleanAll(Indented(ps, 4)) == ps
  {
    forall i | 0 <= i < |ps| ensures CleanLine(Indented(ps, 4)[i]) == ps[i] {
      assert ps[i] in ps;
      CleanIndented(4, ps[i]);
    }
  }

  // ---------------------------------------------------------------------------
  // dropping empty lines

  lemma {:induction false} DropEmptyAppend(a: seq<string>, b: seq<string>)
    ensures DropEmpty(a + b) == DropEmpty(a) + DropEmpty(b)
    decreases |b|
  {
    if b != [] {
      var init, last := b[..|b| - 1], b[|b| - 1];
      assert (a + b)[..|a + b| - 1] == a + init;
      DropEmptyAppend(a, init);
    } else {
      assert a + b == a;
    }
  }

  lemma {:induction false} DropEmptyKeeps(ls: seq<string>)
    requires forall i :: 0 <= i < |ls| ==> ls[i] != []
    ensures DropEmpty(ls) == ls
    decreases |ls|
  {
    if ls != [] {
      var init := ls[..|ls| - 1];
      DropEmptyKeeps(init);
      assert ls == init + [ls[|ls| - 1]];
    }
  }

  lemma {:induction false} CleanBuildsNonEmpty(es: seq<Entry>)
    requires WellFormed(es)
    ensures forall l :: l in CleanBuilds(es) ==> l != []
    decreases |es|
  {
    if es != [] {
      CleanBuildsNonEmpty(es[1..]);
      assert forall l :: l in CleanBlock(es[0]) ==> l != [];
    }
  }

  // ---------------------------------------------------------------------------
  // the header and the property loop

  /** parse_system_decl accepts `<keyword> {` whatever the keyword. */
  lemma DeclAccepted(kw: string, rest: seq<string>)
    requires IsWord(kw)
    ensures SystemDecl([kw + " {"] + rest) == Ok(rest)
  {
    var lines := [kw + " {"] + rest;
    assert kw + " {" == kw + " " + "{";
    TokensOfTwo(kw, "{");
    DeclOfTokens(lines, kw);
    assert lines[1..] == rest;
  }

  lemma DeclOfTokens(lines: seq<string>, kw: string)
    requires lines != [] && Tokens(lines[0]) == [kw, "{"]
    ensures SystemDecl(lines) == Ok(lines[1..])
  {
  }

  lemma {:induction false} PropertiesOfWritten(es: seq<Entry>)
    requires WellFormed(es)
    ensures Properties(CleanBuilds(es) + ["}"]) == Parse(es, Pass)
    decreases |es|
  {
    if es == [] {
      assert CleanBuilds(es) + ["}"] == ["}"];
      ClosingOnly("}");
    } else {
      var e, tail := es[0], es[1..];
      var rest := CleanBuilds(tail) + ["}"];
      var lines := CleanBuilds(es) + ["}"];
      assert lines == CleanBlock(e) + rest by {
        AppendAssoc3(CleanBlock(e), CleanBuilds(tail), ["}"]);
      }
      WellFormedCons(es);
      BuildStep(lines, e, rest);
      PropertiesOfWritten(tail);
      ConsStep(es, lines, rest);
    }
  }

  lemma WellFormedCons(es: seq<Entry>)
    requires es != [] && WellFormed(es)
    ensures IsBlockName(es[0].name) && "}" !in es[0].projects && WellFormed(es[1..])
  {
    assert es[0] in es;
  }

  /** The loop over a build's block and the lines after it stores that build first. */
  lemma ConsStep(es: seq<Entry>, lines: seq<string>, rest: seq<string>)
    requires es != [] && lines != [] && PropertyStep(lines) == Next(es[0], rest)
    requires Properties(rest) == Parse(es[1..], Pass)
    ensures Properties(lines) == Parse(es, Pass)
  {
    StepNext(lines, es[0], rest);
    ConsOfTail(es);
  }

  lemma ConsOfTail<T>(s: seq<T>)
    requires s != []
    ensures [s[0]] + s[1..] == s
  {
  }

  /** A step that stores a build is followed by the loop on the lines it left. */
  lemma StepNext(lines: seq<string>, e: Entry, rest: seq<string>)
    requires lines != [] && PropertyStep(lines) == Next(e, rest)
    ensures Properties(lines) == Parse([e] + Properties(rest).stored, Properties(rest).outcome)
  {
    PropertiesUnfold(lines);
  }

  lemma AppendAssoc3<T>(a: seq<T>, b: seq<T>, c: seq<T>)
    ensures a + b + c == a + (b + c)
  {
  }

  /** A lone closing line ends the loop successfully. */
  lemma ClosingOnly(close: string)
    requires close == "}"
    ensures Properties([close]) == Parse([], Pass)
  {
    assert PropertyStep([close]) == Stop(Pass) by {
      TokensOfWord(close);
    }
    PropertiesUnfold([close]);
  }

  /** A clean build block at the front of the lines is one step of the loop. */
  lemma BuildStep(lines: seq<string>, e: Entry, rest: seq<string>)
    requires IsBlockName(e.name) && "}" !in e.projects
    requires lines == CleanBlock(e) + rest
    ensures PropertyStep(lines) == Next(e, rest)
  {
    assert "build " + e.name + " {" == "build" + " " + e.name + " {";
    BlockAtFront(lines, "build", e, rest);
    StepOfBlock(lines, e, rest);
  }

  lemma BlockAtFront(lines: seq<string>, kw: string, e: Entry, rest: seq<string>)
    requires IsWord(kw) && IsBlockName(e.name) && "}" !in e.projects
    requires lines == [kw + " " + e.name + " {"] + e.projects + ["}"] + rest
    ensures ParseNamedBlock(lines) == Ok(Block(e.name, e.projects, rest))
    ensures FirstToken(lines[0]) == kw
  {
    ReadWrittenBlock(kw, e.name, e.projects, rest);
    HeaderTokens(kw, e.name);
  }

  lemma StepOfBlock(lines: seq<string>, e: Entry, rest: seq<string>)
    requires lines != [] && FirstToken(lines[0]) == "build"
    requires ParseNamedBlock(lines) == Ok(Block(e.name, e.projects, rest))
    ensures PropertyStep(lines) == Next(e, rest)
  {
  }
}
