/** System: a set of builds, each a named list of project names, with the line-oriented
    parser and the writer of its text form. */
module Systems {
  import opened Wrappers
  import opened Text
  import opened Blocks

  /** The comment line System#to_s writes first, as a join of short literals, which keeps
      the proof that it holds no newline cheap. */
  const SystemComment: string := "# A system is " + "comprised of builds, " + "each of which " + "contain projects"

  /** One entry of the builds hash: the key (the build's name) and the build's projects. */
  datatype Entry = Entry(name: string, projects: seq<string>)

  function Names(es: seq<Entry>): (r: seq<string>)
    ensures |r| == |es| && forall i :: 0 <= i < |es| ==> r[i] == es[i].name
  {
    seq(|es|, i requires 0 <= i < |es| => es[i].name)
  }

  predicate Distinct(ns: seq<string>)
  {
    forall i, j :: 0 <= i < j < |ns| ==> ns[i] != ns[j]
  }

  // ---------------------------------------------------------------------------
  // the insertion-ordered hash

  /** `@builds[e.name] = e` on a Ruby Hash: a new key goes last; an existing key keeps its
      place and gets the new value. */
  function Upsert(es: seq<Entry>, e: Entry): seq<Entry>
  {
    match IndexOf(Names(es), e.name)
    case None => es + [e]
    case Some(k) => es[k := e]
  }

  /** Storing keeps the keys distinct, adds the key last when it is new and otherwise keeps
      the key order; the stored entry is found under its key and every other entry is kept. */
  lemma UpsertKeys(es: seq<Entry>, e: Entry)
    requires Distinct(Names(es))
    ensures Distinct(Names(Upsert(es, e)))
    ensures e.name !in Names(es) ==> Names(Upsert(es, e)) == Names(es) + [e.name]
    ensures e.name in Names(es) ==> Names(Upsert(es, e)) == Names(es)
    ensures e in Upsert(es, e)
    ensures forall x :: x in es && x.name != e.name ==> x in Upsert(es, e)
    ensures forall x :: x in Upsert(es, e) ==> x == e || (x in es && x.name != e.name)
  {
    var r := Upsert(es, e);
    match IndexOf(Names(es), e.name)
    case None =>
      assert Names(r) == Names(es) + [e.name];
    case Some(k) =>
      assert Names(r) == Names(es);
      assert r[k] == e;
      forall x | x in es && x.name != e.name ensures x in r {
        var i :| 0 <= i < |es| && es[i] == x;
        assert r[i] == x;
      }
      forall x | x in r ensures x == e || (x in es && x.name != e.name) {
        var i :| 0 <= i < |r| && r[i] == x;
        if i != k {
          assert es[i] == x;
          assert Names(es)[i] != Names(es)[k];
        }
      }
  }

  /** Storing several entries one after the other. */
  function UpsertAll(es: seq<Entry>, news: seq<Entry>): seq<Entry>
    decreases |news|
  {
    if news == [] then es else UpsertAll(Upsert(es, news[0]), news[1..])
  }

  lemma {:induction false} UpsertAllSnoc(es: seq<Entry>, news: seq<Entry>, e: Entry)
    ensures UpsertAll(es, news + [e]) == Upsert(UpsertAll(es, news), e)
    decreases |news|
  {
    if news == [] {
      assert news + [e] == [e];
      assert [e][1..] == [];
    } else {
      assert (news + [e])[1..] == news[1..] + [e];
      UpsertAllSnoc(Upsert(es, news[0]), news[1..], e);
    }
  }

  /** Into an empty hash, entries with distinct names are stored as given, in order. */
  lemma {:induction false} UpsertAllFresh(acc: seq<Entry>, news: seq<Entry>)
    requires Distinct(Names(acc + news))
    ensures UpsertAll(acc, news) == acc + news
    decreases |news|
  {
    if news != [] {
      var e := news[0];
      assert Names(acc + news)[|acc|] == e.name;
      assert e.name !in Names(acc) by {
        forall i | 0 <= i < |acc| ensures Names(acc)[i] != e.name {
          assert Names(acc + news)[i] == Names(acc)[i];
        }
      }
      assert Upsert(acc, e) == acc + [e];
      assert acc + [e] + news[1..] == acc + news;
      UpsertAllFresh(acc + [e], news[1..]);
    }
  }

  // ---------------------------------------------------------------------------
  // line normalisation

  function CleanAll(ls: seq<string>): (r: seq<string>)
    ensures |r| == |ls| && forall i :: 0 <= i < |ls| ==> r[i] == CleanLine(ls[i])
  {
    seq(|ls|, i requires 0 <= i < |ls| => CleanLine(ls[i]))
  }

  /** lines.delete_if { |line| line.empty? }: the non-empty lines, in their order. */
  function DropEmpty(ls: seq<string>): (r: seq<string>)
    ensures forall l :: l in r <==> l in ls && l != []
  {
    if ls == [] then []
    else
      var init, last := ls[..|ls| - 1], ls[|ls| - 1];
      assert ls == init + [last];
      DropEmpty(init) + (if last == [] then [] else [last])
  }

  /** The lines from_s works on: the stripped text split at newlines, each line cleaned of
      indentation, comment and trailing blanks, empty lines dropped. */
  function Normalized(text: string): (r: seq<string>)
    ensures forall l :: l in r ==> l != [] && NoSpaceAtEnds(l) && '#' !in l
    ensures forall l :: l in r <==> l != [] && l in CleanAll(SplitLines(Strip(text)))
  {
    DropEmpty(CleanAll(SplitLines(Strip(text))))
  }

  /** The first half of System#from_s: strip the text, split it into lines, clean each line
      in place, then delete the empty ones. */
  method NormalizeLines(text: string) returns (lines: seq<string>)
    ensures lines == Normalized(text)
  {
    var str := Strip(text);
    lines := SplitLines(str);
    lines := CleanEach(lines);
    lines := DeleteEmpty(lines);
  }

  /** `lines.each { |line| line.lstrip!; line.sub!(/#.*$/, ''); line.rstrip! }`. */
  method CleanEach(raw: seq<string>) returns (lines: seq<string>)
    ensures lines == CleanAll(raw)
  {
    lines := raw;
    var i := 0;
    while i < |lines|
      invariant 0 <= i <= |lines| == |raw|
      invariant forall k :: 0 <= k < i ==> lines[k] == CleanLine(raw[k])
      invariant forall k :: i <= k < |lines| ==> lines[k] == raw[k]
    {
      lines := lines[i := CleanLine(lines[i])];
      i := i + 1;
    }
  }

  /** `lines.delete_if { |line| line.empty? }`. */
  method DeleteEmpty(lines: seq<string>) returns (kept: seq<string>)
    ensures kept == DropEmpty(lines)
  {
    kept := [];
    var j := 0;
    while j < |lines|
      invariant 0 <= j <= |lines|
      invariant kept == DropEmpty(lines[..j])
    {
      assert lines[..j + 1][..j] == lines[..j];
      if lines[j] != [] {
        kept := kept + [lines[j]];
      }
      j := j + 1;
    }
    assert lines[..j] == lines;
  }

  // ---------------------------------------------------------------------------
  // the declaration header

  /** The header shapes parse_system_decl lets through, stated on the header's tokens and
      the lines after it: a lone token with "{" on the next line; a second token "{",
      optionally with a third token "}"; a second token "{}"; or no token at all. */
  predicate DeclShape(t: seq<string>, after: seq<string>)
  {
    || |t| == 0
    || (|t| == 1 && after != [] && after[0] == "{")
    || (|t| == 2 && (t[1] == "{" || t[1] == "{}"))
    || (|t| == 3 && t[1] == "{" && t[2] == "}")
  }

  /** The checks parse_system_decl makes on the header's tokens t, with the lines after
      the header: the lines left once the header (and a lone "{" line) is consumed. */
  function DeclCheck(t: seq<string>, rest: seq<string>, header: string): (r: Result<seq<string>>)
    ensures r.Ok? <==> DeclShape(t, rest)
    ensures r.Ok? ==> r.value == rest || (rest != [] && rest[0] == "{" && r.value == rest[1..])
  {
    if |t| == 1 then
      if rest == [] || rest[0] != "{" then Err("Expected '{' after system declaration")
      else Ok(rest[1..])
    else if |t| == 2 && t[1] == "{}" then Ok(rest)
    else if |t| > 1 && t[1] != "{" then Err("Expected '{' after system declaration")
    else if |t| == 3 && t[2] != "}" then Err("Expected '}' after opening '{' in system declaration")
    else if |t| > 3 then Err("Invalid system declaration '" + header + "'")
    else Ok(rest)
  }

  /** System#parse_system_decl: shifts the header line (and a "{" line after a lone token)
      off the list and checks its shape. */
  function SystemDecl(lines: seq<string>): (r: Result<seq<string>>)
    ensures r.Ok? <==> lines != [] && DeclShape(Tokens(lines[0]), lines[1..])
    ensures r.Ok? ==> r.value == lines[1..] || (|lines| >= 2 && lines[1] == "{" && r.value == lines[2..])
  {
    if lines == [] then Err(NilReceiver("split"))
    else
      var r := DeclCheck(Tokens(lines[0]), lines[1..], lines[0]);
      assert r.Ok? && r.value != lines[1..] ==> r.value == lines[2..];
      r
  }

  // ---------------------------------------------------------------------------
  // the property loop

  /** What a run of the parser produced: the builds stored, in the order stored, and how
      the run ended. Builds stored before an error stay stored. */
  datatype Parse = Parse(stored: seq<Entry>, outcome: Outcome)

  /** The message for lines left after the closing brace. */
  const TrailingTokens: string := "Unexpected tokens after final '}' in project definition"

  function PropertyError(property: string, msg: string): string
  {
    "Error parsing property '" + property + "': " + msg
  }

  /** What one pass of the loop body does with the first remaining line: store a build and
      go on with the lines after its block, or stop with an outcome. */
  datatype Step = Next(entry: Entry, rest: seq<string>) | Stop(outcome: Outcome)

  /** One pass of the loop body of System#from_s, dispatched on the first token. */
  function PropertyStep(lines: seq<string>): (r: Step)
    requires lines != []
    ensures r.Next? ==> |r.rest| < |lines| && r.rest == lines[|lines| - |r.rest|..]
    ensures r.Next? ==> IsBlockName(r.entry.name) && "}" !in r.entry.projects
    ensures r.Stop? && r.outcome.Pass? ==> |lines| == 1 && FirstToken(lines[0]) == "}"
    ensures r.Next? ==> FirstToken(lines[0]) == "build"
    ensures FirstToken(lines[0]) == "}" && |lines| > 1 ==> r == Stop(Fail(TrailingTokens))
    ensures FirstToken(lines[0]) != "}" && FirstToken(lines[0]) != "build"
            ==> r == Stop(Fail(PropertyError(FirstToken(lines[0]), "Unknown system property")))
    ensures FirstToken(lines[0]) == "build" && ParseNamedBlock(lines).Err?
            ==> r == Stop(Fail(PropertyError("build", ParseNamedBlock(lines).msg)))
  {
    var property := FirstToken(lines[0]);
    if property == "}" then
      Stop(if |lines| > 1 then Fail(TrailingTokens) else Pass)
    else if property == "build" then
      match ParseNamedBlock(lines)
      case Err(m) => Stop(Fail(PropertyError(property, m)))
      case Ok(b) => Next(Entry(b.name, b.content), b.rest)
    else Stop(Fail(PropertyError(property, "Unknown system property")))
  }

  /** The while loop of System#from_s over the lines after the header. */
  function Properties(lines: seq<string>): (r: Parse)
    ensures r.outcome.Pass? ==> lines != [] && FirstToken(lines[|lines| - 1]) == "}"
    ensures forall e :: e in r.stored ==> IsBlockName(e.name) && "}" !in e.projects
    ensures lines == [] ==> r == Parse([], Fail("Unexpected end of project declaration"))
    ensures lines != [] && FirstToken(lines[0]) != "build" ==> r.stored == []
    ensures lines != [] && FirstToken(lines[0]) == "}" ==> (r.outcome.Pass? <==> |lines| == 1)
    ensures lines != [] && FirstToken(lines[0]) != "}" && FirstToken(lines[0]) != "build"
            ==> r.outcome == Fail(PropertyError(FirstToken(lines[0]), "Unknown system property"))
    decreases |lines|
  {
    if lines == [] then Parse([], Fail("Unexpected end of project declaration"))
    else
      match PropertyStep(lines)
      case Stop(o) => Parse([], o)
      case Next(e, rest) =>
        var p := Properties(rest);
        assert p.outcome.Pass? ==> rest[|rest| - 1] == lines[|lines| - 1];
        Parse([e] + p.stored, p.outcome)
  }

  /** The loop runs one step, then goes on with the lines the step left. */
  lemma PropertiesUnfold(lines: seq<string>)
    requires lines != []
    ensures var s := PropertyStep(lines);
      Properties(lines) == if s.Stop? then Parse([], s.outcome)
                           else Parse([s.entry] + Properties(s.rest).stored, Properties(s.rest).outcome)
  {
  }

  /** System#from_s as a function of the text. */
  function ParseSystem(text: string): (r: Parse)
    ensures forall e :: e in r.stored ==> IsBlockName(e.name) && "}" !in e.projects
    ensures Normalized(text) == [] ==> r == Parse([], Fail("System definition empty"))
    ensures r.outcome.Pass? ==> Normalized(text) != [] && SystemDecl(Normalized(text)).Ok?
                                && SystemDecl(Normalized(text)).value != []
  {
    var lines := Normalized(text);
    if lines == [] then Parse([], Fail("System definition empty"))
    else
      match SystemDecl(lines)
      case Err(m) => Parse([], Fail(m))
      case Ok(rest) =>
        if rest == [] then Parse([], Fail("Unexpected end of system declaration")) else Properties(rest)
  }

  /** A text is accepted only when its last significant line opens with the closing brace. */
  lemma AcceptedEndsWithBrace(text: string)
    ensures ParseSystem(text).outcome.Pass? ==>
      var ls := Normalized(text); ls != [] && FirstToken(ls[|ls| - 1]) == "}"
  {
    var lines := Normalized(text);
    if lines != [] && SystemDecl(lines).Ok? {
      var rest := SystemDecl(lines).value;
      if rest != [] {
        assert rest[|rest| - 1] == lines[|lines| - 1];
      }
    }
  }

  /** After an accepted header, a first property other than `build` or the closing brace
      stops the parse with the unknown-property error and stores nothing. */
  lemma UnknownPropertyFails(text: string)
    requires Normalized(text) != [] && SystemDecl(Normalized(text)).Ok?
    requires var rest := SystemDecl(Normalized(text)).value;
      rest != [] && FirstToken(rest[0]) != "}" && FirstToken(rest[0]) != "build"
    ensures var p := FirstToken(SystemDecl(Normalized(text)).value[0]);
      ParseSystem(text) == Parse([], Fail(PropertyError(p, "Unknown system property")))
  {
  }

  /** After an accepted header, a closing brace followed by more lines stops the parse with
      the trailing-tokens error; a closing brace alone ends it successfully. */
  lemma BraceMustBeLast(text: string)
    requires Normalized(text) != [] && SystemDecl(Normalized(text)).Ok?
    requires var rest := SystemDecl(Normalized(text)).value; rest != [] && FirstToken(rest[0]) == "}"
    ensures var rest := SystemDecl(Normalized(text)).value;
      ParseSystem(text) == Parse([], if |rest| == 1 then Pass else Fail(TrailingTokens))
  {
  }

  /** A `build` whose block the reader rejects stops the parse with the reader's message
      behind the property prefix. */
  lemma BlockErrorWrapped(lines: seq<string>)
    requires lines != [] && FirstToken(lines[0]) == "build" && ParseNamedBlock(lines).Err?
    ensures Properties(lines) == Parse([], Fail(PropertyError("build", ParseNamedBlock(lines).msg)))
  {
  }

  // ---------------------------------------------------------------------------
  // the text form

  /** The lines System#to_s writes for one build. */
  function BuildBlock(e: Entry): seq<string>
  {
    ["  build " + e.name + " {"] + Indented(e.projects, 4) + ["  }"]
  }

  function BuildLines(es: seq<Entry>): seq<string>
  {
    if es == [] then [] else BuildBlock(es[0]) + BuildLines(es[1..])
  }

  lemma {:induction false} BuildLinesSnoc(es: seq<Entry>, e: Entry)
    ensures BuildLines(es + [e]) == BuildLines(es) + BuildBlock(e)
    decreases |es|
  {
    if es == [] {
      assert [e][1..] == [];
    } else {
      assert (es + [e])[1..] == es[1..] + [e];
      BuildLinesSnoc(es[1..], e);
    }
  }

  /** Appending the next build's block to the lines written so far. */
  lemma BuildLinesStep(done: seq<string>, es: seq<Entry>, i: nat, d: seq<string>, d2: seq<string>)
    requires i < |es| && d == done + BuildLines(es[..i]) && d2 == d + BuildBlock(es[i])
    ensures d2 == done + BuildLines(es[..i + 1])
  {
    assert es[..i + 1] == es[..i] + [es[i]];
    BuildLinesSnoc(es[..i], es[i]);
  }

  /** The lines of the system text, without their newlines. */
  function SystemLines(es: seq<Entry>): seq<string>
  {
    [SystemComment, "system {"] + BuildLines(es) + ["}"]
  }

  // ---------------------------------------------------------------------------
  // the objects

  /** Build: a name and the projects it contains. */
  class Build {
    var name: string
    var projects: seq<string>

    constructor (name: string := "")
      ensures this.name == name && projects == []
    {
      this.name := name;
      projects := [];
    }
  }

  /** System: the builds hash, kept as its keys in insertion order and a map from key to
      Build. */
  class System {
    var order: seq<string>
    var builds: map<string, Build>
    /** The hash's entries in order, each with its build's current projects. */
    ghost var Contents: seq<Entry>

    ghost predicate Valid()
      reads this, builds.Values
    {
      && (forall k :: k in builds <==> k in order)
      && Distinct(order)
      && |Contents| == |order|
      && (forall i :: 0 <= i < |order| ==>
            order[i] in builds && builds[order[i]].name == order[i]
            && Contents[i] == Entry(order[i], builds[order[i]].projects))
    }

    /** System.new with no file: no builds. */
    constructor ()
      ensures Valid() && Contents == [] && fresh(this)
    {
      order, builds := [], map[];
      Contents := [];
    }

    /** `@builds[build.name] = build`. */
    method Store(b: Build)
      requires Valid() && b !in builds.Values
      modifies this
      ensures Valid()
      ensures Contents == Upsert(old(Contents), Entry(b.name, b.projects))
    {
      ghost var e := Entry(b.name, b.projects);
      assert Names(Contents) == order;
      if b.name in builds {
        var k := IndexOf(order, b.name).value;
        Contents := Contents[k := e];
      } else {
        Contents := Contents + [e];
        order := order + [b.name];
      }
      builds := builds[b.name := b];
    }

    /** System#from_s: parses the text and stores each build it reads, keeping the builds
        already held. */
    method FromS(text: string) returns (r: Outcome)
      requires Valid()
      modifies this
      ensures Valid()
      ensures r == ParseSystem(text).outcome
      ensures Contents == UpsertAll(old(Contents), ParseSystem(text).stored)
    {
      var lines := NormalizeLines(text);
      if lines == [] {
        return Fail("System definition empty");
      }
      var decl := SystemDecl(lines);
      if decl.Err? {
        return Fail(decl.msg);
      }
      lines := decl.value;
      if lines == [] {
        return Fail("Unexpected end of system declaration");
      }
      assert ParseSystem(text) == Properties(lines);
      r := ReadProperties(lines);
    }

    /** The while loop of System#from_s: reads properties off the front of the line list
        until the closing brace. */
    method ReadProperties(start: seq<string>) returns (r: Outcome)
      requires Valid() && start != []
      modifies this
      ensures Valid()
      ensures r == Properties(start).outcome
      ensures Contents == UpsertAll(old(Contents), Properties(start).stored)
    {
      var lines := start;
      while true
        invariant Valid() && lines != []
        invariant UpsertAll(Contents, Properties(lines).stored)
                  == UpsertAll(old(Contents), Properties(start).stored)
        invariant Properties(lines).outcome == Properties(start).outcome
        decreases |lines|
      {
        var step := ReadProperty(lines);
        PropertiesUnfold(lines);
        if step.Stop? {
          return step.outcome;
        }
        ghost var later := Properties(step.rest).stored;
        assert ([step.entry] + later)[1..] == later;
        lines := step.rest;
        if lines == [] {
          return Fail("Unexpected end of project declaration");
        }
      }
    }

    /** The loop body: the closing brace stops the loop, a `build` property reads a block
        and stores a new Build under its name, anything else is an unknown property. */
    method ReadProperty(lines: seq<string>) returns (step: Step)
      requires Valid() && lines != []
      modifies this
      ensures Valid() && step == PropertyStep(lines)
      ensures Contents == if step.Next? then Upsert(old(Contents), step.entry) else old(Contents)
    {
      var property := FirstToken(lines[0]);
      if property == "}" {
        if |lines| > 1 {
          return Stop(Fail(TrailingTokens));
        }
        return Stop(Pass);
      }
      if property != "build" {
        return Stop(Fail(PropertyError(property, "Unknown system property")));
      }
      var block := ReadBuild(lines);
      if block.Err? {
        return Stop(Fail(PropertyError(property, block.msg)));
      }
      step := Next(Entry(block.value.name, block.value.content), block.value.rest);
    }

    /** The `when 'build'` branch: a new Build, filled by the named-block reader, stored
        under its name. */
    method ReadBuild(lines: seq<string>) returns (r: Result<Block>)
      requires Valid()
      modifies this
      ensures Valid() && r == ParseNamedBlock(lines)
      ensures Contents == if r.Ok? then Upsert(old(Contents), Entry(r.value.name, r.value.content))
                          else old(Contents)
    {
      var build := new Build();
      r := ParseNamedBlock(lines);
      if r.Err? {
        return;
      }
      build.name := r.value.name;
      build.projects := build.projects + r.value.content;
      assert build.projects == r.value.content;
      Store(build);
    }

    /** System#to_s: the comment, the opening line, each build in insertion order with one
        line per project, and the closing brace. */
    method ToS() returns (s: string)
      requires Valid()
      ensures s == Unlines(SystemLines(Contents))
    {
      s := "";
      ghost var done: seq<string> := [];
      s, done := Emit(s, done, SystemComment);
      s, done := Emit(s, done, "system {");
      s, done := EmitBuilds(s, done);
      s, done := Emit(s, done, "}");
      assert done == SystemLines(Contents);
    }

    /** The `builds.each_value` loop of System#to_s. */
    method EmitBuilds(str: string, ghost done: seq<string>) returns (s: string, ghost d: seq<string>)
      requires Valid() && str == Unlines(done)
      ensures d == done + BuildLines(Contents) && s == Unlines(d)
    {
      s, d := str, done;
      var i := 0;
      while i < |order|
        invariant 0 <= i <= |order|
        invariant d == done + BuildLines(Contents[..i]) && s == Unlines(d)
      {
        var build := builds[order[i]];
        assert Contents[i] == Entry(build.name, build.projects);
        ghost var d0 := d;
        s, d := EmitBuild(s, d, build.name, build.projects);
        BuildLinesStep(done, Contents, i, d0, d);
        i := i + 1;
      }
      assert Contents[..i] == Contents;
    }
  }

  /** The lines of one build: its opening line, its projects, its closing brace. */
  method EmitBuild(str: string, ghost done: seq<string>, name: string, projects: seq<string>)
    returns (s: string, ghost d: seq<string>)
    requires str == Unlines(done)
    ensures d == done + BuildBlock(Entry(name, projects)) && s == Unlines(d)
  {
    s, d := Emit(str, done, "  build " + name + " {");
    s, d := EmitItems(s, d, projects);
    s, d := Emit(s, d, "  }");
    assert d == done + (["  build " + name + " {"] + Indented(projects, 4) + ["  }"]);
  }
}
