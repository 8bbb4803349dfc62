/** Project: the settings of one application or library, and its canonical text form. */
module Projects {
  import opened Wrappers
  import opened Text
  import ProjectTypes

  /** The comment block Project#to_s writes above the type line. The two long lines are
      written as joins of short literals, which keeps the proof that they hold no newline
      cheap. */
  const TypeComment0: string :=
    "  # The project type " + "determines what " + "kind of file will be " + "created, as well as"
  const TypeComment1: string :=
    "  # its name. Given " + "a project named 'foo', " + "we can build one " + "of three file types:"
  const TypeComment2: string := "  # 1) An application named foo"
  const TypeComment3: string := "  # 2) A static library named foo.a"
  const TypeComment4: string := "  # 3) A shared library named foo.so"
  const TypeComments: seq<string> := [TypeComment0, TypeComment1, TypeComment2, TypeComment3, TypeComment4]

  /** The comments written above the five list sections. */
  const FilesComment: string := "All files in this project that should be compiled"
  const DepsComment: string := "All the other projects that this project depends on"
  const LibsComment: string := "A list of third-party libraries used by this project"
  const IncPathsComment: string := "Paths to search for included files"
  const LibPathsComment: string := "Paths to search for third-party library files"

  /** One list section of the text: a comment, the "title {" line, one line per element
      indented by four spaces (none for a nil list), and the closing brace. */
  function SectionLines(comment: string, title: string, xs: Option<seq<string>>): seq<string>
  {
    ["  # " + comment, "  " + title + " {"] + Indented(xs.GetOr([]), 4) + ["  }"]
  }

  /** The opening lines: the header, the type comments, the type line and a blank line. */
  function HeadLines(name: string, t: string): seq<string>
  {
    ["project " + name + " {"] + TypeComments + ["  type = " + t, ""]
  }

  /** The lines of the canonical project text, without their newlines. */
  function ProjectLines(name: string, t: string, files: Option<seq<string>>, deps: Option<seq<string>>,
                        libs: Option<seq<string>>, incPaths: Option<seq<string>>,
                        libPaths: Option<seq<string>>): seq<string>
  {
    HeadLines(name, t) + BodyLines(files, deps, libs, incPaths, libPaths) + ["}"]
  }

  /** The five list sections in their fixed order, with a blank line between two sections. */
  function BodyLines(files: Option<seq<string>>, deps: Option<seq<string>>, libs: Option<seq<string>>,
                     incPaths: Option<seq<string>>, libPaths: Option<seq<string>>): seq<string>
  {
    SectionLines(FilesComment, "files", files) + [""]
    + SectionLines(DepsComment, "deps", deps) + [""]
    + SectionLines(LibsComment, "libs", libs) + [""]
    + SectionLines(IncPathsComment, "include-paths", incPaths) + [""]
    + SectionLines(LibPathsComment, "lib-paths", libPaths)
  }

  /** Project#to_s as a function of the fields: the three required-field checks, in the
      source's order, then the canonical text. */
  function Serialize(name: Option<string>, t: Option<string>, files: Option<seq<string>>,
                     deps: Option<seq<string>>, libs: Option<seq<string>>,
                     incPaths: Option<seq<string>>, libPaths: Option<seq<string>>): (r: Result<string>)
    ensures r.Ok? <==> name.Some? && name.value != [] && t.Some? && t.value != []
                       && files.Some? && files.value != []
    ensures (name.None? || name.value == []) ==> r == Err("Missing project name")
    ensures name.Some? && name.value != [] && (t.None? || t.value == []) ==> r == Err("Missing project type")
    ensures name.Some? && name.value != [] && t.Some? && t.value != [] && (files.None? || files.value == [])
            ==> r == Err("Missing project files")
  {
    if name.None? || name.value == [] then Err("Missing project name")
    else if t.None? || t.value == [] then Err("Missing project type")
    else if files.None? || files.value == [] then Err("Missing project files")
    else Ok(Unlines(ProjectLines(name.value, t.value, files, deps, libs, incPaths, libPaths)))
  }

  /** One list section: its comment line, its opening line, the items and the closing brace. */
  method EmitSection(str: string, ghost done: seq<string>, comment: string, title: string,
                     xs: Option<seq<string>>) returns (s: string, ghost d: seq<string>)
    requires str == Unlines(done)
    ensures d == done + SectionLines(comment, title, xs) && s == Unlines(d)
  {
    ghost var items := Indented(xs.GetOr([]), 4);
    s, d := Emit(str, done, "  # " + comment);
    s, d := Emit(s, d, "  " + title + " {");
    ghost var d2 := d;
    if xs.Some? {
      s, d := EmitItems(s, d, xs.value);
    } else {
      assert items == [];
    }
    assert d == d2 + items;
    s, d := Emit(s, d, "  }");
    SnocAround(done, "  # " + comment, "  " + title + " {", items, "  }");
  }

  lemma SnocAround<T>(x: seq<T>, a: T, b: T, m: seq<T>, c: T)
    ensures x + [a] + [b] + m + [c] == x + ([a, b] + m + [c])
  {
  }

  /** The header line, the type comments, the type line and the blank line after it. */
  method EmitHead(str: string, ghost done: seq<string>, name: string, t: string)
    returns (s: string, ghost d: seq<string>)
    requires str == Unlines(done)
    ensures d == done + HeadLines(name, t) && s == Unlines(d)
  {
    s, d := Emit(str, done, "project " + name + " {");
    ghost var d1 := d;
    s, d := Emit(s, d, TypeComment0);
    s, d := Emit(s, d, TypeComment1);
    s, d := Emit(s, d, TypeComment2);
    s, d := Emit(s, d, TypeComment3);
    s, d := Emit(s, d, TypeComment4);
    SnocFive(d1, TypeComment0, TypeComment1, TypeComment2, TypeComment3, TypeComment4);
    ghost var d2 := d;
    s, d := Emit(s, d, "  type = " + t);
    s, d := Emit(s, d, "");
    SnocTwo(d2, "  type = " + t, "");
    AppendAssoc(done, ["project " + name + " {"], TypeComments, ["  type = " + t, ""]);
  }

  /** Lines appended section by section after x are x followed by the body. */
  lemma BodyAssoc(x: seq<string>, files: Option<seq<string>>, deps: Option<seq<string>>,
                  libs: Option<seq<string>>, incPaths: Option<seq<string>>, libPaths: Option<seq<string>>)
    ensures x + SectionLines(FilesComment, "files", files) + [""]
            + SectionLines(DepsComment, "deps", deps) + [""]
            + SectionLines(LibsComment, "libs", libs) + [""]
            + SectionLines(IncPathsComment, "include-paths", incPaths) + [""]
            + SectionLines(LibPathsComment, "lib-paths", libPaths)
            == x + BodyLines(files, deps, libs, incPaths, libPaths)
  {
    AssocNine(x, SectionLines(FilesComment, "files", files), [""],
              SectionLines(DepsComment, "deps", deps), [""],
              SectionLines(LibsComment, "libs", libs), [""],
              SectionLines(IncPathsComment, "include-paths", incPaths), [""],
              SectionLines(LibPathsComment, "lib-paths", libPaths));
  }

  lemma AssocNine<T>(x: seq<T>, a: seq<T>, b: seq<T>, c: seq<T>, d: seq<T>, e: seq<T>,
                     f: seq<T>, g: seq<T>, h: seq<T>, i: seq<T>)
    ensures x + a + b + c + d + e + f + g + h + i == x + (a + b + c + d + e + f + g + h + i)
  {
  }

  lemma SnocFive<T>(x: seq<T>, a: T, b: T, c: T, e: T, f: T)
    ensures x + [a] + [b] + [c] + [e] + [f] == x + [a, b, c, e, f]
  {
  }

  lemma SnocTwo<T>(x: seq<T>, a: T, b: T)
    ensures x + [a] + [b] == x + [a, b]
  {
  }

  class Project {
    var name: Option<string>
    var projectType: Option<string>
    var files: Option<seq<string>>
    var deps: Option<seq<string>>
    var libs: Option<seq<string>>
    var incPaths: Option<seq<string>>
    var libPaths: Option<seq<string>>

    /** Project.new: the class has no initializer, so every attribute starts as nil. */
    constructor ()
      ensures name.None? && projectType.None? && files.None? && deps.None?
      ensures libs.None? && incPaths.None? && libPaths.None?
    {
      name, projectType, files, deps := None, None, None, None;
      libs, incPaths, libPaths := None, None, None;
    }

    /** Project#outfile: name + ProjectType.filename_suffix(type). The suffix is computed
        before `+` is sent to name, so a bad type raises first; a nil type raises a TypeError
        when its message is built; a nil name then raises NoMethodError. */
    function Outfile(): (r: Result<string>)
      reads this
      ensures r.Ok? <==> name.Some? && projectType.Some? && ProjectTypes.Valid(projectType.value)
      ensures projectType.None? ==> r == Err(NilConversion)
      ensures projectType.Some? && !ProjectTypes.Valid(projectType.value)
              ==> r == Err("Invalid ProjectType: " + projectType.value)
      ensures r.Ok? ==> r.value == name.value + ProjectTypes.FilenameSuffix(projectType.value).value
    {
      if projectType.None? then Err(NilConversion)
      else
        match ProjectTypes.FilenameSuffix(projectType.value)
        case Err(m) => Err(m)
        case Ok(suffix) => if name.None? then Err(NilReceiver("+")) else Ok(name.value + suffix)
    }

    /** Project#from_s is a stub that always raises. */
    method FromS() returns (r: Outcome)
      ensures r == Fail("Project::from_s() not implemented!")
    {
      r := Fail("Project::from_s() not implemented!");
    }

    /** Project#to_s: checks the required fields, then appends the text line by line. */
    method ToS() returns (r: Result<string>)
      ensures r == Serialize(name, projectType, files, deps, libs, incPaths, libPaths)
    {
      if name.None? || name.value == [] { return Err("Missing project name"); }
      if projectType.None? || projectType.value == [] { return Err("Missing project type"); }
      if files.None? || files.value == [] { return Err("Missing project files"); }

      var str := "";
      ghost var done: seq<string> := [];
      str, done := EmitHead(str, done, name.value, projectType.value);
      assert done == HeadLines(name.value, projectType.value);
      str, done := EmitSection(str, done, FilesComment, "files", files);
      str, done := Emit(str, done, "");
      str, done := EmitSection(str, done, DepsComment, "deps", deps);
      str, done := Emit(str, done, "");
      str, done := EmitSection(str, done, LibsComment, "libs", libs);
      str, done := Emit(str, done, "");
      str, done := EmitSection(str, done, IncPathsComment, "include-paths", incPaths);
      str, done := Emit(str, done, "");
      str, done := EmitSection(str, done, LibPathsComment, "lib-paths", libPaths);
      BodyAssoc(HeadLines(name.value, projectType.value), files, deps, libs, incPaths, libPaths);
      str, done := Emit(str, done, "}");
      assert done == ProjectLines(name.value, projectType.value, files, deps, libs, incPaths, libPaths);
      r := Ok(str);
    }
  }

  /** No element of an optional list holds a newline. */
  predicate NoNewlines(xs: Option<seq<string>>)
  {
    xs.Some? ==> forall x :: x in xs.value ==> '\n' !in x
  }

  /** The canonical text splits at its newlines into exactly the lines of ProjectLines
      (and the empty rest after the final newline), provided no field holds a newline:
      each line of the text is one entry written by Project#to_s. */
  lemma {:induction false} SerializedLines(name: string, t: string, files: seq<string>,
                                           deps: Option<seq<string>>, libs: Option<seq<string>>,
                                           incPaths: Option<seq<string>>, libPaths: Option<seq<string>>)
    requires name != [] && t != [] && files != []
    requires '\n' !in name && '\n' !in t
    requires NoNewlines(Some(files)) && NoNewlines(deps) && NoNewlines(libs)
    requires NoNewlines(incPaths) && NoNewlines(libPaths)
    ensures var r := Serialize(Some(name), Some(t), Some(files), deps, libs, incPaths, libPaths);
      r.Ok? && SplitOn(r.value, '\n')
               == ProjectLines(name, t, Some(files), deps, libs, incPaths, libPaths) + [[]]
  {
    var ls := ProjectLines(name, t, Some(files), deps, libs, incPaths, libPaths);
    ProjectLinesFree(name, t, Some(files), deps, libs, incPaths, libPaths);
    SplitOfUnlines(ls);
  }

  lemma ProjectLinesFree(name: string, t: string, files: Option<seq<string>>,
                         deps: Option<seq<string>>, libs: Option<seq<string>>,
                         incPaths: Option<seq<string>>, libPaths: Option<seq<string>>)
    requires '\n' !in name && '\n' !in t
    requires NoNewlines(files) && NoNewlines(deps) && NoNewlines(libs)
    requires NoNewlines(incPaths) && NoNewlines(libPaths)
    ensures LinesFree(ProjectLines(name, t, files, deps, libs, incPaths, libPaths))
  {
    SectionCommentsNoNewline();
    SectionNoNewline(FilesComment, "files", files);
    SectionNoNewline(DepsComment, "deps", deps);
    SectionNoNewline(LibsComment, "libs", libs);
    SectionNoNewline(IncPathsComment, "include-paths", incPaths);
    SectionNoNewline(LibPathsComment, "lib-paths", libPaths);
    HeadNoNewline(name, t);
    var acc := HeadLines(name, t);
    acc := FreeAppend(acc, SectionLines(FilesComment, "files", files));
    acc := FreeAppend(acc, [""]);
    acc := FreeAppend(acc, SectionLines(DepsComment, "deps", deps));
    acc := FreeAppend(acc, [""]);
    acc := FreeAppend(acc, SectionLines(LibsComment, "libs", libs));
    acc := FreeAppend(acc, [""]);
    acc := FreeAppend(acc, SectionLines(IncPathsComment, "include-paths", incPaths));
    acc := FreeAppend(acc, [""]);
    acc := FreeAppend(acc, SectionLines(LibPathsComment, "lib-paths", libPaths));
    BodyAssoc(HeadLines(name, t), files, deps, libs, incPaths, libPaths);
    acc := FreeAppend(acc, ["}"]);
  }

  /** No line of ls holds a newline. */
  predicate LinesFree(ls: seq<string>)
  {
    forall l :: l in ls ==> '\n' !in l
  }

  lemma FreeAppend(a: seq<string>, b: seq<string>) returns (c: seq<string>)
    requires LinesFree(a) && LinesFree(b)
    ensures c == a + b && LinesFree(c)
  {
    c := a + b;
  }

  lemma HeadNoNewline(name: string, t: string)
    requires '\n' !in name && '\n' !in t
    ensures LinesFree(HeadLines(name, t))
  {
    TypeCommentsNoNewline();
    assert '\n' !in "project " + name + " {";
    assert '\n' !in "  type = " + t;
    assert HeadLines(name, t) == ["project " + name + " {"] + TypeComments + ["  type = " + t, ""];
  }

  lemma TypeCommentsNoNewline()
    ensures forall l :: l in TypeComments ==> '\n' !in l
  {
    Comment0NoNewline();
    Comment1NoNewline();
    Comment2NoNewline();
    Comment3NoNewline();
    Comment4NoNewline();
  }

  lemma Comment0NoNewline()
    ensures '\n' !in TypeComment0
  {
    NoNewlineJoin4("  # The project type ", "determines what ", "kind of file will be ", "created, as well as");
  }

  lemma Comment1NoNewline()
    ensures '\n' !in TypeComment1
  {
    NoNewlineJoin4("  # its name. Given ", "a project named 'foo', ", "we can build one ", "of three file types:");
  }

  lemma Comment2NoNewline()
    ensures '\n' !in TypeComment2
  {
  }

  lemma Comment3NoNewline()
    ensures '\n' !in TypeComment3
  {
  }

  lemma Comment4NoNewline()
    ensures '\n' !in TypeComment4
  {
  }

  lemma SectionCommentsNoNewline()
    ensures '\n' !in FilesComment && '\n' !in DepsComment && '\n' !in LibsComment
    ensures '\n' !in IncPathsComment && '\n' !in LibPathsComment
  {
    FilesCommentNoNewline();
    DepsCommentNoNewline();
    LibsCommentNoNewline();
    IncPathsCommentNoNewline();
    LibPathsCommentNoNewline();
  }

  lemma FilesCommentNoNewline()
    ensures '\n' !in FilesComment
  {
    NoNewlineJoin("All files in this project ", "that should be compiled");
  }

  lemma DepsCommentNoNewline()
    ensures '\n' !in DepsComment
  {
    NoNewlineJoin("All the other projects ", "that this project depends on");
  }

  lemma LibsCommentNoNewline()
    ensures '\n' !in LibsComment
  {
    NoNewlineJoin("A list of third-party libraries ", "used by this project");
  }

  lemma IncPathsCommentNoNewline()
    ensures '\n' !in IncPathsComment
  {
    NoNewlineJoin("Paths to search ", "for included files");
  }

  lemma LibPathsCommentNoNewline()
    ensures '\n' !in LibPathsComment
  {
    NoNewlineJoin("Paths to search ", "for third-party library files");
  }

  lemma SectionNoNewline(comment: string, title: string, xs: Option<seq<string>>)
    requires '\n' !in comment && '\n' !in title && NoNewlines(xs)
    ensures LinesFree(SectionLines(comment, title, xs))
  {
    FourSpaces();
    var ys := xs.GetOr([]);
    forall l | l in Indented(ys, 4) ensures '\n' !in l {
      var i :| 0 <= i < |ys| && Indented(ys, 4)[i] == l;
      assert ys[i] in ys;
    }
  }

  /** The head of the text: the text begins with "project <name> {", the five type
      comments and "  type = <type>", each on its own line, then a blank line; it ends
      with a lone "}" line. */
  lemma SerializedFrame(name: string, t: string, files: seq<string>,
                        deps: Option<seq<string>>, libs: Option<seq<string>>,
                        incPaths: Option<seq<string>>, libPaths: Option<seq<string>>)
    requires name != [] && t != [] && files != []
    ensures var r := Serialize(Some(name), Some(t), Some(files), deps, libs, incPaths, libPaths);
      && r.Ok?
      && StartsWith(r.value, "project " + name + " {\n" + Unlines(TypeComments) + "  type = " + t + "\n\n")
      && |r.value| >= 2 && r.value[|r.value| - 2..] == "}\n"
  {
    var ls := ProjectLines(name, t, Some(files), deps, libs, incPaths, libPaths);
    var head := HeadLines(name, t);
    var mid := BodyLines(Some(files), deps, libs, incPaths, libPaths);
    SerializedText(name, t, files, deps, libs, incPaths, libPaths);
    FramedText(head, mid, "}");
    HeadText(name, t);
  }

  lemma SerializedText(name: string, t: string, files: seq<string>,
                       deps: Option<seq<string>>, libs: Option<seq<string>>,
                       incPaths: Option<seq<string>>, libPaths: Option<seq<string>>)
    requires name != [] && t != [] && files != []
    ensures Serialize(Some(name), Some(t), Some(files), deps, libs, incPaths, libPaths)
            == Ok(Unlines(ProjectLines(name, t, Some(files), deps, libs, incPaths, libPaths)))
  {
  }

  /** The text of some lines, more lines and a last line begins with the text of the first
      ones and ends with the last line and its newline. */
  lemma FramedText(head: seq<string>, mid: seq<string>, last: string)
    ensures var x := Unlines(head + mid + [last]);
      && StartsWith(x, Unlines(head))
      && |x| >= |last| + 1 && x[|x| - |last| - 1..] == last + "\n"
  {
    var a, m, e := Unlines(head), Unlines(mid), last + "\n";
    UnlinesSnoc(head + mid, last);
    UnlinesAppend(head, mid);
    assert Unlines(head + mid + [last]) == a + m + e;
    ConcatFrame(a, m, e);
  }

  lemma ConcatFrame(a: string, m: string, e: string)
    ensures StartsWith(a + m + e, a)
    ensures (a + m + e)[|a + m + e| - |e|..] == e
  {
    assert (a + m + e)[..|a|] == a;
  }

  lemma HeadText(name: string, t: string)
    ensures Unlines(HeadLines(name, t))
            == "project " + name + " {\n" + Unlines(TypeComments) + "  type = " + t + "\n\n"
  {
    UnlinesAround("project " + name + " {", TypeComments, "  type = " + t);
  }

  /** The text of a first line, some middle lines, a last line and a blank line. */
  lemma UnlinesAround(first: string, mid: seq<string>, last: string)
    ensures Unlines([first] + mid + [last, ""]) == first + "\n" + Unlines(mid) + last + "\n\n"
  {
    UnlinesAppend([first], mid);
    UnlinesAppend([first] + mid, [last, ""]);
    UnlinesSnoc([], first);
    UnlinesSnoc([last], "");
    UnlinesSnoc([], last);
    assert [] + [first] == [first];
    assert [last] + [""] == [last, ""];
  }

  /** Project#to_s checks only that the type is non-empty: an unknown type is written out. */
  lemma SerializeAcceptsUnknownType()
    ensures Serialize(Some("demo"), Some("bogus"), Some(["a.cpp"]), None, None, None, None).Ok?
    ensures !ProjectTypes.Valid("bogus")
  {
  }
}
