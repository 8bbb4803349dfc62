/** The command line Compiler#build hands to the shell: g++ followed by the project's files
    and an -o option naming the output file, one per line with shell continuations. */
module Compilation {
  import opened Wrappers
  import opened Text
  import opened Projects
  import ProjectTypes
  import Commands

  /** What separates the tokens: a backslash ending the line, then a four-space indent. */
  const Separator: string := " \\\n    "

  /** Message of the TypeError Ruby raises when asked to clone nil. */
  const NilClone: string := "can't clone NilClass"

  /** The tokens: the files in order, then the output option. */
  function CommandTokens(files: seq<string>, outfile: string): (r: seq<string>)
    ensures |r| == |files| + 1 && r[..|files|] == files && r[|files|] == "-o " + outfile
  {
    files + ["-o " + outfile]
  }

  function CommandString(files: seq<string>, outfile: string): (cmd: string)
    ensures StartsWith(cmd, "g++ ")
  {
    var cmd := "g++ " + JoinWith(CommandTokens(files, outfile), Separator);
    assert cmd[..4] == "g++ ";
    cmd
  }

  /** The lines of a command written one token per line: the first after prefix p, the
      others indented by four spaces, all but the last ending in a backslash. */
  function ContinuationLines(ts: seq<string>, p: string): (r: seq<string>)
    requires ts != []
    ensures |r| == |ts|
    decreases |ts|
  {
    if |ts| == 1 then [p + ts[0]]
    else [p + ts[0] + " \\"] + ContinuationLines(ts[1..], "    ")
  }

  lemma SeparatorParts()
    ensures Separator == " \\" + "\n" + "    "
  {
  }

  lemma Regroup<T>(p: seq<T>, t: seq<T>, a: seq<T>, b: seq<T>, c: seq<T>, j: seq<T>)
    ensures p + (t + (a + b + c) + j) == (p + t + a) + b + (c + j)
  {
  }

  /** Joining with the separator writes the continuation lines joined by newlines. */
  lemma {:induction false} JoinContinued(ts: seq<string>, p: string)
    requires ts != []
    ensures p + JoinWith(ts, Separator) == JoinWith(ContinuationLines(ts, p), "\n")
    decreases |ts|
  {
    if |ts| > 1 {
      var rest := JoinWith(ts[1..], Separator);
      JoinContinued(ts[1..], "    ");
      SeparatorParts();
      Regroup(p, ts[0], " \\", "\n", "    ", rest);
      var ls := ContinuationLines(ts, p);
      assert ls[1..] == ContinuationLines(ts[1..], "    ");
    }
  }

  lemma {:induction false} ContinuationFree(ts: seq<string>, p: string)
    requires ts != [] && '\n' !in p && forall t :: t in ts ==> '\n' !in t
    ensures forall l :: l in ContinuationLines(ts, p) ==> '\n' !in l
    decreases |ts|
  {
    assert ts[0] in ts;
    NoNewlineJoin(p, ts[0]);
    if |ts| > 1 {
      NoNewlineJoin(p + ts[0], " \\");
      assert forall t :: t in ts[1..] ==> t in ts;
      ContinuationFree(ts[1..], "    ");
    }
  }

  /** Split at newlines, the command is one line per token: "g++ " and the first file, then
      each further file and finally "-o <outfile>" on an indented line, each line but the
      last continued with a backslash. */
  lemma CommandLines(files: seq<string>, outfile: string)
    requires forall f :: f in files ==> '\n' !in f
    requires '\n' !in outfile
    ensures SplitOn(CommandString(files, outfile), '\n')
            == ContinuationLines(CommandTokens(files, outfile), "g++ ")
  {
    var ts := CommandTokens(files, outfile);
    NoNewlineJoin("-o ", outfile);
    assert forall t :: t in ts ==> t in files || t == "-o " + outfile;
    JoinContinued(ts, "g++ ");
    ContinuationFree(ts, "g++ ");
    SplitOfJoin(ContinuationLines(ts, "g++ "), '\n');
  }

  /** The first line holds g++ and the first file; the last holds the output option. */
  lemma {:induction false} FirstAndLastLines(ts: seq<string>, p: string)
    requires ts != []
    ensures var ls := ContinuationLines(ts, p);
      && ls[0] == (if |ts| == 1 then p + ts[0] else p + ts[0] + " \\")
      && ls[|ls| - 1] == (if |ts| == 1 then p else "    ") + ts[|ts| - 1]
    decreases |ts|
  {
    if |ts| > 1 {
      FirstAndLastLines(ts[1..], "    ");
    }
  }

  /** Compiler#build up to running the compiler: the project's name is printed first, then
      its files are cloned, then its outfile is computed; the first of these to raise stops
      the build before the output directory is made or the compiler runs. */
  function BuildCommand(p: Project): (r: Result<string>)
    reads p
    ensures p.name.None? ==> r == Err(NilConversion)
    ensures p.name.Some? && p.files.None? ==> r == Err(NilClone)
    ensures p.name.Some? && p.files.Some? && p.Outfile().Err? ==> r == Err(p.Outfile().msg)
    ensures r.Ok? <==> p.name.Some? && p.files.Some? && p.projectType.Some?
                       && ProjectTypes.Valid(p.projectType.value)
    ensures r.Ok? ==> r.value == CommandString(p.files.value, p.Outfile().value)
  {
    if p.name.None? then Err(NilConversion)
    else if p.files.None? then Err(NilClone)
    else
      match p.Outfile()
      case Err(m) => Err(m)
      case Ok(out) => Ok(CommandString(p.files.value, out))
  }

  /** An invalid project type stops the build with the type error, before any side effect. */
  lemma InvalidTypeStops(p: Project)
    requires p.name.Some? && p.files.Some? && p.projectType.Some?
    requires !ProjectTypes.Valid(p.projectType.value)
    ensures BuildCommand(p) == Err("Invalid ProjectType: " + p.projectType.value)
  {
  }

  /** The project `easy` builds compiles its files into the output file it announced. */
  lemma EasyBuildCommand(params: seq<string>, files: seq<string>, p: Project)
    requires Commands.EasyParams(params).Ok?
    requires p.name == Some(Commands.EasyParams(params).value.name)
    requires p.projectType == Some(Commands.EasyParams(params).value.projectType)
    requires p.files == Some(files)
    ensures BuildCommand(p) == Ok(CommandString(files, Commands.EasyParams(params).value.outfile))
  {
    Commands.EasyOutfile(params, p);
  }
}
