/** The command registry and the argument handling the `easy` and `init` commands do before
    any work: the help check, then the defaulting and validation of the type and name. */
module Commands {
  import opened Wrappers
  import opened Text
  import opened CmdLine
  import ProjectTypes
  import Projects

  // ---------------------------------------------------------------------------
  // commands and the registry

  /** A command: its name, stored lower-cased, and a one-line description. */
  datatype Command = Command(name: string, desc: string)

  /** Command#initialize. */
  function NewCommand(name: string, desc: string): (c: Command)
    ensures IsLower(c.name) && |c.name| == |name| && c.desc == desc
  {
    Command(Lower(name), desc)
  }

  lemma {:induction false} LowerIdempotent(s: string)
    ensures Lower(Lower(s)) == Lower(s)
  {
    assert forall i :: 0 <= i < |s| ==> LowerChar(LowerChar(s[i])) == LowerChar(s[i]);
  }

  /** The names two strings give their commands agree exactly when they agree ignoring case;
      a command's own name is its lower-cased name. */
  lemma NameIgnoresCase(a: string, b: string, desc: string)
    ensures NewCommand(a, desc).name == NewCommand(b, desc).name <==> Lower(a) == Lower(b)
    ensures Lower(NewCommand(a, desc).name) == NewCommand(a, desc).name
  {
    LowerIdempotent(a);
  }

  function NamesOf(es: seq<Command>): (r: seq<string>)
    ensures |r| == |es| && forall i :: 0 <= i < |es| ==> r[i] == es[i].name
  {
    if es == [] then [] else [es[0].name] + NamesOf(es[1..])
  }

  predicate DistinctNames(es: seq<Command>) {
    forall i, j :: 0 <= i < j < |es| ==> es[i].name != es[j].name
  }

  /** The position of the first command named name. */
  function FirstIndex(es: seq<Command>, name: string): (k: nat)
    requires name in NamesOf(es)
    ensures k < |es| && es[k].name == name && forall j :: 0 <= j < k ==> es[j].name != name
  {
    if es[0].name == name then 0
    else
      assert NamesOf(es) == [es[0].name] + NamesOf(es[1..]);
      1 + FirstIndex(es[1..], name)
  }

  /** Hash#[]= keyed by the command's name: an existing entry is replaced where it stands,
      a new name goes last. */
  function Put(es: seq<Command>, c: Command): (r: seq<Command>)
    ensures c in r
    ensures c.name in NamesOf(es) ==> |r| == |es|
    ensures c.name !in NamesOf(es) ==> r == es + [c]
  {
    if es == [] then [c]
    else if es[0].name == c.name then [c] + es[1..]
    else [es[0]] + Put(es[1..], c)
  }

  /** A name already present is replaced at its first position; the other entries stay
      where they are. */
  lemma {:induction false} PutReplaces(es: seq<Command>, c: Command)
    requires c.name in NamesOf(es)
    ensures Put(es, c) == es[FirstIndex(es, c.name) := c]
    decreases |es|
  {
    if es[0].name == c.name {
      assert [c] + es[1..] == es[0 := c];
    } else {
      assert NamesOf(es) == [es[0].name] + NamesOf(es[1..]);
      PutReplaces(es[1..], c);
      var k := FirstIndex(es[1..], c.name);
      assert FirstIndex(es, c.name) == k + 1;
      var r := Put(es, c);
      assert r == [es[0]] + es[1..][k := c];
      forall i | 0 <= i < |r| ensures r[i] == es[k + 1 := c][i] {
        if i > 0 { assert r[i] == es[1..][k := c][i - 1]; }
      }
    }
  }

  /** Hash#[]: the command stored under key. */
  function Find(es: seq<Command>, key: string): (r: Option<Command>)
    ensures r.None? <==> key !in NamesOf(es)
    ensures r.Some? ==> r.value in es && r.value.name == key
  {
    if es == [] then None
    else if es[0].name == key then Some(es[0])
    else Find(es[1..], key)
  }

  /** After a put, the command stored under its name is the one put, and every other name
      finds what it found before. */
  lemma {:induction false} FindPut(es: seq<Command>, c: Command, key: string)
    ensures Find(Put(es, c), key) == if key == c.name then Some(c) else Find(es, key)
    decreases |es|
  {
    if es != [] && es[0].name != c.name {
      FindPut(es[1..], c, key);
      assert Put(es, c)[1..] == Put(es[1..], c);
    }
  }

  /** A put keeps the names distinct, and the names are the old ones plus c's. */
  lemma {:induction false} PutDistinct(es: seq<Command>, c: Command)
    requires DistinctNames(es)
    ensures DistinctNames(Put(es, c))
    ensures forall n :: n in NamesOf(Put(es, c)) <==> n in NamesOf(es) || n == c.name
    decreases |es|
  {
    if es != [] {
      PutDistinct(es[1..], c);
      var r := Put(es, c);
      if es[0].name == c.name {
        forall i, j | 0 <= i < j < |r| ensures r[i].name != r[j].name {
          if i == 0 {
            assert r[j] == es[j];
          } else {
            assert r[i] == es[i] && r[j] == es[j];
          }
        }
      } else {
        assert r[1..] == Put(es[1..], c);
        forall j | 1 <= j < |r| ensures r[j].name != es[0].name {
          assert r[j] == Put(es[1..], c)[j - 1];
          var n := r[j].name;
          assert n in NamesOf(Put(es[1..], c));
          if n in NamesOf(es[1..]) {
            var k :| 0 <= k < |es[1..]| && NamesOf(es[1..])[k] == n;
            assert es[k + 1].name == n;
          }
        }
        forall n ensures n in NamesOf(r) <==> n in NamesOf(es) || n == c.name {
          assert NamesOf(r) == [es[0].name] + NamesOf(Put(es[1..], c));
          assert NamesOf(es) == [es[0].name] + NamesOf(es[1..]);
        }
      }
    }
  }

  // sorting by name

  /** Ordered by name, ties allowed. */
  predicate SortedByName(s: seq<Command>) {
    forall i, j :: 0 <= i < j < |s| ==> !LexLess(s[j].name, s[i].name)
  }

  lemma NotLessTransitive(a: string, b: string, c: string)
    requires !LexLess(b, a) && !LexLess(c, b)
    ensures !LexLess(c, a)
  {
    if LexLess(c, a) && b != c {
      LexLessTotal(b, c);
      LexLessTransitive(b, c, a);
    }
  }

  lemma LessAsymmetric(a: string, b: string)
    requires LexLess(a, b)
    ensures !LexLess(b, a)
  {
    if LexLess(b, a) {
      LexLessTransitive(a, b, a);
      LexLessIrreflexive(a);
    }
  }

  /** Inserts c before the first command not ordered before it. */
  function InsertByName(c: Command, s: seq<Command>): (r: seq<Command>)
    ensures multiset(r) == multiset(s) + multiset{c}
  {
    if s == [] then [c]
    else if !LexLess(s[0].name, c.name) then [c] + s
    else
      assert s == [s[0]] + s[1..];
      [s[0]] + InsertByName(c, s[1..])
  }

  /** Inserting into a sorted list keeps it sorted. */
  lemma {:induction false} InsertSorted(c: Command, s: seq<Command>)
    requires SortedByName(s)
    ensures SortedByName(InsertByName(c, s))
    decreases |s|
  {
    var r := InsertByName(c, s);
    if s == [] {
    } else if !LexLess(s[0].name, c.name) {
      forall j | 1 <= j < |r| ensures !LexLess(r[j].name, c.name) {
        if j > 1 {
          assert r[j] == s[j - 1];
          NotLessTransitive(c.name, s[0].name, r[j].name);
        }
      }
      forall i, j | 1 <= i < j < |r| ensures !LexLess(r[j].name, r[i].name) {
        assert r[i] == s[i - 1] && r[j] == s[j - 1];
      }
    } else {
      var rest := InsertByName(c, s[1..]);
      InsertSorted(c, s[1..]);
      LessAsymmetric(s[0].name, c.name);
      assert r == [s[0]] + rest;
      forall j | 1 <= j < |r| ensures !LexLess(r[j].name, s[0].name) {
        assert r[j] == rest[j - 1];
        assert r[j] in multiset(rest);
        if r[j] != c {
          assert r[j] in multiset(s[1..]);
          var k :| 0 <= k < |s[1..]| && s[1..][k] == r[j];
          assert s[k + 1] == r[j];
        }
      }
    }
  }

  /** Array#sort! by name. */
  function SortByName(es: seq<Command>): (r: seq<Command>)
  {
    if es == [] then [] else InsertByName(es[0], SortByName(es[1..]))
  }

  /** The sorted list holds exactly the registered commands, ordered by name. */
  lemma {:induction false} SortByNameCorrect(es: seq<Command>)
    ensures multiset(SortByName(es)) == multiset(es)
    ensures SortedByName(SortByName(es))
    decreases |es|
  {
    if es != [] {
      var sorted := SortByName(es[1..]);
      SortByNameCorrect(es[1..]);
      InsertSorted(es[0], sorted);
      assert SortByName(es) == InsertByName(es[0], sorted);
      assert es == [es[0]] + es[1..];
    }
  }

  /** The registry of commands, one per name, in the order first inserted. */
  class Registry {
    var entries: seq<Command>

    ghost predicate Valid()
      reads this
    {
      DistinctNames(entries)
    }

    constructor()
      ensures Valid() && entries == []
    {
      entries := [];
    }

    /** CommandRegistry.insert. */
    method Insert(c: Command)
      requires Valid()
      modifies this
      ensures Valid()
      ensures entries == Put(old(entries), c)
    {
      PutDistinct(entries, c);
      entries := Put(entries, c);
    }

    /** CommandRegistry.lookup: the command under the lower-cased name. */
    function Lookup(name: string): (r: Option<Command>)
      reads this
      ensures r.Some? ==> r.value in entries && r.value.name == Lower(name)
      ensures r.None? <==> forall c :: c in entries ==> c.name != Lower(name)
    {
      Find(entries, Lower(name))
    }

    /** CommandRegistry.has?: whether the lower-cased name is registered. */
    function Has(name: string): (r: bool)
      reads this
      ensures r <==> Lookup(name).Some?
    {
      Lower(name) in NamesOf(entries)
    }

    /** CommandRegistry.commands: every registered command, sorted by name. */
    function Commands(): (r: seq<Command>)
      reads this
      ensures multiset(r) == multiset(entries) && SortedByName(r)
    {
      SortByNameCorrect(entries);
      SortByName(entries)
    }
  }

  /** A command inserted under any spelling is looked up under any other spelling of its
      name, and inserting leaves the other names' lookups alone. */
  lemma LookupAfterInsert(es: seq<Command>, name: string, desc: string, query: string)
    ensures var c := NewCommand(name, desc);
      Find(Put(es, c), Lower(query)) == if Lower(query) == Lower(name) then Some(c) else Find(es, Lower(query))
  {
    FindPut(es, NewCommand(name, desc), Lower(query));
  }

  // ---------------------------------------------------------------------------
  // the help check every run starts with

  /** The outcome of a command's run up to the point where it starts its work. */
  datatype Run<T> = Usage | Go(plan: T) | Raise(msg: string)

  /** The table after cmdline.option("h,help"). */
  const HelpTable: Table := Table(map["h" := 0, "help" := 0], ["h"], [0], [false], [], None)

  lemma HelpTableValid()
    ensures TableValid(HelpTable)
  {
  }

  /** cmdline.option("h,help") on a fresh table gives HelpTable. */
  lemma HelpRegistered()
    ensures Register(Empty, "h,help", 0) == Ok(HelpTable)
  {
    assert "h,help" == ['h'] + "," + "help";
    assert IsLongName("help");
    PairOnEmpty('h', "help");
  }

  /** "c,long" on a fresh table registers both names at index 0, listed under c. */
  lemma PairOnEmpty(c: char, long: string)
    requires IsAlnum(c) && IsLongName(long) && '\n' !in long
    ensures Register(Empty, [c] + "," + long, 0)
            == Ok(Table(map[[c] := 0, long := 0], [[c]], [0], [false], [], None))
  {
    var key := [c] + "," + long;
    assert '\n' !in key by {
      assert forall i :: 2 <= i < |key| ==> key[i] == long[i - 2];
    }
    assert key[1] == ',' && key[2..] == long && key[..1] == [c];
    assert !IsLongName(key) by {
      assert !(IsWordChar(key[1]) || key[1] == '-');
    }
    WholeKeyShape(key);
    assert KeyShape(key) == Pair([c], long);
    var names := [[c], long];
    assert Names(KeyShape(key)) == names;
    assert FirstKnown(Empty.indexMap, names) == None;
    var m := map name | name in names :: 0;
    assert m == map[[c] := 0, long := 0];
    assert Empty.indexMap + m == m;
    assert Added(Empty, names, 0) == Table(m, [[c]], [0], [false], [], None);
  }

  /** cmdline.parse(args) on the table holding only the help option. */
  function HelpParse(args: seq<string>): (p: Parsed)
    ensures TableValid(p.table) && p.table.paramIndexMap.None?
    ensures p.table.indexMap == HelpTable.indexMap && p.table.keys == HelpTable.keys
    ensures p.outcome.Pass? ==> p.table.params == NonOptions(args)
    ensures p.table.given[0] ==> exists a :: a in args && NamesIndex(HelpTable, a, 0)
  {
    HelpTableValid();
    var p := ParseArgs(HelpTable, args);
    if p.outcome.Pass? then
      ParseParams(HelpTable, args);
      assert HelpTable.params + NonOptions(args) == NonOptions(args);
      p
    else p
  }

  /** The common start of every run, as written: parse with the help option, then ask
      has? 'help'. A parse error is raised first. */
  function HelpGateAsWritten(args: seq<string>): (r: Run<seq<string>>)
    ensures HelpParse(args).outcome.Fail? ==> r == Raise(HelpParse(args).outcome.msg)
  {
    var p := HelpParse(args);
    if p.outcome.Fail? then Raise(p.outcome.msg)
    else match HasAsWritten(p.table, "help")
      case Err(m) => Raise(m)
      case Ok(b) => if b then Usage else Go(p.table.params)
  }

  /** As written, no run ever gets past the help check: it raises on every argument list,
      and once the parse succeeds it raises from has? on the unassigned map. */
  lemma GateAsWrittenAlwaysRaises(args: seq<string>)
    ensures HelpGateAsWritten(args).Raise?
    ensures HelpParse(args).outcome.Pass? ==> HelpGateAsWritten(args) == Raise(NilReceiver("has_key?"))
    ensures (forall a :: a in args ==> !StartsWith(a, "-")) ==> HelpGateAsWritten(args) == Raise(NilReceiver("has_key?"))
  {
    HelpTableValid();
    if forall a :: a in args ==> !StartsWith(a, "-") {
      ParsePlainArgs(HelpTable, args);
    }
  }

  /** The common start of every run with has? as intended: a parse error is raised, a given
      help option (named by -h, --help, --h or a group holding h) shows the usage, and
      otherwise the run goes on with the arguments that are not options. */
  function HelpGate(args: seq<string>): (r: Run<seq<string>>)
    ensures r.Raise? <==> HelpParse(args).outcome.Fail?
    ensures r.Raise? ==> r.msg == HelpParse(args).outcome.msg
    ensures r.Usage? ==> exists a :: a in args && NamesIndex(HelpTable, a, 0)
    ensures r.Go? ==> r.plan == NonOptions(args)
  {
    var p := HelpParse(args);
    if p.outcome.Fail? then Raise(p.outcome.msg)
    else if Given(p.table, "help") then Usage
    else Go(p.table.params)
  }

  /** With has? as intended, -h or --help shows the usage, and arguments that are not
      options pass through as the parameters. */
  lemma HelpGateCorrect(args: seq<string>)
    ensures ("--help" in args || "-h" in args) && ParseArgs(HelpTable, args).outcome.Pass?
            ==> HelpGate(args) == Usage
    ensures (forall a :: a in args ==> !StartsWith(a, "-")) ==> HelpGate(args) == Go(args)
  {
    HelpTableValid();
    if ("--help" in args || "-h" in args) && ParseArgs(HelpTable, args).outcome.Pass? {
      HelpShowsUsage(args);
    }
    if forall a :: a in args ==> !StartsWith(a, "-") {
      PlainArgsGo(args);
    }
  }

  /** After a completed scan holding -h or --help, the help option is given. */
  lemma HelpShowsUsage(args: seq<string>)
    requires TableValid(HelpTable)
    requires ("--help" in args || "-h" in args) && ParseArgs(HelpTable, args).outcome.Pass?
    ensures HelpGate(args) == Usage
  {
    var p := ParseArgs(HelpTable, args);
    ParseMarks(HelpTable, args);
    if "--help" in args {
      var a := "--help";
      assert StartsWith(a, "--") && a[2..] == "help";
    } else {
      var a := "-h";
      assert StartsWith(a, "-") && !StartsWith(a, "--") && [a[1]] == "h";
    }
    assert p.table.given[0];
    assert HelpParse(args) == p;
  }

  /** Arguments that are not options pass the help check unchanged. */
  lemma PlainArgsGo(args: seq<string>)
    requires TableValid(HelpTable)
    requires forall a :: a in args ==> !StartsWith(a, "-")
    ensures HelpGate(args) == Go(args)
  {
    ParsePlainArgs(HelpTable, args);
    assert HelpTable.params + args == args;
    assert HelpParse(args) == ParseArgs(HelpTable, args);
  }

  // ---------------------------------------------------------------------------
  // easy

  /** What `easy` goes on to build: the type, the project name and the output file. */
  datatype EasyPlan = EasyPlan(projectType: string, name: string, outfile: string)

  const EasyTypeError: string := "Invalid [app|lib|dll] value. See 'bake help easy'."

  /** EasyCommand#run from the parameters: the type defaults to app and the name to the
      type; an invalid type raises before anything is built. */
  function EasyParams(params: seq<string>): (r: Result<EasyPlan>)
    ensures r.Ok? <==> ProjectTypes.Valid(if |params| >= 1 then params[0] else ProjectTypes.APP)
    ensures r.Err? ==> r.msg == EasyTypeError
  {
    var t := if |params| >= 1 then params[0] else ProjectTypes.APP;
    var name := if |params| >= 2 then params[1] else t;
    if !ProjectTypes.Valid(t) then Err(EasyTypeError)
    else Ok(EasyPlan(t, name, name + ProjectTypes.FilenameSuffix(t).value))
  }

  /** The defaults: no parameters builds an application named app; one parameter names the
      type and the project after it; a second parameter names the project. */
  lemma EasyDefaults(params: seq<string>)
    ensures params == [] ==> EasyParams(params) == Ok(EasyPlan("app", "app", "app"))
    ensures |params| == 1 && ProjectTypes.Valid(params[0])
            ==> EasyParams(params).value.projectType == params[0] && EasyParams(params).value.name == params[0]
    ensures |params| >= 2 && ProjectTypes.Valid(params[0])
            ==> EasyParams(params).value.projectType == params[0] && EasyParams(params).value.name == params[1]
  {
    assert ProjectTypes.FilenameSuffix(ProjectTypes.APP) == Ok("");
    assert ProjectTypes.APP + "" == "app";
  }

  /** The output name easy reports is the outfile of the project it then builds. */
  lemma EasyOutfile(params: seq<string>, p: Projects.Project)
    requires EasyParams(params).Ok?
    requires p.name == Some(EasyParams(params).value.name)
    requires p.projectType == Some(EasyParams(params).value.projectType)
    ensures p.Outfile() == Ok(EasyParams(params).value.outfile)
  {
  }

  /** EasyCommand#run up to the build, with has? as intended: the help check, then the
      defaulting of the non-option arguments. */
  function EasyRun(args: seq<string>): (r: Run<EasyPlan>)
    ensures HelpGate(args).Usage? ==> r == Usage
    ensures HelpGate(args).Raise? ==> r == Raise(HelpGate(args).msg)
    ensures r.Go? ==> EasyParams(NonOptions(args)) == Ok(r.plan)
    ensures HelpGate(args).Go? && EasyParams(NonOptions(args)).Err? ==> r == Raise(EasyTypeError)
  {
    match HelpGate(args)
    case Usage => Usage
    case Raise(m) => Raise(m)
    case Go(params) =>
      match EasyParams(params)
      case Ok(plan) => Go(plan)
      case Err(m) => Raise(m)
  }

  /** `bake easy lib foo` builds foo.a; a run with an invalid type raises before building. */
  lemma EasyRunPlain(args: seq<string>)
    requires forall a :: a in args ==> !StartsWith(a, "-")
    ensures EasyParams(args).Ok? ==> EasyRun(args) == Go(EasyParams(args).value)
    ensures EasyParams(args).Err? ==> EasyRun(args) == Raise(EasyTypeError)
  {
    HelpGateCorrect(args);
  }

  // ---------------------------------------------------------------------------
  // init

  /** What `init` goes on to write: a project with this name and type. */
  datatype InitPlan = InitPlan(name: string, projectType: string)

  const DefaultName: string := "my_project"

  function InvalidName(name: string): string {
    "Invalid name '" + name + "'"
  }

  function InvalidType(t: string): string {
    "Invalid type '" + t + "'"
  }

  /** The name test as written: Ruby's ^ and $ anchor at line boundaries, so /^\w+$/ matches
      when some line of the name is all word characters. */
  predicate SomeLineIsWord(name: string) {
    exists l :: l in SplitOn(name, '\n') && IsWordString(l)
  }

  /** The name init uses: the first parameter, or my_project. */
  function InitName(params: seq<string>): string {
    if params == [] then DefaultName else params[0]
  }

  /** The type init uses: the second parameter, or app. */
  function InitType(params: seq<string>): string {
    if |params| < 2 then ProjectTypes.APP else params[1]
  }

  /** InitCommand#run from the parameters, as written: accepted exactly when some line of
      the name is all word characters and the type is valid; the name is checked first. */
  function InitParamsAsWritten(params: seq<string>): (r: Result<InitPlan>)
    ensures r.Ok? <==> SomeLineIsWord(InitName(params)) && ProjectTypes.Valid(InitType(params))
    ensures r.Ok? ==> r.value == InitPlan(InitName(params), InitType(params))
    ensures !SomeLineIsWord(InitName(params)) ==> r == Err(InvalidName(InitName(params)))
  {
    var name := if params == [] then DefaultName else params[0];
    var rest := if params == [] then [] else params[1..];
    var t := if rest == [] then ProjectTypes.APP else rest[0];
    if !SomeLineIsWord(name) then Err(InvalidName(name))
    else if !ProjectTypes.Valid(t) then Err(InvalidType(t))
    else Ok(InitPlan(name, t))
  }

  /** As written, a name of several lines passes when one line is a word: "a\n../x" is
      accepted as a project name. */
  lemma InitNameAsWritten(c: char, rest: string)
    requires IsWordChar(c)
    ensures InitParamsAsWritten([[c] + "\n" + rest]).Ok?
    ensures !IsWordString([c] + "\n" + rest)
  {
    var name := [c] + "\n" + rest;
    SplitPiece([c], '\n', rest);
    assert name == [c] + ['\n'] + rest;
    assert [c] in SplitOn(name, '\n');
    assert name[1] == '\n';
  }

  /** InitCommand#run from the parameters, as evidently intended: the whole name is word
      characters. The name defaults to my_project and the type to app; the name is checked
      before the type. */
  function InitParams(params: seq<string>): (r: Result<InitPlan>)
    ensures r.Ok? ==> IsWordString(r.value.name) && ProjectTypes.Valid(r.value.projectType)
    ensures r.Ok? <==> IsWordString(InitName(params)) && ProjectTypes.Valid(InitType(params))
  {
    var name := if params == [] then DefaultName else params[0];
    var rest := if params == [] then [] else params[1..];
    var t := if rest == [] then ProjectTypes.APP else rest[0];
    if !IsWordString(name) then Err(InvalidName(name))
    else if !ProjectTypes.Valid(t) then Err(InvalidType(t))
    else Ok(InitPlan(name, t))
  }

  /** The defaults and the order of the checks. */
  lemma InitDefaults(params: seq<string>)
    ensures params == [] ==> InitParams(params) == Ok(InitPlan("my_project", "app"))
    ensures |params| == 1 && IsWordString(params[0]) ==> InitParams(params) == Ok(InitPlan(params[0], "app"))
    ensures params != [] && !IsWordString(params[0]) ==> InitParams(params) == Err(InvalidName(params[0]))
    ensures |params| >= 2 && IsWordString(params[0]) && !ProjectTypes.Valid(params[1])
            ==> InitParams(params) == Err(InvalidType(params[1]))
    ensures |params| >= 2 && IsWordString(params[0]) && ProjectTypes.Valid(params[1])
            ==> InitParams(params) == Ok(InitPlan(params[0], params[1]))
  {
    assert IsWordString(DefaultName) by {
      assert forall i :: 0 <= i < |DefaultName| ==> IsWordChar(DefaultName[i]);
    }
  }

  /** On one-line names the two tests agree. */
  lemma InitOneLine(params: seq<string>)
    requires params != [] ==> '\n' !in params[0]
    ensures InitParamsAsWritten(params) == InitParams(params)
  {
    var name := if params == [] then DefaultName else params[0];
    assert '\n' !in name;
    SplitWhole(name, '\n');
    assert SplitOn(name, '\n') == [name];
  }

  /** The project init writes is one to_s accepts: its name and type are non-empty. */
  lemma InitProjectSerializes(params: seq<string>, files: seq<string>)
    requires InitParams(params).Ok? && files != []
    ensures var plan := InitParams(params).value;
      Projects.Serialize(Some(plan.name), Some(plan.projectType), Some(files), None, None, None, None).Ok?
  {
  }

  /** InitCommand#run up to writing the file, with has? as intended: the help check, then
      the defaulting and checks of the non-option arguments. */
  function InitRun(args: seq<string>): (r: Run<InitPlan>)
    ensures HelpGate(args).Usage? ==> r == Usage
    ensures HelpGate(args).Raise? ==> r == Raise(HelpGate(args).msg)
    ensures r.Go? ==> InitParams(NonOptions(args)) == Ok(r.plan)
    ensures HelpGate(args).Go? && InitParams(NonOptions(args)).Err?
            ==> r == Raise(InitParams(NonOptions(args)).msg)
  {
    match HelpGate(args)
    case Usage => Usage
    case Raise(m) => Raise(m)
    case Go(params) =>
      match InitParams(params)
      case Ok(plan) => Go(plan)
      case Err(m) => Raise(m)
  }

  /** `bake init` alone plans my_project as an application. */
  lemma InitRunDefault()
    ensures InitRun([]) == Go(InitPlan("my_project", "app"))
  {
    HelpGateCorrect([]);
    InitDefaults([]);
  }
}
