/** The command-line option table: options are declared by a spec string such as "h",
    "help" or "h,help", then the arguments are scanned, marking the options given and
    collecting the arguments that are not options. */
module CmdLine {
  import opened Wrappers
  import opened Text

  // ---------------------------------------------------------------------------
  // option specs

  /** A line matching ^[a-zA-Z0-9]$. */
  predicate IsShortName(s: string) {
    |s| == 1 && IsAlnum(s[0])
  }

  /** A line matching ^[a-zA-Z][\w\-]+$. */
  predicate IsLongName(s: string) {
    |s| >= 2 && IsLetter(s[0]) && forall i :: 1 <= i < |s| ==> IsWordChar(s[i]) || s[i] == '-'
  }

  /** A line matching ^([a-zA-Z0-9]),([a-zA-Z][\w\-]+)$. */
  predicate IsPairSpec(s: string) {
    |s| >= 4 && IsAlnum(s[0]) && s[1] == ',' && IsLongName(s[2..])
  }

  /** Which branch of CommandLine#option a key takes, with the names it registers. */
  datatype Shape = Short(key: string) | Long(key: string) | Pair(short: string, long: string) | Invalid

  /** The names a shape registers; the first is the one recorded as the option's key. */
  function Names(sh: Shape): (r: seq<string>)
    ensures sh.Invalid? <==> r == []
    ensures sh.Pair? ==> r == [sh.short, sh.long]
    ensures (sh.Short? || sh.Long?) ==> r == [sh.key]
  {
    match sh
    case Short(k) => [k]
    case Long(k) => [k]
    case Pair(s, l) => [s, l]
    case Invalid => []
  }

  /** The first line matching the pair spec. */
  function FirstPair(ls: seq<string>): (r: Option<string>)
    ensures r.None? <==> forall l :: l in ls ==> !IsPairSpec(l)
    ensures r.Some? ==> r.value in ls && IsPairSpec(r.value)
    ensures r.Some? ==> ls != [] && (r.value == ls[0] || !IsPairSpec(ls[0]))
  {
    if ls == [] then None
    else if IsPairSpec(ls[0]) then Some(ls[0])
    else match FirstPair(ls[1..]) case None => None case Some(l) => Some(l)
  }

  /** The three =~ tests of CommandLine#option in order. Ruby's ^ and $ anchor at line
      boundaries, so a pattern matches when some line of the key matches it as a whole; the
      first two shapes register the whole key, the pair shape registers its captures. */
  function KeyShape(key: string): (r: Shape)
    ensures r.Pair? ==> IsShortName(r.short) && IsLongName(r.long)
    ensures (r.Short? || r.Long?) ==> r.key == key
  {
    var ls := SplitOn(key, '\n');
    if exists l :: l in ls && IsShortName(l) then Short(key)
    else if exists l :: l in ls && IsLongName(l) then Long(key)
    else
      match FirstPair(ls)
      case Some(l) => Pair(l[..1], l[2..])
      case None => Invalid
  }

  /** On a key of one line the tests match the key as a whole. */
  lemma WholeKeyShape(key: string)
    requires '\n' !in key
    ensures KeyShape(key) == if IsShortName(key) then Short(key)
                            else if IsLongName(key) then Long(key)
                            else if IsPairSpec(key) then Pair(key[..1], key[2..])
                            else Invalid
  {
    SplitWhole(key, '\n');
    assert SplitOn(key, '\n') == [key];
  }

  /** A key whose first line is a single alphanumeric character is registered whole as a
      short option, whatever follows on later lines. */
  lemma MultiLineKey(c: char, rest: string)
    requires IsAlnum(c)
    ensures KeyShape([c] + "\n" + rest) == Short([c] + "\n" + rest)
  {
    SplitPiece([c], '\n', rest);
    assert [c] + "\n" + rest == [c] + ['\n'] + rest;
    assert [c] in SplitOn([c] + "\n" + rest, '\n');
  }

  // ---------------------------------------------------------------------------
  // the option table

  /** The state of a CommandLine: the index map, the parallel per-option arrays, the
      non-option arguments, and @param_index_map, which has? reads but nothing assigns
      (None while it is nil). */
  datatype Table = Table(indexMap: map<string, nat>, keys: seq<string>, nvals: seq<int>,
                         given: seq<bool>, params: seq<string>, paramIndexMap: Option<map<string, nat>>)

  /** The parallel arrays have one entry per registered option, every name maps to a
      registered index, and every option's key maps to its own index. */
  predicate TableValid(t: Table) {
    && |t.nvals| == |t.keys| && |t.given| == |t.keys|
    && (forall k :: k in t.indexMap ==> t.indexMap[k] < |t.keys|)
    && (forall i :: 0 <= i < |t.keys| ==> t.keys[i] in t.indexMap && t.indexMap[t.keys[i]] == i)
  }

  const Empty: Table := Table(map[], [], [], [], [], None)

  function AlreadySpecified(name: string): string {
    "Option '" + name + "' already specified"
  }

  function InvalidSpec(key: string): string {
    "Invalid option specification '" + key + "'"
  }

  function NotAccepted(arg: string): string {
    "Option '" + arg + "' not accepted"
  }

  function MustBeFollowed(c: string, n: nat): string {
    "Option '-" + c + "' must be followed by " + NatToString(n) + " values"
  }

  /** The first of names already in the map, in the order the source checks them. */
  function FirstKnown(m: map<string, nat>, names: seq<string>): (r: Option<string>)
    ensures r.None? <==> forall n :: n in names ==> n !in m
    ensures r.Some? ==> r.value in names && r.value in m
    ensures r.Some? ==> names != [] && (r.value == names[0] || names[0] !in m)
  {
    if names == [] then None
    else if names[0] in m then Some(names[0])
    else FirstKnown(m, names[1..])
  }

  /** The table with one more option, known by each of names, listed under names[0]. */
  function Added(t: Table, names: seq<string>, n: int): Table
    requires names != []
  {
    var i := |t.keys|;
    Table(t.indexMap + map name | name in names :: i, t.keys + [names[0]], t.nvals + [n],
          t.given + [false], t.params, t.paramIndexMap)
  }

  /** CommandLine#option: the key's shape decides the names; a name already registered or a
      key of no shape raises; otherwise the option gets the next index, not yet given. */
  function Register(t: Table, key: string, n: int): (r: Result<Table>)
    ensures r.Err? <==> KeyShape(key).Invalid? || exists name :: name in Names(KeyShape(key)) && name in t.indexMap
    ensures KeyShape(key).Invalid? ==> r == Err(InvalidSpec(key))
    ensures r.Ok? ==> && r.value.keys == t.keys + [Names(KeyShape(key))[0]]
                      && r.value.nvals == t.nvals + [n]
                      && r.value.given == t.given + [false]
                      && r.value.params == t.params && r.value.paramIndexMap == t.paramIndexMap
    ensures r.Ok? ==> forall name :: name in r.value.indexMap <==> name in t.indexMap || name in Names(KeyShape(key))
    ensures r.Ok? ==> forall name :: name in Names(KeyShape(key)) ==> r.value.indexMap[name] == |t.keys|
    ensures r.Ok? ==> forall name :: name in t.indexMap ==> r.value.indexMap[name] == t.indexMap[name]
  {
    var sh := KeyShape(key);
    if sh.Invalid? then Err(InvalidSpec(key))
    else
      match FirstKnown(t.indexMap, Names(sh))
      case Some(name) => Err(AlreadySpecified(name))
      case None => Ok(Added(t, Names(sh), n))
  }

  /** A name clash is reported for the first clashing name in the order checked. */
  lemma RegisterClash(t: Table, key: string, n: int)
    requires !KeyShape(key).Invalid?
    requires exists name :: name in Names(KeyShape(key)) && name in t.indexMap
    ensures var names := Names(KeyShape(key));
      Register(t, key, n) == Err(AlreadySpecified(if names[0] in t.indexMap then names[0] else names[1]))
  {
    var names := Names(KeyShape(key));
    var name :| name in names && name in t.indexMap;
    if names[0] !in t.indexMap {
      assert |names| == 2;
      assert FirstKnown(t.indexMap, names[1..]) == Some(names[1]);
    }
  }

  /** Registering keeps the table valid. */
  lemma RegisterValid(t: Table, key: string, n: int)
    requires TableValid(t) && Register(t, key, n).Ok?
    ensures TableValid(Register(t, key, n).value)
  {
    var u := Register(t, key, n).value;
    var names := Names(KeyShape(key));
    forall i | 0 <= i < |u.keys| ensures u.keys[i] in u.indexMap && u.indexMap[u.keys[i]] == i {
      if i == |t.keys| {
        assert u.keys[i] == names[0];
      } else {
        assert u.keys[i] == t.keys[i];
      }
    }
  }

  /** accepts? after registering: exactly the names accepted before and the new names. */
  lemma RegisterAccepts(t: Table, key: string, n: int, name: string)
    requires Register(t, key, n).Ok?
    ensures name in Register(t, key, n).value.indexMap <==> name in t.indexMap || name in Names(KeyShape(key))
  {
  }

  /** A single alphanumeric character or a long name is registered under itself; "c,long"
      is registered under both names at one index, listed under c. */
  lemma RegisterShapes(t: Table, key: string, n: int)
    requires '\n' !in key && Register(t, key, n).Ok?
    ensures var u := Register(t, key, n).value;
      && (IsShortName(key) || IsLongName(key) ==> u.keys[|t.keys|] == key && u.indexMap[key] == |t.keys|)
      && (IsPairSpec(key) ==> u.keys[|t.keys|] == key[..1]
                              && u.indexMap[key[..1]] == |t.keys| && u.indexMap[key[2..]] == |t.keys|)
  {
    WholeKeyShape(key);
    if IsPairSpec(key) && !IsShortName(key) && !IsLongName(key) {
      assert key[2..] in Names(KeyShape(key));
    }
  }

  // ---------------------------------------------------------------------------
  // scanning the arguments

  /** A table after part of a scan, and whether the scan raised. */
  datatype Parsed = Parsed(table: Table, outcome: Outcome)

  function Mark(t: Table, i: nat): (r: Table)
    requires i < |t.given|
    ensures r.given == t.given[i := true]
  {
    t.(given := t.given[i := true])
  }

  /** Whether a group of short option characters is accepted: every character names an
      option, and one taking values comes last. */
  predicate ShortAccepted(t: Table, cs: string)
    requires TableValid(t)
  {
    forall j :: 0 <= j < |cs| ==>
      [cs[j]] in t.indexMap && (t.nvals[t.indexMap[[cs[j]]]] > 0 ==> j == |cs| - 1)
  }

  /** Whether some character of the group cs names the option at index i. */
  predicate NamedInGroup(t: Table, cs: string, i: nat) {
    exists j :: 0 <= j < |cs| && [cs[j]] in t.indexMap && t.indexMap[[cs[j]]] == i
  }

  /** Whether the argument names the option at index i: as --name, or by a character of
      a group -abc. */
  predicate NamesIndex(t: Table, arg: string, i: nat) {
    if StartsWith(arg, "--") then arg[2..] in t.indexMap && t.indexMap[arg[2..]] == i
    else StartsWith(arg, "-") && NamedInGroup(t, arg[1..], i)
  }

  /** The block over the characters of -abc: each is marked given in turn; the first one not
      accepted, or taking values but not last, raises. */
  function ShortGroup(t: Table, cs: string): (r: Parsed)
    requires TableValid(t)
    ensures TableValid(r.table)
    ensures r.table.indexMap == t.indexMap && r.table.keys == t.keys && r.table.nvals == t.nvals
    ensures r.table.paramIndexMap == t.paramIndexMap
    ensures r.table.params == t.params && |r.table.given| == |t.given|
    ensures r.outcome.Pass? <==> ShortAccepted(t, cs)
    ensures r.outcome.Pass? ==> forall j :: 0 <= j < |cs| ==> r.table.given[t.indexMap[[cs[j]]]]
    ensures forall i :: 0 <= i < |t.given| && t.given[i] ==> r.table.given[i]
    ensures forall i :: 0 <= i < |r.table.given| && r.table.given[i] ==> t.given[i] || NamedInGroup(t, cs, i)
    decreases |cs|
  {
    if cs == [] then Parsed(t, Pass)
    else
      var c := [cs[0]];
      if c !in t.indexMap then Parsed(t, Fail(NotAccepted("-" + c)))
      else
        var i := t.indexMap[c];
        if t.nvals[i] > 0 && |cs| > 1 then Parsed(t, Fail(MustBeFollowed(c, t.nvals[i])))
        else
          var r := ShortGroup(Mark(t, i), cs[1..]);
          assert ShortAccepted(t, cs) <==> ShortAccepted(t, cs[1..]) by {
            assert forall j :: 1 <= j < |cs| ==> cs[j] == cs[1..][j - 1];
          }
          assert r.outcome.Pass? ==> forall j :: 1 <= j < |cs| ==> r.table.given[t.indexMap[[cs[j]]]] by {
            assert forall j :: 1 <= j < |cs| ==> cs[j] == cs[1..][j - 1];
          }
          assert forall i :: NamedInGroup(t, cs[1..], i) ==> NamedInGroup(t, cs, i) by {
            forall i | NamedInGroup(t, cs[1..], i) ensures NamedInGroup(t, cs, i) {
              var j :| 0 <= j < |cs[1..]| && [cs[1..][j]] in t.indexMap && t.indexMap[[cs[1..][j]]] == i;
              assert cs[j + 1] == cs[1..][j];
            }
          }
          assert NamedInGroup(t, cs, i) by {
            assert [cs[0]] == c;
          }
          r
  }

  /** Whether one argument is accepted as an option. */
  predicate ArgAccepted(t: Table, arg: string)
    requires TableValid(t)
  {
    if StartsWith(arg, "--") then arg[2..] in t.indexMap
    else if StartsWith(arg, "-") then ShortAccepted(t, arg[1..])
    else true
  }

  /** The body of the args.each block: a long option, a group of short options, or a
      parameter. */
  function ArgStep(t: Table, arg: string): (r: Parsed)
    requires TableValid(t)
    ensures TableValid(r.table)
    ensures r.table.indexMap == t.indexMap && r.table.keys == t.keys && r.table.nvals == t.nvals
    ensures r.table.paramIndexMap == t.paramIndexMap
    ensures |r.table.given| == |t.given|
    ensures r.outcome.Pass? <==> ArgAccepted(t, arg)
    ensures forall i :: 0 <= i < |t.given| && t.given[i] ==> r.table.given[i]
    ensures forall i :: 0 <= i < |r.table.given| && r.table.given[i] ==> t.given[i] || NamesIndex(t, arg, i)
  {
    if StartsWith(arg, "--") then
      var name := arg[2..];
      if name !in t.indexMap then Parsed(t, Fail(NotAccepted("--" + name)))
      else Parsed(Mark(t, t.indexMap[name]), Pass)
    else if StartsWith(arg, "-") then ShortGroup(t, arg[1..])
    else Parsed(t.(params := t.params + [arg]), Pass)
  }

  /** CommandLine#parse: the arguments in order, stopping at the first that raises; what
      earlier arguments did stays done. */
  function ParseArgs(t: Table, args: seq<string>): (r: Parsed)
    requires TableValid(t)
    ensures TableValid(r.table)
    ensures r.table.indexMap == t.indexMap && r.table.keys == t.keys && r.table.nvals == t.nvals
    ensures r.table.paramIndexMap == t.paramIndexMap
    ensures |r.table.given| == |t.given|
    ensures r.outcome.Pass? <==> forall arg :: arg in args ==> ArgAccepted(t, arg)
    ensures forall i :: 0 <= i < |t.given| && t.given[i] ==> r.table.given[i]
    ensures forall i :: 0 <= i < |r.table.given| && r.table.given[i]
                        ==> t.given[i] || exists arg :: arg in args && NamesIndex(t, arg, i)
    decreases |args|
  {
    if args == [] then Parsed(t, Pass)
    else
      var p := ArgStep(t, args[0]);
      if p.outcome.Fail? then p
      else
        var r := ParseArgs(p.table, args[1..]);
        assert forall arg :: arg in args ==> ArgAccepted(p.table, arg) == ArgAccepted(t, arg);
        assert forall arg :: arg in args <==> arg == args[0] || arg in args[1..];
        r
  }

  /** Non-option arguments: those not starting with '-'. */
  function NonOptions(args: seq<string>): (r: seq<string>)
    ensures forall a :: a in r ==> a in args && !StartsWith(a, "-")
  {
    if args == [] then []
    else if StartsWith(args[0], "-") then NonOptions(args[1..])
    else [args[0]] + NonOptions(args[1..])
  }

  /** A scan that completes appends the non-option arguments to params in the order given. */
  lemma {:induction false} ParseParams(t: Table, args: seq<string>)
    requires TableValid(t) && ParseArgs(t, args).outcome.Pass?
    ensures ParseArgs(t, args).table.params == t.params + NonOptions(args)
    decreases |args|
  {
    if args != [] {
      var p := ArgStep(t, args[0]);
      ParseParams(p.table, args[1..]);
      if StartsWith(args[0], "-") {
        assert StartsWith(args[0], "--") ==> p.table.params == t.params;
      }
    }
  }

  /** A scan that completes has marked every option it saw: --name marks name's option and
      -abc marks the option of each character. */
  lemma {:induction false} ParseMarks(t: Table, args: seq<string>)
    requires TableValid(t) && ParseArgs(t, args).outcome.Pass?
    ensures var g := ParseArgs(t, args).table.given;
      forall arg :: arg in args ==>
        (StartsWith(arg, "--") ==> g[t.indexMap[arg[2..]]])
        && (StartsWith(arg, "-") && !StartsWith(arg, "--") ==>
              forall j :: 1 <= j < |arg| ==> g[t.indexMap[[arg[j]]]])
    decreases |args|
  {
    if args != [] {
      var p := ArgStep(t, args[0]);
      ParseMarks(p.table, args[1..]);
      var a := args[0];
      if StartsWith(a, "-") && !StartsWith(a, "--") {
        forall j | 1 <= j < |a| ensures p.table.given[t.indexMap[[a[j]]]] {
          assert a[1..][j - 1] == a[j];
        }
      }
      assert forall arg :: arg in args <==> arg == a || arg in args[1..];
    }
  }

  /** Arguments none of which starts with '-' are all parameters: the scan completes, marks
      nothing, and appends them to params in order. */
  lemma {:induction false} ParsePlainArgs(t: Table, args: seq<string>)
    requires TableValid(t) && forall a :: a in args ==> !StartsWith(a, "-")
    ensures ParseArgs(t, args) == Parsed(t.(params := t.params + args), Pass)
    decreases |args|
  {
    if args == [] {
      assert t.params + args == t.params;
    } else {
      var a := args[0];
      assert a in args;
      DoubleDash(a);
      var u := t.(params := t.params + [a]);
      assert ArgStep(t, a) == Parsed(u, Pass);
      ParsePlainArgs(u, args[1..]);
      assert t.params + [a] + args[1..] == t.params + args;
    }
  }

  /** An argument starting with "--" starts with '-'. */
  lemma DoubleDash(a: string)
    ensures StartsWith(a, "--") ==> StartsWith(a, "-")
  {
    if StartsWith(a, "--") {
      assert a[..2][..1] == a[..1];
    }
  }

  /** A long option that is not accepted stops the scan with its message. */
  lemma LongRejected(t: Table, name: string, rest: seq<string>)
    requires TableValid(t) && name !in t.indexMap
    ensures ParseArgs(t, ["--" + name] + rest).outcome == Fail(NotAccepted("--" + name))
  {
    var a := "--" + name;
    assert StartsWith(a, "--") && a[2..] == name;
    assert ([a] + rest)[0] == a;
  }

  // ---------------------------------------------------------------------------
  // the options given

  /** CommandLine#options: the keys of the options given, in registration order. */
  function GivenKeys(keys: seq<string>, given: seq<bool>): (r: seq<string>)
    requires |given| == |keys|
    ensures |r| <= |keys|
    decreases |keys|
  {
    if keys == [] then []
    else
      var init := GivenKeys(keys[..|keys| - 1], given[..|keys| - 1]);
      if given[|keys| - 1] then init + [keys[|keys| - 1]] else init
  }

  /** A key is listed exactly when some option with that key was given. */
  lemma {:induction false} GivenKeysMembers(keys: seq<string>, given: seq<bool>, x: string)
    requires |given| == |keys|
    ensures x in GivenKeys(keys, given) <==> exists i :: 0 <= i < |keys| && keys[i] == x && given[i]
    decreases |keys|
  {
    if keys != [] {
      var n := |keys| - 1;
      GivenKeysMembers(keys[..n], given[..n], x);
      if exists i :: 0 <= i < n && keys[..n][i] == x && given[..n][i] {
        var i :| 0 <= i < n && keys[..n][i] == x && given[..n][i];
        assert keys[i] == x && given[i];
      }
      if exists i :: 0 <= i < |keys| && keys[i] == x && given[i] {
        var i :| 0 <= i < |keys| && keys[i] == x && given[i];
        if i < n {
          assert keys[..n][i] == x && given[..n][i];
        }
      }
    }
  }

  /** The listed keys keep registration order: the keys of options i < j given appear in
      that order. */
  lemma {:induction false} GivenKeysOrder(keys: seq<string>, given: seq<bool>, i: nat, j: nat)
    requires |given| == |keys| && i < j < |keys| && given[i] && given[j]
    ensures exists p, q :: 0 <= p < q < |GivenKeys(keys, given)|
                           && GivenKeys(keys, given)[p] == keys[i] && GivenKeys(keys, given)[q] == keys[j]
    decreases |keys|
  {
    var n := |keys| - 1;
    var init := GivenKeys(keys[..n], given[..n]);
    if j < n {
      GivenKeysOrder(keys[..n], given[..n], i, j);
      var p, q :| 0 <= p < q < |init| && init[p] == keys[..n][i] && init[q] == keys[..n][j];
      assert GivenKeys(keys, given)[p] == init[p] && GivenKeys(keys, given)[q] == init[q];
    } else {
      GivenKeysMembers(keys[..n], given[..n], keys[i]);
      assert keys[..n][i] == keys[i] && given[..n][i];
      var p :| 0 <= p < |init| && init[p] == keys[i];
      assert GivenKeys(keys, given)[p] == keys[i];
      assert GivenKeys(keys, given)[|init|] == keys[j];
    }
  }

  /** After a completed scan of --name, the key of name's option is among the options. */
  lemma LongListed(t: Table, args: seq<string>, name: string)
    requires TableValid(t) && ParseArgs(t, args).outcome.Pass? && "--" + name in args
    ensures t.keys[t.indexMap[name]] in GivenKeys(t.keys, ParseArgs(t, args).table.given)
  {
    var a := "--" + name;
    assert StartsWith(a, "--") && a[2..] == name;
    ParseMarks(t, args);
    GivenKeysMembers(t.keys, ParseArgs(t, args).table.given, t.keys[t.indexMap[name]]);
  }

  /** has?, as written: it reads @param_index_map. While that is nil, has_key? is sent to
      nil and raises NoMethodError; were it a map, an unknown name would give false and a
      known one the given flag at its index. */
  function HasAsWritten(t: Table, arg: string): (r: Result<bool>)
    ensures r.Err? <==> t.paramIndexMap.None?
    ensures r.Err? ==> r.msg == NilReceiver("has_key?")
    ensures r == Ok(true) ==> arg in t.paramIndexMap.value
  {
    match t.paramIndexMap
    case None => Err(NilReceiver("has_key?"))
    case Some(m) =>
      if arg !in m then Ok(false)
      else Ok(m[arg] < |t.given| && t.given[m[arg]])
  }

  /** has?, as evidently intended: the option named arg is registered and its key is among
      the options given. */
  function Given(t: Table, arg: string): (r: bool)
    requires TableValid(t)
    ensures r <==> arg in t.indexMap && t.keys[t.indexMap[arg]] in GivenKeys(t.keys, t.given)
  {
    if arg !in t.indexMap then false
    else
      var i := t.indexMap[arg];
      GivenKeysMembers(t.keys, t.given, t.keys[i]);
      assert forall j :: 0 <= j < |t.keys| && t.keys[j] == t.keys[i] ==> j == i;
      t.given[i]
  }

  /** Had has? read the option index map, it would answer as Given does. */
  lemma HasReadingOptionMap(t: Table, arg: string)
    requires TableValid(t)
    ensures HasAsWritten(t.(paramIndexMap := Some(t.indexMap)), arg) == Ok(Given(t, arg))
  {
  }

  // ---------------------------------------------------------------------------
  // the class

  class CommandLine {
    var index: nat
    var optionIndexMap: map<string, nat>
    var optionKeys: seq<string>
    var optionNvals: seq<int>
    var optionGiven: seq<bool>
    var params: seq<string>
    var paramIndexMap: Option<map<string, nat>>

    function State(): Table
      reads this
    {
      Table(optionIndexMap, optionKeys, optionNvals, optionGiven, params, paramIndexMap)
    }

    /** The next index is the number of options registered. */
    ghost predicate Valid()
      reads this
    {
      index == |optionKeys| && TableValid(State()) && paramIndexMap.None?
    }

    constructor()
      ensures Valid() && State() == Empty
    {
      index := 0;
      optionIndexMap := map[];
      optionKeys := [];
      optionNvals := [];
      optionGiven := [];
      params := [];
      paramIndexMap := None;
    }

    /** accepts?: whether the name is registered, which is whether the scan accepts it
        written as --name. */
    function Accepts(option: string): (r: bool)
      requires Valid()
      reads this
      ensures r <==> ArgAccepted(State(), "--" + option)
    {
      var arg := "--" + option;
      assert StartsWith(arg, "--") && arg[2..] == option;
      option in optionIndexMap
    }

    /** Adds the option described by key, taking numValues values. */
    method Option(key: string, numValues: int) returns (r: Outcome)
      requires Valid()
      modifies this
      ensures Valid()
      ensures match Register(old(State()), key, numValues)
              case Ok(u) => r == Pass && State() == u
              case Err(m) => r == Fail(m) && State() == old(State())
    {
      var sh := KeyShape(key);
      if sh.Invalid? {
        return Fail(InvalidSpec(key));
      }
      var names := Names(sh);
      if names[0] in optionIndexMap {
        return Fail(AlreadySpecified(names[0]));
      }
      if |names| == 2 && names[1] in optionIndexMap {
        return Fail(AlreadySpecified(names[1]));
      }
      assert FirstKnown(optionIndexMap, names) == None;
      AddOption(names, numValues);
      RegisterValid(old(State()), key, numValues);
      r := Pass;
    }

    /** Maps each of names to the next index and records the option under names[0]. */
    method AddOption(names: seq<string>, numValues: int)
      requires Valid() && names != []
      modifies this
      ensures index == old(index) + 1
      ensures State() == Added(old(State()), names, numValues)
    {
      optionIndexMap := optionIndexMap + map name | name in names :: index;
      optionKeys := optionKeys + [names[0]];
      optionNvals := optionNvals + [numValues];
      optionGiven := optionGiven + [false];
      index := index + 1;
    }

    /** Scans the arguments in order. */
    method Parse(args: seq<string>) returns (r: Outcome)
      requires Valid()
      modifies this
      ensures Valid()
      ensures Parsed(State(), r) == ParseArgs(old(State()), args)
      ensures r.Pass? ==> Params() == old(Params()) + NonOptions(args)
    {
      var k := 0;
      while k < |args|
        invariant 0 <= k <= |args|
        invariant Valid()
        invariant ParseArgs(State(), args[k..]) == ParseArgs(old(State()), args)
      {
        assert args[k..][0] == args[k] && args[k..][1..] == args[k + 1..];
        var o := ParseArg(args[k]);
        if o.Fail? {
          return o;
        }
        k := k + 1;
      }
      r := Pass;
      ParseParams(old(State()), args);
    }

    /** The body of the loop over the arguments. */
    method ParseArg(arg: string) returns (r: Outcome)
      requires Valid()
      modifies this
      ensures Valid()
      ensures Parsed(State(), r) == ArgStep(old(State()), arg)
    {
      if StartsWith(arg, "--") {
        var name := arg[2..];
        if !Accepts(name) {
          return Fail(NotAccepted("--" + name));
        }
        var i := optionIndexMap[name];
        optionGiven := optionGiven[i := true];
        r := Pass;
      } else if StartsWith(arg, "-") {
        r := ShortOptions(arg[1..]);
      } else {
        params := params + [arg];
        r := Pass;
      }
    }

    /** The loop over the characters of a short option group. */
    method ShortOptions(cs: string) returns (r: Outcome)
      requires Valid()
      modifies this
      ensures Valid()
      ensures Parsed(State(), r) == ShortGroup(old(State()), cs)
    {
      var j := 0;
      while j < |cs|
        invariant 0 <= j <= |cs|
        invariant Valid()
        invariant ShortGroup(State(), cs[j..]) == ShortGroup(old(State()), cs)
      {
        var c := [cs[j]];
        assert cs[j..][0] == cs[j] && cs[j..][1..] == cs[j + 1..];
        if !Accepts(c) {
          return Fail(NotAccepted("-" + c));
        }
        var i := optionIndexMap[c];
        var nvals := optionNvals[i];
        if nvals > 0 && j < |cs| - 1 {
          return Fail(MustBeFollowed(c, nvals));
        }
        optionGiven := optionGiven[i := true];
        j := j + 1;
      }
      r := Pass;
    }

    /** params: the arguments that were not options. */
    function Params(): (r: seq<string>)
      reads this
      ensures r == State().params
    {
      params
    }

    /** has?, as written: @param_index_map is still nil, so the call raises whatever the
        argument. */
    method Has(arg: string) returns (r: Result<bool>)
      requires Valid()
      ensures r == HasAsWritten(State(), arg)
      ensures r == Err(NilReceiver("has_key?"))
    {
      r := HasAsWritten(State(), arg);
    }

    /** The keys of the options given, in registration order. */
    method Options() returns (ops: seq<string>)
      requires Valid()
      ensures ops == GivenKeys(optionKeys, optionGiven)
    {
      ops := [];
      var i := 0;
      while i < |optionKeys|
        invariant 0 <= i <= |optionKeys|
        invariant ops == GivenKeys(optionKeys[..i], optionGiven[..i])
      {
        assert optionKeys[..i + 1][..i] == optionKeys[..i];
        assert optionGiven[..i + 1][..i] == optionGiven[..i];
        if optionGiven[i] {
          ops := ops + [optionKeys[i]];
        }
        i := i + 1;
      }
      assert optionKeys[..i] == optionKeys && optionGiven[..i] == optionGiven;
    }
  }
}
