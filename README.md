# Bake core model in Dafny

Bake is a small Ruby build tool for C++ projects. This project models its core:

- the project type table and the project text writer (`project.rb`);
- the system parser and writer (`system.rb`): line normalisation, the declaration header, the
  property loop that stores `build` blocks in an insertion-ordered hash, and `System#to_s`;
- the command-line option table (`cmdline.rb`): option registration, the argument scan, and
  the `accepts?`, `params` and `options` queries;
- the command registry and the argument defaulting of the `easy` and `init` commands
  (`commands.rb`);
- the `g++` command string assembled by `Compiler#build` (`compiler.rb`).

Raised Ruby exceptions become `Err`/`Fail` values. They carry the messages the code raises.
The errors the Ruby runtime raises itself carry the texts of Ruby 2.0 to 2.3:
- a method called on nil: "undefined method `<m>' for nil:NilClass";
- nil appended to a String: "no implicit conversion of nil into String";
- `nil.clone`: "can't clone NilClass".

The model follows those versions. From Ruby 2.4 on, `nil.clone` returns nil
instead of raising, which changes which error `Compiler#build` reports first. The block
reader's messages are this model's own (see "## Left out"). Ruby `nil` becomes
`Option.None`. The classes whose fields the Ruby code updates in place are Dafny
classes: `Project`, `Build`, `System`, `CommandLine` and the command `Registry`. Their methods
are proved against specification functions such as `Serialize`, `ParseSystem`, `Register`,
`ParseArgs` and `GivenKeys`. The lemmas prove the properties of those functions.

Modules: `Wrappers` (Option, Result, Outcome), `Text` (Ruby's `strip`, `split`, `downcase`
and `<=>` on strings), `ProjectTypes`, `Projects`, `Blocks`, `Systems`, `SystemText` (the
system round trip), `CmdLine`, `Commands` and `Compilation`.

The model follows the code where its own comments say otherwise or leave the rule open:

- The comment above `parse_system_decl` (system.rb:136) expects `system <name>`. The code
  (system.rb:143-154) rejects any second token other than `{` or `{}`, and it never compares
  the first token to `system`. `System#to_s` writes `system {` with no name. `Systems.DeclCheck`
  models the code's rule.
- There is no project parser: `Project#from_s` only raises (project.rb:83-85).
- `Project#to_s` checks only that the type is non-empty (project.rb:92), not that it is
  valid. `Projects.SerializeAcceptsUnknownType` shows this.
- `Utils::parse_named_block` (called at system.rb:121) is not part of this model's source
  files. `Blocks.ParseNamedBlock` defines it from the block grammar of Bake's configuration
  format:
  - a header `<keyword> <name>` whose name matches `[\w-]+`;
  - then `{` as a third token, or `{` alone on the next line, or `{}` as a third token;
  - then content lines up to the first line that is exactly `}`.
- Ruby's `^` and `$` anchor at line boundaries. The option-shape tests in `CommandLine#option`
  and the name test in `init` therefore accept multi-line strings. `CmdLine.KeyShape` models
  this, and `CmdLine.MultiLineKey` shows it.

## Model

| member | source | states |
|---|---|---|
| ProjectTypes.KindNames | project.rb:26-28 | `valid?` holds exactly for the names of the three kinds app, lib and dll; the type strings and the kinds correspond one to one |
| ProjectTypes.Desc | project.rb:31-42 | the description succeeds exactly for a valid type and otherwise raises "Invalid ProjectType '<t>'" |
| ProjectTypes.FilenameSuffix | project.rb:48-59 | the suffix succeeds exactly when `valid?` holds and otherwise raises "Invalid ProjectType: <t>" |
| ProjectTypes.SuffixOfKind | project.rb:44-59 | app, lib and dll map to "", ".a" and ".so", and to executable, static library and shared library |
| ProjectTypes.SuffixDeterminesType | project.rb:48-59 | two valid types with the same suffix are the same type |
| Projects.Project.constructor | project.rb:75 | a new Project has every attribute nil |
| Projects.Project.Outfile | project.rb:78-80 | the output name is name + suffix(type); it fails exactly when the type is invalid or an attribute is nil, with the type error first |
| Projects.Project.FromS | project.rb:83-85 | `from_s` always raises "Project::from_s() not implemented!" |
| Projects.Serialize | project.rb:89-93 | `to_s` succeeds iff name, type and files are present and non-empty; it reports the missing name first, then the type, then the files |
| Projects.Project.ToS | project.rb:89-133 | the string built with `+=` is exactly the canonical text of the fields, or the first missing-field error |
| Projects.EmitSection | project.rb:106-109 | one list section is its comment, its `title {` line, one four-space-indented line per element in list order (none for a nil list) and `  }` |
| Projects.SerializedLines | project.rb:96-132 | split at newlines, the text is the header, the type comments, `  type = <type>`, then the files, deps, libs, include-paths and lib-paths sections in that order, then `}` |
| Projects.SerializedFrame | project.rb:98-104 | the text begins with `project <name> {`, the type comments and `  type = <type>`, and it ends with `}\n` |
| Projects.SerializeAcceptsUnknownType | project.rb:91-93 | `to_s` writes a type that `valid?` rejects; it checks only that the type is non-empty |
| Blocks.ParseNamedBlock | system.rb:121 | a block read consumes at least its header line, leaves a suffix of the lines, and yields the header's second token as a `[\w-]+` name and content lines holding no `}` line |
| Blocks.ReadWrittenBlock | system.rb:121 | `<kw> <name> {`, its content lines and a lone `}` read back as that name and content, leaving the lines after them |
| Blocks.ReadBraceOnNextLine | system.rb:121 | the opening brace may stand alone on the line after the header |
| Blocks.ReadInlineEmpty | system.rb:121 | `<kw> <name> {}` is an empty block closed on its header line |
| Blocks.UnclosedBlock | system.rb:121 | a block with no closing `}` line is rejected |
| Systems.Build.constructor | system.rb:33-36 | a new Build has name "" and no projects |
| Systems.System.constructor | system.rb:49-50 | a new System holds no builds |
| Systems.Normalized | system.rb:84-95 | every remaining line is non-empty, has no surrounding whitespace and holds no `#`; a line remains exactly when it is a non-empty cleaned line of the text |
| Systems.NormalizeLines | system.rb:84-95 | the in-place strip, split, clean and delete steps yield the normalised lines |
| Systems.CleanEach | system.rb:90-94 | each line is lstripped, cut at its first `#` and rstripped, in place |
| Systems.DeleteEmpty | system.rb:95 | `delete_if` keeps the non-empty lines in their order |
| Systems.DeclCheck | system.rb:143-154 | the header is accepted exactly in the code's shapes: a lone token followed by a `{` line; second token `{`, optionally with third token `}`; second token `{}`; the first token is never compared |
| Systems.SystemDecl | system.rb:137-155 | `parse_system_decl` consumes the header line, and the `{` line after a lone token, exactly when the header has an accepted shape |
| Systems.PropertyStep | system.rb:104-128 | one pass of the loop: a `}` line ends it successfully when it is the last line and otherwise raises "Unexpected tokens after final '}' in project definition"; only `build` goes on, consuming its block and yielding a build named by the block; a block-reader error is re-raised as "Error parsing property 'build': <message>"; any other property raises "Error parsing property '<p>': Unknown system property" |
| Systems.Properties | system.rb:102-132 | the loop: no lines left raises "Unexpected end of project declaration"; a first `}` line succeeds exactly when it is the only line; an unknown first property raises its error and stores nothing; success needs the last line to open with `}`; every stored build has a block name and no `}` project |
| Systems.UnknownPropertyFails | system.rb:115-127 | after an accepted header, a first property other than `build` or `}` stops `from_s` with the unknown-property error and stores nothing |
| Systems.BraceMustBeLast | system.rb:108-113 | after an accepted header, a `}` line succeeds only as the last line and otherwise raises the trailing-tokens error |
| Systems.BlockErrorWrapped | system.rb:118-127 | a `build` block the reader rejects raises the reader's message behind "Error parsing property 'build': " |
| Systems.ParseSystem | system.rb:82-133 | `from_s` as a function of the text: text empty after normalisation raises "System definition empty"; success needs an accepted header with lines after it; every stored build has a block name |
| Systems.AcceptedEndsWithBrace | system.rb:108-114 | an accepted text's last significant line opens with the closing brace |
| Systems.UpsertKeys | system.rb:122 | storing a build keeps the keys distinct; a new key goes last; an existing key keeps its place and gets the new build; nothing else changes |
| Systems.UpsertAllFresh | system.rb:122 | builds with distinct names are stored as given, in order |
| Systems.System.Store | system.rb:122 | `@builds[build.name] = build` updates the hash as `Upsert` says and keeps its invariant |
| Systems.System.FromS | system.rb:82-133 | `from_s` returns the outcome of `ParseSystem` and stores its builds, in order, over the builds already held |
| Systems.System.ReadProperties | system.rb:102-132 | the while loop stores the builds the property loop reads and ends with its outcome |
| Systems.System.ReadProperty | system.rb:104-131 | the loop body performs one `PropertyStep` and stores the build it reads |
| Systems.System.ReadBuild | system.rb:119-122 | a new Build filled by the block reader is stored under its name |
| Systems.System.ToS | system.rb:66-79 | `to_s` writes the comment, `system {`, each build in insertion order with one line per project, and `}` |
| Systems.System.EmitBuilds | system.rb:71-75 | the `each_value` loop writes the builds' blocks in insertion order |
| Systems.EmitBuild | system.rb:72-74 | one build is `  build <name> {`, one four-space-indented line per project in order, then `  }` |
| SystemText.RoundTrip | system.rb:66-133 | the text `to_s` writes for builds with block names and one-line project names parses successfully to exactly those builds, in order |
| SystemText.RoundTripWith | system.rb:137-155 | the round trip holds whatever one-word keyword opens the header |
| SystemText.ReloadIntoEmpty | system.rb:49-50 | a new System reading that text holds exactly the written builds, in order |
| SystemText.NormalizedText | system.rb:84-95 | normalisation of the written text drops the comment, the indentation and the blank lines |
| SystemText.DeclAccepted | system.rb:137-155 | a header `<keyword> {` is accepted and consumed whatever the keyword |
| CmdLine.KeyShape | cmdline.rb:36-60 | the three shape tests in order; a pair spec registers a single alphanumeric and a long name |
| CmdLine.WholeKeyShape | cmdline.rb:36-60 | on a one-line key the tests match the whole key |
| CmdLine.MultiLineKey | cmdline.rb:36 | a key whose first line is one alphanumeric is registered whole, whatever lines follow |
| CmdLine.Register | cmdline.rb:35-62 | `option` fails exactly on a key of no shape or a name already registered; otherwise each name maps to the next index, the key list gains the first name, and the option starts not given |
| CmdLine.RegisterClash | cmdline.rb:37-52 | a clash is reported for the short name first, then the long one |
| CmdLine.RegisterValid | cmdline.rb:35-62 | registering keeps the index map and the parallel arrays consistent |
| CmdLine.RegisterAccepts | cmdline.rb:65-67 | after registering, `accepts?` holds exactly for the names accepted before and the new ones |
| CmdLine.RegisterShapes | cmdline.rb:36-58 | `c` and `long` are registered under themselves; `c,long` maps both names to one index and lists the option under `c` |
| CmdLine.CommandLine.constructor | cmdline.rb:16-24 | a new CommandLine has index 0, an empty map and empty arrays |
| CmdLine.CommandLine.Option | cmdline.rb:35-62 | `option` changes the state exactly as `Register` says, or leaves it unchanged and raises |
| CmdLine.CommandLine.AddOption | cmdline.rb:38-42 | the new option gets the current index and the index increases by one |
| CmdLine.ShortGroup | cmdline.rb:86-109 | `-abc` succeeds iff every character is accepted and a value-taking one comes last; on success each character's option is given; no given flag is cleared, and an option becomes given only if a character of the group names it |
| CmdLine.ArgStep | cmdline.rb:71-114 | one argument is a long option, a short group or a parameter, and succeeds exactly when it is accepted; only options the argument names become given |
| CmdLine.ParseArgs | cmdline.rb:70-116 | the scan succeeds iff every argument is accepted; the option table is unchanged; no given flag is cleared; an option becomes given only if some argument names it as `--name` or by a character of `-abc` |
| CmdLine.CommandLine.Parse | cmdline.rb:70-116 | `parse` changes the state exactly as `ParseArgs` says; after a completed scan `params` is the old `params` followed by the non-option arguments |
| CmdLine.CommandLine.Accepts | cmdline.rb:65-67 | `accepts?` holds exactly when the scan would accept the name written as `--name` |
| CmdLine.CommandLine.Params | cmdline.rb:146-148 | `params` is the parameter list of the state, which `Parse` extends by the non-option arguments |
| CmdLine.CommandLine.ParseArg | cmdline.rb:71-114 | the loop body changes the state exactly as `ArgStep` says |
| CmdLine.CommandLine.ShortOptions | cmdline.rb:91-109 | the character loop changes the state exactly as `ShortGroup` says |
| CmdLine.ParseParams | cmdline.rb:111-114 | a completed scan appends the non-option arguments to `params` in argument order |
| CmdLine.ParseMarks | cmdline.rb:72-105 | a completed scan marks `--name`'s option and each character's option of `-abc` as given |
| CmdLine.ParsePlainArgs | cmdline.rb:111-114 | arguments not starting with `-` all become parameters and mark nothing |
| CmdLine.LongRejected | cmdline.rb:77 | an unaccepted `--name` raises "Option '--name' not accepted" |
| CmdLine.CommandLine.Options | cmdline.rb:153-159 | `options` returns the keys of the given options, computed by its loop |
| CmdLine.GivenKeysMembers | cmdline.rb:153-159 | a key is listed exactly when an option with that key was given |
| CmdLine.GivenKeysOrder | cmdline.rb:153-159 | the listed keys keep registration order |
| CmdLine.LongListed | cmdline.rb:72-81 | after a completed scan of `--name`, that option's key is among `options` |
| Commands.NewCommand | commands.rb:46-48 | a command's name is stored lower-cased, with the same length |
| Commands.NameIgnoresCase | commands.rb:46-48 | two spellings give a command the same name exactly when they agree ignoring case |
| Commands.Put | commands.rb:21-23 | storing a command puts it in the table; a new name goes last after all the old entries |
| Commands.PutReplaces | commands.rb:21-23 | an existing name is replaced at its first position, and every other entry stays where it was |
| Commands.Find | commands.rb:31-33 | the hash lookup is nil exactly for an unregistered name, and otherwise yields the command stored under it |
| Commands.FindPut | commands.rb:21-33 | after `insert`, the name finds the command just inserted and every other name finds what it found before |
| Commands.PutDistinct | commands.rb:21-23 | `insert` keeps names unique and adds exactly the new name |
| Commands.SortByNameCorrect | commands.rb:26-28 | the sorted list is a permutation of the registered commands, ordered by name |
| Commands.Registry.constructor | commands.rb:18 | the registry starts empty |
| Commands.Registry.Insert | commands.rb:21-23 | `insert` replaces any command with the same name and keeps names unique |
| Commands.Registry.Lookup | commands.rb:31-33 | `lookup` lower-cases its argument; it is nil exactly when no command has that name and otherwise yields the registered command |
| Commands.Registry.Has | commands.rb:36-38 | `has?` holds exactly when `lookup` is non-nil |
| Commands.Registry.Commands | commands.rb:26-28 | `commands` returns every registered command, sorted by name |
| Commands.LookupAfterInsert | commands.rb:21-38 | a command inserted under any spelling is found under every other spelling of its name |
| Commands.HelpRegistered | commands.rb:195 | `option("h,help")` on a fresh CommandLine maps h and help to option 0, listed under h |
| CmdLine.HasAsWritten | cmdline.rb:119-123 | `has?` as written raises NoMethodError for `has_key?` exactly while `@param_index_map` is nil; were it a map, it would answer false for an unknown name |
| CmdLine.CommandLine.Has | cmdline.rb:119-123 | on every CommandLine `@param_index_map` is still nil, since no method assigns it, so `has?` raises |
| CmdLine.Given | cmdline.rb:119-123 | `has?` as intended: the name is registered and its option's key is among `options` |
| CmdLine.HasReadingOptionMap | cmdline.rb:119-123 | reading `@option_index_map` instead, `has?` would answer as `Given` |
| Commands.HelpParse | commands.rb:194-196 | parsing with only the help option keeps the table valid and the map nil; on success `params` are the non-option arguments; the help option is given only if an argument names it |
| Commands.HelpGateAsWritten | commands.rb:194-202 | as written, a parse error is raised before `has?` is asked |
| Commands.GateAsWrittenAlwaysRaises | commands.rb:194-202 | as written, every `run` raises at the help check: a completed parse always ends in the `has_key?` error |
| Commands.HelpGate | commands.rb:194-207 | with `has?` as intended: it raises exactly when the parse raises; usage is shown only when an argument names the help option; otherwise the run goes on with the non-option arguments |
| Commands.HelpGateCorrect | commands.rb:194-202 | with `has?` as intended, `-h` or `--help` shows the usage, and plain arguments pass through as the parameters |
| Commands.HelpShowsUsage | commands.rb:194-202 | a completed scan holding `-h` or `--help` shows the usage |
| Commands.PlainArgsGo | commands.rb:194-207 | arguments that are not options pass the help check as the parameters |
| Commands.EasyParams | commands.rb:205-214 | `easy` succeeds exactly when the type (default app) is valid, and otherwise raises the usage error before any build |
| Commands.EasyDefaults | commands.rb:206-207 | with no parameters `easy` builds app named app; the name defaults to the type; a second parameter names the project |
| Commands.EasyOutfile | commands.rb:214-227 | the output name `easy` announces is the outfile of the project it builds |
| Commands.EasyRun | commands.rb:192-214 | `easy` up to the build: usage and parse errors come first; otherwise it proceeds exactly with the plan `EasyParams` makes from the non-option arguments, or raises the type error |
| Commands.EasyRunPlain | commands.rb:192-214 | with plain arguments, `easy` proceeds with its plan, or raises the type error |
| Commands.InitParamsAsWritten | commands.rb:280-285 | `init` as written succeeds exactly when some line of the name is all word characters and the type is valid, with the defaults my_project and app; a bad name is reported first |
| Commands.InitNameAsWritten | commands.rb:284 | as written, a name like `a\n../x` passes the `^\w+$` test |
| Commands.InitParams | commands.rb:280-285 | `init` as intended succeeds exactly when the whole name is word characters and the type is valid |
| Commands.InitDefaults | commands.rb:280-302 | the name defaults to my_project and the type to app; the name is checked before the type |
| Commands.InitOneLine | commands.rb:284 | on one-line names the written and the intended tests agree |
| Commands.InitProjectSerializes | commands.rb:291-295 | the project `init` writes passes `to_s`'s required-field checks |
| Commands.InitRun | commands.rb:267-285 | `init` up to writing the file: usage and parse errors come first; otherwise it proceeds exactly with the plan `InitParams` makes from the non-option arguments, or raises its error |
| Commands.InitRunDefault | commands.rb:267-285 | `bake init` alone plans my_project as an app |
| Compilation.CommandTokens | compiler.rb:21-22 | the tokens are the files in order, then exactly one `-o <outfile>` token |
| Compilation.CommandString | compiler.rb:24 | the command starts with `g++ ` |
| Compilation.JoinContinued | compiler.rb:24 | joining with the separator writes one token per line, each line but the last ending in a backslash, the later lines indented by four spaces |
| Compilation.CommandLines | compiler.rb:21-24 | split at newlines, the command is `g++ <first file> \`, the further files, and the `-o <outfile>` line |
| Compilation.FirstAndLastLines | compiler.rb:24 | the first line holds g++ and the first token; the last line holds the output option |
| Compilation.BuildCommand | compiler.rb:16-24 | the command is built exactly when name and files are set and the type is valid; a nil name, nil files or a bad type raise in that order, as under Ruby 2.0 to 2.3 |
| Compilation.InvalidTypeStops | compiler.rb:22-32 | an invalid type raises at the outfile step, before the output directory or the compiler |
| Compilation.EasyBuildCommand | commands.rb:214-231 | the project `easy` builds is compiled into the output file it announced |

## Findings

| source | as written | input that shows it | evidently intended | confidence | as-written member | corrected member |
|---|---|---|---|---|---|---|
| cmdline.rb:119-123 | `has?` reads `@param_index_map`, which nothing assigns, so `nil.has_key?` raises on every call; every command's `run` therefore raises at its help check (commands.rb:84, 131, 199, 274) | `bake init` with no arguments | `has?` answers whether the option was given, through `@option_index_map` and `@option_given` | high (not executed) | Commands.GateAsWrittenAlwaysRaises | Commands.HelpGateCorrect |
| commands.rb:284 | `name !~ /^\w+$/` uses line anchors, so a name passes when any one of its lines is all word characters | the name `"a\n../x"` | the whole name must be word characters | medium (not executed) | Commands.InitNameAsWritten | Commands.InitParams |

The rest of the model uses the corrected members: `EasyRun` and `InitRun` are built on `HelpGate`
and `Given`, and `InitRun` on `InitParams`.

## Left out

- Filesystem and subprocess effects: `Dir.mkdir`, running `g++` and reading its exit status,
  `Utils.print_file` (compiler.rb:28-41), and the clean command's file removal (commands.rb:139-160).
  They are I/O. The model stops at the command string and at the point where `easy` and `init`
  would start that I/O.
- `System#initialize(file)`, `from_file` and `to_file`: they read and write files through
  `Utils::read_file` and `write_file`, which are not part of this model's source files. Only
  the empty-system constructor and `from_s`/`to_s` on strings are modelled.
- `Utils::parse_named_block` is not part of this model's source files. `Blocks.ParseNamedBlock`
  defines it from the block grammar of the configuration format. Its error messages are this model's own.
- `CommandLine#value`: it reads `@param_index_map`, `@param_nvals` and `@param_vals`, which
  are never assigned. It is covered only through the `has?` finding. The option-value capture
  is a TODO in the source (cmdline.rb:83-84, 107-108). The debug `puts` (cmdline.rb:73, 92)
  and the script at the end of cmdline.rb are console output.
- Usage and help text (every `usage` method, `HelpCommand.bake_usage`) and all printing are
  console output.
- utils.rb, utility.rb, bake.rb and constants.rb: directory scanning, process dispatch and
  constants.
- The build command's `Project.new(file)` and `to_file` (commands.rb:91, 295) do not exist in
  project.rb.
- Compilation.BuildCommand: the project's `files` list is left unchanged because the model
  builds a new sequence from it. A function that only reads the project is how the model
  states that the clone at compiler.rb:21 protects the list. No separate mutating method exists.
- Compilation.BuildCommand: follows Ruby 2.0 to 2.3, where `nil.clone` raises. From Ruby 2.4 on
  the clone of nil files is nil. The outfile error then comes first, and otherwise `<<` on nil raises.
- Text.IsSpace: Ruby's `strip` also removes NUL characters. The model's whitespace is the six
  ASCII whitespace characters.
- Text.Lower: lower-cases ASCII letters only; Ruby's `downcase` also folds other Unicode letters.
- Text.LexLess: compares strings by character code, which agrees with Ruby's byte order
  on ASCII names.
