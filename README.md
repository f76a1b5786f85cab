# EPPIC pipeline core in Dafny

This project models the core of the EPPIC batch pipeline, which is written in luigi. The pipeline reads a list of PDB identifiers and creates one work unit per identifier. Each work unit runs the EPPIC command-line tool either as a local process (`EppicCli`) or as a cluster job (`SGEEppicCli`). A work unit is complete when its output directory, its `finished` marker and its optional log all exist. All parameters come from `EppicConfig`, whose string attributes refer to one another through `str.format` placeholders. Reading an attribute substitutes them repeatedly until the value stops changing.

Modules:

- `Results`: `Option` and `Result`.
- `PyStr`: the Python 2 string operations the code relies on:
  - `strip()`;
  - slicing with clamped bounds;
  - `join`, and `split` as its inverse;
  - iterating over the lines of a file.
- `PyFormat`: the part of `str.format` the pipeline uses:
  - literal text;
  - the escapes `{{` and `}}`;
  - keyword fields `{name}`;
  - auto-numbered fields `{}`.

  Python's error kinds are kept as error values.
- `PosixPath`: `os.path.join` and `os.path.dirname`.
- `Config`: the `EppicConfig` parameter set, with its defaults, its required parameters and the substitution loop of `__getattribute__` and `get`.
- `EppicTasks`: the work-unit descriptor:
  - the output directory and its targets;
  - the command line of the analysis tool;
  - the log header;
  - `makeTask` of both list tasks.
- `EppicList`: the list task. It filters the lines of the input list and makes one work unit per identifier.
- `EppicRun`: one run of a work unit, covering:
  - the cluster task's race-tolerant creation of the parent directory;
  - the `-g` argument;
  - the log file;
  - the process call;
  - the classification of the result.

  The state the run updates is a file system, held in the class `Workspace`. A pure function, `Outcome`, maps the starting file system of a run to its result and its final file system, and `Workspace.Run` is proved to return that result and end in that file system.

External effects are parameters:
- the outcome of `os.makedirs` is a `Creation`;
- the outcome of `subprocess.call` is a `Process`, which gives the exit code, the printed output and the paths created;
- the contents of the list file, and whether it exists, are arguments;
- the configured parameter values are a map.

Behaviour of the code worth noting:
- Configuration cycles raise no error. The substitution loop has no iteration cap and would run forever. The model gives the loop fuel and reports `Unresolved` when the fuel runs out, and `CycleNeverResolves` shows that a two-parameter cycle never resolves, whatever the fuel.
- Only a positive exit code is a failure (`rtn > 0`). A negative code, such as a signal, with every output present counts as success (`Classify`).
- `complete()` requires every output target. That includes the log, when the task has one, and not only the directory and the marker.
- The output directory is `<wui_files>/data/divided/<pdb[1:3]>/<pdb>`. Its middle part is shorter, or empty, for identifiers under three characters.

## Model

| member | source | states |
|---|---|---|
| PyStr.Strip | eppicpipeline/luigi/eppic_cli.py:174-176 | `strip()` gives the infix of the line between two all-whitespace ends, and that infix neither starts nor ends with whitespace |
| PyStr.StripOf | eppicpipeline/luigi/eppic_cli.py:174-176 | with whitespace ends removed, what remains is exactly the non-blank core |
| PyStr.StripEmptyIff | eppicpipeline/luigi/eppic_cli.py:176 | a line strips to the empty string exactly when it is all whitespace, so `pdb.strip()` is false only for blank lines |
| PyStr.StripIdempotent | eppicpipeline/luigi/eppic_cli.py:174-175 | stripping twice is the same as stripping once |
| PyStr.Slice | eppicpipeline/luigi/eppic_cli.py:37 | `s[lo:hi]` has the clamped length, and its characters are those of `s` from `lo` on |
| PyStr.Lines | eppicpipeline/luigi/eppic_cli.py:173-175 | the lines of a file join back to its content, and none is empty |
| PyStr.LinesAreLines | eppicpipeline/luigi/eppic_cli.py:173-175 | no line holds a newline except at its end, and every line but the last ends with one |
| PyStr.LinesCons | eppicpipeline/luigi/eppic_cli.py:173-175 | a newline-terminated first line is yielded first, then the lines of the rest |
| PyStr.SplitJoinWith | eppicpipeline/luigi/eppic_cli.py:69 | splitting `" ".join(parts)` at spaces gives back the parts when no part holds a space |
| PyFormat.NoBracesUnchanged | eppicpipeline/luigi/eppic_config.py:62 | brace-free text formats to itself, whatever the arguments; this is the fixed point the substitution loop stops at |
| PyFormat.KeywordField | eppicpipeline/luigi/eppic_config.py:62 | a keyword field `{name}` is replaced by the keyword argument's value, and formatting goes on after it |
| PyFormat.MissingKeywordField | eppicpipeline/luigi/eppic_config.py:62 | a keyword field naming no keyword argument raises KeyError |
| PyFormat.TwoKeywordFields | eppicpipeline/luigi/eppic_config.py:29-30 | a template with two keyword fields around brace-free text formats to both values inserted |
| PyFormat.AutoField | eppicpipeline/luigi/eppic_cli.py:24-26 | an auto-numbered `{}` takes the next positional argument |
| PyFormat.EscapedBraces | eppicpipeline/luigi/eppic_cli.py:24-26 | `{{` and `}}` each stand for one literal brace |
| PyFormat.FormatEscape | eppicpipeline/luigi/eppic_cli.py:24-26 | formatting a text whose braces are all doubled gives that text back |
| PosixPath.DirNameOfJoin | eppicpipeline/luigi/eppic_cli.py:123 | for a directory not ending in '/' and a name without '/', `join` inserts one '/', and `dirname` of the result is the directory |
| Config.Iterate | eppicpipeline/luigi/eppic_config.py:62-65 | a loop that stops stops at a string that `format` leaves unchanged, and its only failures are `format` errors |
| Config.Resolve | eppicpipeline/luigi/eppic_config.py:57-66 | reading a missing attribute fails exactly when the name is absent; a value without `format` comes back unchanged; a resolved string is a fixed point of `format` over the keyword arguments `Keywords` builds from the instance's dictionary (`**self.__dict__`) |
| Config.IterateMoreFuel | eppicpipeline/luigi/eppic_config.py:63-65 | once the loop has stopped, more passes change nothing |
| Config.ResolveMoreFuel | eppicpipeline/luigi/eppic_config.py:57-66 | a resolved attribute keeps its value under any larger pass budget |
| Config.CycleNeverResolves | eppicpipeline/luigi/eppic_config.py:63-65 | two parameters that refer to each other never reach a fixed point, for any number of passes |
| Config.FirstMissing | eppicpipeline/luigi/eppic_config.py:11-55 | none exactly when every name has a value; otherwise an unconfigured name, every name before which is configured |
| Config.Instantiate | eppicpipeline/luigi/eppic_config.py:11-55 | an instance exists exactly when every parameter without a default is configured, and otherwise the error names the first unconfigured one in declaration order; the attributes are exactly the declared parameters; configured values override defaults |
| Config.InstantiateKeywords | eppicpipeline/luigi/eppic_config.py:11-62 | the keyword arguments of an instance are exactly its declared parameters, each bound to its configured value or else its default |
| Config.StrayNameMissing | eppicpipeline/luigi/eppic_config.py:57-62 | a configured name that is no parameter is no attribute (AttributeError), and a template referring to it raises KeyError |
| Config.EppicDbChain | eppicpipeline/luigi/eppic_config.py:13-14 | `eppic_db = "eppic3_{db}"` resolves in one pass to `eppic3_` followed by the brace-free `db` |
| Config.DefaultEppicDb | eppicpipeline/luigi/eppic_config.py:11-14 | without an override, `eppic_db` is `eppic3_` followed by the configured database date |
| Config.TwoFieldChain | eppicpipeline/luigi/eppic_config.py:57-66 | a parameter whose template references two brace-free parameters resolves to the template with both inserted |
| Config.DefaultCliJar | eppicpipeline/luigi/eppic_config.py:26-30 | with the default source directory and version, `eppic_cli_jar` resolves to `./eppic-cli/target/uber-eppic-cli-3.0-SNAPSHOT.jar` |
| Config.EppicConfig.GetAttribute | eppicpipeline/luigi/eppic_config.py:57-66 | the imperative loop of `__getattribute__` returns exactly the resolution defined by `Resolve` |
| Config.EppicConfig.Get | eppicpipeline/luigi/eppic_config.py:68-73 | `get` returns the attribute's resolution when the attribute exists, and the default (None unless given) exactly when the lookup raises AttributeError; other errors pass through |
| EppicTasks.Mid2 | eppicpipeline/luigi/eppic_cli.py:37 | `pdb[1:3]` is the two characters after the first, or fewer for a short identifier |
| EppicTasks.LogTarget | eppicpipeline/luigi/eppic_cli.py:43-44 | the local task has a log target only for a non-empty log path; the cluster task has one for any log that is not None |
| EppicTasks.FinishedPath | eppicpipeline/luigi/eppic_cli.py:41 | `"{}/finished".format(dir)` is the marker `dir/finished` |
| EppicTasks.Outputs | eppicpipeline/luigi/eppic_cli.py:38-45 | `output()` fails exactly when the directory template fails or yields the empty path (or, on the cluster, when the log path is empty); the marker is `dir/finished`; the log target follows the variant |
| EppicTasks.Command | eppicpipeline/luigi/eppic_cli.py:53-65 | the command line parses back to its java, jar, identifier, output directory and config path; `-s` appears only if a variable argument is that string |
| EppicTasks.LogHeader | eppicpipeline/luigi/eppic_cli.py:69 | the log's first write starts with `CMD: ` |
| EppicTasks.LogHeaderRecordsCommand | eppicpipeline/luigi/eppic_cli.py:69 | the header records the command: splitting it at spaces gives back every argument, provided no argument holds a space |
| EppicTasks.MakeTask | eppicpipeline/luigi/eppic_cli.py:181-187 | `makeTask` keeps the variant and the identifier; it passes only the pdb, out and log parameters, so its `jar` and `java` arguments stand for the class defaults `EppicConfig().eppic_cli_jar` and `EppicConfig().java` (lines 28-29), which are kept unchanged |
| EppicTasks.MakeTaskVariantsAgree | eppicpipeline/luigi/eppic_cli.py:189-196 | the local and the cluster list derive the same directory and log path |
| EppicTasks.OutLayout | eppicpipeline/luigi/eppic_cli.py:183 | the joined output path is `<wui>/data/divided[/<pdb[1:3]>]/<pdb>` |
| EppicTasks.MakeTaskLayout | eppicpipeline/luigi/eppic_cli.py:183-184 | the output directory is `<wui>/data/divided[/<pdb[1:3]>]/<pdb>`; the log is `<pdb>.out` inside it; the directory's parent is `<wui>/data/divided[/<pdb[1:3]>]` |
| EppicTasks.MakeTaskExample | eppicpipeline/luigi/eppic_cli.py:183 | `1abc` under `/data` is laid out in `/data/data/divided/ab/1abc` |
| EppicTasks.MadeTaskOutputDir | eppicpipeline/luigi/eppic_cli.py:183-187 | with a brace-free root and identifier, `outputdir()` of a made task is the joined directory unchanged |
| EppicTasks.DefaultOutTemplate | eppicpipeline/luigi/eppic_cli.py:24-26 | the default `out` is `<wui_files>/data/divided/{mid2}/{pdb}` after its first `format` |
| EppicTasks.DefaultOutputDir | eppicpipeline/luigi/eppic_cli.py:24-26 | with the default `out`, the output directory is `<wui_files>/data/divided/<pdb[1:3]>/<pdb>` |
| EppicList.ParseList | eppicpipeline/luigi/eppic_cli.py:174-176 | at most one identifier per line |
| EppicList.ParseListAppend | eppicpipeline/luigi/eppic_cli.py:174-176 | the list of two files back to back is the two lists back to back, so lines are filtered independently and in order |
| EppicList.ParseListTrimmed | eppicpipeline/luigi/eppic_cli.py:174-176 | every identifier is non-empty and has no surrounding whitespace |
| EppicList.TrimmedIsStripped | eppicpipeline/luigi/eppic_cli.py:174-176 | such an identifier is its own `strip()` |
| EppicList.ParseListMembers | eppicpipeline/luigi/eppic_cli.py:174-176 | an identifier is listed exactly when some line is kept and strips to it |
| EppicList.ParseListExample | eppicpipeline/luigi/eppic_cli.py:174-176 | comment and blank lines are dropped, the rest are stripped, and a `#` after leading blanks does not make a comment |
| EppicList.MakeTasks | eppicpipeline/luigi/eppic_cli.py:174-178 | one work unit per identifier, in order, each as `makeTask` builds it |
| EppicList.BatchTasks | eppicpipeline/luigi/eppic_cli.py:164-178 | no work unit while the list file is missing; otherwise one per listed identifier, of the list's variant, in file order |
| EppicList.DuplicateIdsSameTask | eppicpipeline/luigi/eppic_cli.py:174-178 | a repeated identifier yields identical work units, with the same completion marker |
| EppicRun.PrepareDir | eppicpipeline/luigi/eppic_cli.py:123-131 | no creation is attempted when the directory exists; the directory exists after every success; it fails exactly when the directory is the empty path (which never exists and cannot be made), or is absent while the creation fails and no concurrent creation happened |
| EppicRun.ConfArgument | eppicpipeline/luigi/eppic_cli.py:140 | `-g` is the config path; the cluster task fails with IOError exactly when the file cannot be opened |
| EppicRun.WithParent | eppicpipeline/luigi/eppic_cli.py:67 | opening the log for writing makes its parent directory and nothing else |
| EppicRun.Invoke | eppicpipeline/luigi/eppic_cli.py:66-73 | one start per call; nothing is removed, and no path is added but the log, its parent and what a started program creates; a started program's created paths exist; the log holds the header then the output; other files are unchanged; no log is written without a start |
| EppicRun.Classify | eppicpipeline/luigi/eppic_cli.py:74-77 | success exactly when the program started, did not exit positive, and the outputs are complete; a positive exit reports the code and the command; exit 0 (or a negative code) with missing outputs is `Some outputs were not generated` |
| EppicRun.Prepared | eppicpipeline/luigi/eppic_cli.py:118-131 | after the steps before the command, the cluster task's output parent directory exists; the local task changes nothing; `output()` errors surface first |
| EppicRun.Outcome | eppicpipeline/luigi/eppic_cli.py:118-157 | a run starts at most one program, and exactly when the targets, the cluster directory and the `-g` argument could be prepared; invalid outputs leave the file system untouched; nothing is removed, and no path is added but the cluster directory, the log, its parent and what the program creates; success implies complete outputs; once started, success holds exactly when the exit is not positive and the outputs are complete; a positive exit fails whatever the outputs, reporting the exit code and the command; a run that starts nothing fails and writes no file |
| EppicRun.LocalAsWrittenNeverStarts | eppicpipeline/luigi/eppic_cli.py:53-60 | as written, the local run always fails with AttributeError before the log or the process, and leaves the disk unchanged |
| EppicRun.LocalStarts | eppicpipeline/luigi/eppic_cli.py:53-73 | with the intended argument, a local run with valid outputs starts the program, and a started program's log begins with a header recording a command line that passes the config path after `-g` |
| EppicRun.SgeRunAsWritten | eppicpipeline/luigi/eppic_cli.py:133-145 | the cluster run is as written |
| EppicRun.ExitZeroWithoutMarker | eppicpipeline/luigi/eppic_cli.py:74-77 | for either variant, once the steps before the program succeed, exit code 0 without a `finished` marker is `Some outputs were not generated`, not success |
| EppicRun.RunWritesLog | eppicpipeline/luigi/eppic_cli.py:66-70 | after a started run, the log begins with `CMD: ` and the command, followed by the program's output |
| EppicRun.Workspace.EnsureDir | eppicpipeline/luigi/eppic_cli.py:123-131 | the imperative directory step ends in the state `PrepareDir` describes |
| EppicRun.Workspace.Call | eppicpipeline/luigi/eppic_cli.py:146-153 | opening the log, writing the header and calling the process end in the state `Invoke` describes, with `rtn` the exit code |
| EppicRun.Workspace.Run | eppicpipeline/luigi/eppic_cli.py:118-157 | the imperative run ends with the result and the file system that `Outcome` gives |

## Findings

| source | as written | input that shows it | evidently intended | confidence | as-written member | corrected member |
|---|---|---|---|---|---|---|
| eppicpipeline/luigi/eppic_cli.py:60 | the local task passes `conf.eppic_cli_conf_file` as `-g`, and `conf` is the LocalTarget output of `CreateEppicConfig`, which has no such attribute | any local work unit with a valid output directory: building `cmd` raises AttributeError, so no log is written and the tool never runs | the config file's path `conf.path` itself, without opening it (the cluster task at line 140 opens the file for reading and passes its name, so a missing file fails there; the model keeps that check for the cluster variant only) | high, not executed | EppicRun.LocalAsWrittenNeverStarts | EppicRun.LocalStarts |

## Left out

- Scheduling is not modelled. That covers luigi's executor, its dependency resolution (`requires()`), its skipping of complete tasks, and the completion of the wrapper tasks. The existence of the list file is an argument.
- `CreateEppicConfig`, which renders a handlebars template, is not modelled. Only the path of its output enters the model.
- SGE job submission and waiting (`CustomSGEJobTask`) are not modelled. Only the job body `work()` is.
- The external process and `os.makedirs` are oracles. `makedirs` also creates missing ancestors, but only the named directory enters the model.
- luigi's atomic write is reduced to "the log appears when the `with` block ends". The temporary file name is not modelled. When opening the log for writing, luigi creates only the log's immediate parent in the model.
- The empty-path refusal of luigi's `LocalTarget` comes from luigi, not from the files modelled here.
- Logging calls are left out.
- `str.format` is modelled only for literal text, `{{`, `}}`, `{name}` and `{}`. Conversions, format specs, attribute or index access and manual numbering give `Unsupported`. Python's own result for those is not modelled.
- Config.EppicConfig.GetAttribute: the loop stops after `fuel` passes and then returns `Unresolved`. The source has no cap and would never return on a cycle.
- Config: the internals of `__dict__` beyond the parameter values are left out. So are attribute lookups that reach class attributes or methods, and luigi's reading of configuration files. The configured values are a map.
- Strings are sequences of characters. Python 2 byte strings, Unicode and universal-newline translation are not modelled, so lines split at `\n` only. A trailing `\r` is whitespace and is stripped anyway.
- Paths are not normalised. `join` and `dirname` follow `posixpath` literally.
- EppicRun.WithParent: luigi normalises the log path (`normpath`) before taking its parent; the model takes the parent of the path as given.
