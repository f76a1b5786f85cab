/**
 * Running one work unit: `EppicCli.run` (local) and `SGEEppicCli.work`
 * (cluster job). The file system is a set of existing paths plus the
 * contents of the files the task writes; `os.makedirs` and the external
 * process are oracles given as parameters.
 */
module EppicRun {
  import opened Results
  import opened PyStr
  import opened PosixPath
  import opened EppicTasks

  /** The exceptions a run raises, and the exit that is not an exception. */
  datatype TaskError =
    | OutputFailed(error: OutputError)    // `output()` raised
    | ConfAttributeMissing                // the config target has no `eppic_cli_conf_file`
    | ConfUnreadable(path: string)        // `conf.open()` raised IOError
    | DirectoryMissing(dir: string)       // `os.makedirs` failed and the directory is still absent
    | LaunchFailed                        // `subprocess.call` could not start the program
    | NonZeroReturn(rtn: int, command: string)
    | OutputsMissing                      // the program exited but `complete()` is false

  /** What `os.makedirs(dir)` does: succeed, or fail while another job creates `dir` meanwhile, or just fail. */
  datatype Creation = Creation(succeeds: bool, concurrent: bool)

  /** What `subprocess.call` does: exit with a code, having printed `output` and created `created`; or not start. */
  datatype Process = Launched(rtn: int, output: string, created: set<string>) | NotLaunched

  /** The paths that exist, the contents of the log files written, and how many programs were started. */
  datatype Disk = Disk(existing: set<string>, files: map<string, string>, calls: nat)

  /**
   * The directory step of the cluster task: nothing is attempted when
   * `dir` exists; otherwise it is created, and a failed creation is
   * forgiven when `dir` exists afterwards anyway. The empty path never
   * exists and cannot be created, so it always fails.
   */
  function PrepareDir(existing: set<string>, dir: string, mk: Creation): (r: Result<set<string>, TaskError>)
    ensures dir == "" ==> r == Err(DirectoryMissing(""))
    ensures dir != "" && dir in existing ==> r == Ok(existing)
    ensures r.Ok? ==> r.value == existing + {dir}
    ensures r.Err? <==> dir == "" || (dir !in existing && !mk.succeeds && !mk.concurrent)
    ensures r.Err? ==> r.error == DirectoryMissing(dir)
  {
    if dir == "" then Err(DirectoryMissing(dir))
    else if dir in existing then Ok(existing)
    else if mk.succeeds then Ok(existing + {dir})
    else if mk.concurrent then Ok(existing + {dir})
    else Err(DirectoryMissing(dir))
  }

  /**
   * The `-g` argument, as written: the local task asks the config target
   * for an attribute it does not have; the cluster task opens the file and
   * takes its name.
   */
  function ConfArgumentAsWritten(variant: Variant, conf: string, existing: set<string>): Result<string, TaskError>
  {
    match variant
    case Local => Err(ConfAttributeMissing)
    case Sge => if conf in existing then Ok(conf) else Err(ConfUnreadable(conf))
  }

  /** The `-g` argument as intended: the config file's path, which the cluster task also requires to be readable. */
  function ConfArgument(variant: Variant, conf: string, existing: set<string>): (r: Result<string, TaskError>)
    ensures r.Ok? ==> r.value == conf
    ensures variant == Local ==> r == Ok(conf)
    ensures variant == Sge ==> r == ConfArgumentAsWritten(Sge, conf, existing)
    ensures variant == Sge ==> (r.Ok? <==> conf in existing)
  {
    match variant
    case Local => Ok(conf)
    case Sge => ConfArgumentAsWritten(Sge, conf, existing)
  }

  /** luigi's `open('w')` first makes the parent directory of the target, when it has one. */
  function WithParent(existing: set<string>, path: string): (r: set<string>)
    ensures existing <= r && r <= existing + {DirName(path)}
    ensures DirName(path) != "" ==> DirName(path) in r
  {
    if DirName(path) == "" then existing else existing + {DirName(path)}
  }

  /** The paths opening a log creates: the log itself and its parent directory. */
  function LogPaths(log: Option<string>): set<string>
  {
    if log.Some? then {log.value, DirName(log.value)} else {}
  }

  /** The paths a program reports having created, none when it did not start. */
  function Created(p: Process): set<string>
  {
    if p.Launched? then p.created else {}
  }

  /**
   * Starting the program. With a log, the log's directory is made, the
   * header and then everything the program prints go into the log file,
   * and the file appears when the program has ended; a program that does
   * not start leaves no log.
   */
  function Invoke(d: Disk, cmd: seq<string>, log: Option<string>, p: Process): (d': Disk)
    ensures d'.calls == d.calls + 1
    ensures d.existing <= d'.existing
    ensures d'.existing <= d.existing + LogPaths(log) + Created(p)
    ensures p.Launched? ==> p.created <= d'.existing
    ensures p.Launched? && log.Some? ==>
              log.value in d'.existing && log.value in d'.files && d'.files[log.value] == LogHeader(cmd) + p.output
    ensures log.None? || p.NotLaunched? ==> d'.files == d.files
    ensures forall f :: f in d.files && (log.None? || f != log.value) ==> f in d'.files && d'.files[f] == d.files[f]
  {
    var made := if log.Some? then WithParent(d.existing, log.value) else d.existing;
    match p
    case NotLaunched => Disk(made, d.files, d.calls + 1)
    case Launched(_, output, created) =>
      if log.Some? then
        Disk(made + {log.value} + created, d.files[log.value := LogHeader(cmd) + output], d.calls + 1)
      else
        Disk(made + created, d.files, d.calls + 1)
  }

  /**
   * The verdict after the program: a start failure, a positive exit code
   * or a missing output is an error. A zero or negative exit code with
   * every output present is success.
   */
  function Classify(p: Process, complete: bool, cmd: seq<string>): (r: Result<(), TaskError>)
    ensures r.Ok? <==> p.Launched? && p.rtn <= 0 && complete
    ensures p.Launched? && p.rtn > 0 ==> r == Err(NonZeroReturn(p.rtn, JoinWith(" ", cmd)))
    ensures p.Launched? && p.rtn <= 0 && !complete ==> r == Err(OutputsMissing)
  {
    match p
    case NotLaunched => Err(LaunchFailed)
    case Launched(rtn, _, _) =>
      if rtn > 0 then Err(NonZeroReturn(rtn, JoinWith(" ", cmd)))
      else if !complete then Err(OutputsMissing)
      else Ok(())
  }

  /** The steps before the command line: the targets, and for the cluster task the parent of the output directory. */
  function Prepared(u: WorkUnit, mk: Creation, d: Disk): (r: Result<(Targets, Disk), TaskError>)
    ensures r.Ok? ==> Outputs(u) == Ok(r.value.0)
    ensures r.Ok? ==> r.value.1.files == d.files && r.value.1.calls == d.calls && d.existing <= r.value.1.existing
    ensures r.Ok? && u.variant == Sge ==> DirName(r.value.0.dir) in r.value.1.existing
    ensures r.Ok? && u.variant == Local ==> r.value.1 == d
    ensures Outputs(u).Err? ==> r == Err(OutputFailed(Outputs(u).error))
  {
    match Outputs(u)
    case Err(e) => Err(OutputFailed(e))
    case Ok(outs) =>
      if u.variant == Sge then
        match PrepareDir(d.existing, DirName(outs.dir), mk)
        case Err(e) => Err(e)
        case Ok(existing) => Ok((outs, d.(existing := existing)))
      else Ok((outs, d))
  }

  /** The command, the program and the verdict, for a run whose `-g` argument is `conf`. */
  function Execute(u: WorkUnit, outs: Targets, conf: string, p: Process, d: Disk): (Result<(), TaskError>, Disk)
  {
    var cmd := Command(u, outs.dir, conf);
    var d' := Invoke(d, cmd, outs.log, p);
    (Classify(p, Complete(outs, d'.existing), cmd), d')
  }

  /** The outcome of a run as the source writes it. */
  function OutcomeAsWritten(u: WorkUnit, conf: string, mk: Creation, p: Process, d: Disk): (Result<(), TaskError>, Disk)
  {
    match Prepared(u, mk, d)
    case Err(e) => (Err(e), d)
    case Ok((outs, d0)) =>
      match ConfArgumentAsWritten(u.variant, conf, d0.existing)
      case Err(e) => (Err(e), d0)
      case Ok(c) => Execute(u, outs, c, p, d0)
  }

  /**
   * The outcome of a run with the intended `-g` argument. It starts the program at most
   * once, and exactly when the targets, the cluster directory and the `-g`
   * argument could be prepared; it removes nothing and adds no path but the
   * cluster directory, the log, its parent and what the program creates; it
   * succeeds only when the program started,
   * did not exit with a positive code and every output exists afterwards;
   * a positive code fails whatever the outputs; and a run that starts
   * nothing fails and writes no log.
   */
  function Outcome(u: WorkUnit, conf: string, mk: Creation, p: Process, d: Disk): (r: (Result<(), TaskError>, Disk))
    ensures d.existing <= r.1.existing
    ensures Outputs(u).Err? ==> r.1 == d
    ensures Outputs(u).Ok? ==>
              r.1.existing <= d.existing + {DirName(Outputs(u).value.dir)} + LogPaths(Outputs(u).value.log) + Created(p)
    ensures r.1.calls == d.calls || r.1.calls == d.calls + 1
    ensures r.1.calls == d.calls + 1 <==>
              Prepared(u, mk, d).Ok? && ConfArgument(u.variant, conf, Prepared(u, mk, d).value.1.existing).Ok?
    ensures r.0.Ok? ==> Outputs(u).Ok? && Complete(Outputs(u).value, r.1.existing)
    ensures r.1.calls == d.calls + 1 ==> Outputs(u).Ok? && (r.0.Ok? <==> p.Launched? && p.rtn <= 0 && Complete(Outputs(u).value, r.1.existing))
    ensures r.1.calls == d.calls + 1 && Outputs(u).Ok? && p.Launched? && p.rtn > 0 ==>
              r.0 == Err(NonZeroReturn(p.rtn, JoinWith(" ", Command(u, Outputs(u).value.dir, conf))))
    ensures r.1.calls == d.calls ==> r.0.Err? && r.1.files == d.files
  {
    match Prepared(u, mk, d)
    case Err(e) => (Err(e), d)
    case Ok((outs, d0)) =>
      match ConfArgument(u.variant, conf, d0.existing)
      case Err(e) => (Err(e), d0)
      case Ok(c) => Execute(u, outs, c, p, d0)
  }

  /** As written, the local task never reaches the program: building its command line raises first. */
  lemma LocalAsWrittenNeverStarts(u: WorkUnit, conf: string, mk: Creation, p: Process, d: Disk)
    requires u.variant == Local
    ensures OutcomeAsWritten(u, conf, mk, p, d).0.Err?
    ensures OutcomeAsWritten(u, conf, mk, p, d).1 == d
    ensures Outputs(u).Ok? ==> OutcomeAsWritten(u, conf, mk, p, d).0 == Err(ConfAttributeMissing)
  {
  }

  /**
   * With the intended argument, the local task with valid outputs starts the
   * program, and a started program's log records a command line that passes
   * the config path after `-g`.
   */
  lemma LocalStarts(u: WorkUnit, conf: string, mk: Creation, p: Process, d: Disk)
    requires u.variant == Local && Outputs(u).Ok?
    ensures Outcome(u, conf, mk, p, d).1.calls == d.calls + 1
    ensures p.Launched? && Outputs(u).value.log.Some? ==>
              var log := Outputs(u).value.log.value;
              var files := Outcome(u, conf, mk, p, d).1.files;
              log in files
              && exists cmd :: ParseCommand(cmd) == Some(Invocation(u.java, u.jar, u.pdb, Outputs(u).value.dir, conf))
                               && files[log] == LogHeader(cmd) + p.output
  {
    var cmd := Command(u, Outputs(u).value.dir, conf);
    assert ParseCommand(cmd) == Some(Invocation(u.java, u.jar, u.pdb, Outputs(u).value.dir, conf));
  }

  /** The cluster task differs from the source in nothing: both define the same run. */
  lemma SgeRunAsWritten(u: WorkUnit, conf: string, mk: Creation, p: Process, d: Disk)
    requires u.variant == Sge
    ensures Outcome(u, conf, mk, p, d) == OutcomeAsWritten(u, conf, mk, p, d)
  {
  }

  /**
   * A zero exit code does not make a run succeed when the program left no
   * `finished` marker, for either variant, once the steps before the
   * program have succeeded.
   */
  lemma ExitZeroWithoutMarker(u: WorkUnit, conf: string, mk: Creation, output: string, created: set<string>, d: Disk)
    requires Prepared(u, mk, d).Ok?
    requires ConfArgument(u.variant, conf, Prepared(u, mk, d).value.1.existing).Ok?
    requires Outputs(u).value.finished !in d.existing + created
    requires Outputs(u).value.log.Some? ==> Outputs(u).value.finished !in {Outputs(u).value.log.value, DirName(Outputs(u).value.log.value)}
    ensures Outcome(u, conf, mk, Launched(0, output, created), d).0 == Err(OutputsMissing)
  {
    var t := Outputs(u).value;
    assert t.finished != DirName(t.dir) by { DirNameShorter(t.dir); }
  }

  /** After a started run with a log, the log holds the header naming the command, then the program's output. */
  lemma RunWritesLog(u: WorkUnit, conf: string, mk: Creation, p: Process, d: Disk)
    requires p.Launched?
    requires Outcome(u, conf, mk, p, d).1.calls == d.calls + 1
    requires Outputs(u).Ok? && Outputs(u).value.log.Some?
    ensures var log := Outputs(u).value.log.value;
            var cmd := Command(u, Outputs(u).value.dir, conf);
            var files := Outcome(u, conf, mk, p, d).1.files;
            log in files && files[log] == LogHeader(cmd) + p.output && files[log][..5] == "CMD: "
  {
    var log := Outputs(u).value.log.value;
    var cmd := Command(u, Outputs(u).value.dir, conf);
    var h := LogHeader(cmd);
    assert (h + p.output)[..5] == h[..5];
  }

  /**
   * The file system one task runs on. `Run` performs the steps of the
   * task's `run` (or `work`) in their order and ends in the state `Outcome`
   * above describes.
   */
  class Workspace {
    var existing: set<string>
    var files: map<string, string>
    var calls: nat

    function State(): Disk
      reads this
    {
      Disk(existing, files, calls)
    }

    constructor (existing: set<string>)
      ensures State() == Disk(existing, map[], 0)
    {
      this.existing := existing;
      files := map[];
      calls := 0;
    }

    /** `os.makedirs(dir)` unless `dir` exists, tolerating a concurrent creation. */
    method EnsureDir(dir: string, mk: Creation) returns (r: Result<(), TaskError>)
      modifies this`existing
      ensures match PrepareDir(old(existing), dir, mk)
              case Ok(e) => r == Ok(()) && existing == e
              case Err(e) => r == Err(e) && existing == old(existing)
    {
      if dir == "" {
        return Err(DirectoryMissing(dir));
      }
      if dir !in existing {
        if mk.succeeds {
          existing := existing + {dir};
        } else if mk.concurrent {
          // another job created it between the check and the attempt
          existing := existing + {dir};
        } else {
          return Err(DirectoryMissing(dir));
        }
      }
      return Ok(());
    }

    /** Opens the log if there is one, writes the header, and runs the program with its output into the log. */
    method Call(cmd: seq<string>, log: Option<string>, p: Process) returns (launched: bool, rtn: int)
      modifies this
      ensures State() == Invoke(old(State()), cmd, log, p)
      ensures launched == p.Launched? && (launched ==> rtn == p.rtn)
    {
      rtn := -1;
      if log.Some? {
        existing := WithParent(existing, log.value);
      }
      calls := calls + 1;
      if p.NotLaunched? {
        return false, rtn;
      }
      if log.Some? {
        var content := LogHeader(cmd);
        content := content + p.output;
        files := files[log.value := content];
        existing := existing + {log.value};
      }
      existing := existing + p.created;
      return true, p.rtn;
    }

    /** The whole run of one work unit. */
    method Run(u: WorkUnit, conf: string, mk: Creation, p: Process) returns (r: Result<(), TaskError>)
      modifies this
      ensures (r, State()) == Outcome(u, conf, mk, p, old(State()))
    {
      var outs := Outputs(u);
      if outs.Err? {
        return Err(OutputFailed(outs.error));
      }
      var t := outs.value;
      if u.variant == Sge {
        var made := EnsureDir(DirName(t.dir), mk);
        if made.Err? {
          return made;
        }
      }
      var c := ConfArgument(u.variant, conf, existing);
      if c.Err? {
        return Err(c.error);
      }
      var cmd := Command(u, t.dir, c.value);
      var launched, rtn := Call(cmd, t.log, p);
      if !launched {
        return Err(LaunchFailed);
      }
      if rtn > 0 {
        return Err(NonZeroReturn(rtn, JoinWith(" ", cmd)));
      }
      if !Complete(t, existing) {
        return Err(OutputsMissing);
      }
      return Ok(());
    }
  }
}
