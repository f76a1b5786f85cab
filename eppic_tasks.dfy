/**
 * The descriptor of one work unit, `EppicCli` (run locally) or
 * `SGEEppicCli` (run as a cluster job), and what is derived from it:
 * its output directory, its output targets and the command line of the
 * external analysis tool.
 */
module EppicTasks {
  import opened Results
  import opened PyStr
  import opened PyFormat
  import opened PosixPath

  datatype Variant = Local | Sge

  /** The task parameters; `out` is a template over `{mid2}` and `{pdb}`. */
  datatype WorkUnit = WorkUnit(variant: Variant, pdb: string, out: string, log: Option<string>,
                               jar: string, java: string)

  /** The output targets: the directory, its `finished` marker and, optionally, the log. */
  datatype Targets = Targets(dir: string, finished: string, log: Option<string>)

  /** `pdb[1:3]`: the middle two characters of a structure code, fewer for a short one. */
  function Mid2(pdb: string): (r: string)
    ensures |r| == if |pdb| >= 3 then 2 else if |pdb| == 2 then 1 else 0
    ensures forall k :: 0 <= k < |r| ==> r[k] == pdb[k + 1]
  {
    Slice(pdb, 1, 3)
  }

  /** `outputdir()`: the `out` template with `mid2` and `pdb` filled in. */
  function OutputDir(u: WorkUnit): Result<string, FormatError>
  {
    Format(u.out, [], map["mid2" := Mid2(u.pdb), "pdb" := u.pdb])
  }

  /** The log target: locally only a non-empty `log`; on the cluster any `log` that is not None. */
  function LogTarget(u: WorkUnit): (r: Option<string>)
    ensures r.Some? ==> r == u.log
    ensures u.variant == Local ==> (r.Some? <==> u.log.Some? && u.log.value != "")
    ensures u.variant == Sge ==> (r.Some? <==> u.log.Some?)
  {
    match u.variant
    case Local => if u.log.Some? && u.log.value != "" then u.log else None
    case Sge => u.log
  }

  /** `"{}/finished".format(dir)`: the completion marker inside the output directory. */
  lemma FinishedPath(dir: string)
    ensures Format("{}/finished", [dir], map[]) == Ok(dir + "/finished")
  {
    assert "{}/finished" == "{}" + "/finished" && NoBraces("/finished");
    OneAutoField("{}/finished", "/finished", dir);
  }

  /** A template made of `{}` and a brace-free tail puts its one argument before the tail. */
  lemma OneAutoField(t: string, tail: string, arg: string)
    requires t == "{}" + tail && NoBraces(tail)
    ensures Format(t, [arg], map[]) == Ok(arg + tail)
  {
    NoBracesUnchanged(tail, [arg], map[], 1);
    AutoFieldThen(tail, [arg], map[], 0, tail);
  }

  /** Why `output()` raises: `format` fails, or a target is given the empty path, which luigi refuses. */
  datatype OutputError = BadTemplate(error: FormatError) | EmptyPath

  /**
   * `output()`: the targets `dir` and `finished` always, `log` as the
   * variant decides. The cluster variant builds the log target first, so
   * an empty log path fails before the directory is formatted.
   */
  function Outputs(u: WorkUnit): (r: Result<Targets, OutputError>)
    ensures u.variant == Sge && u.log == Some("") ==> r == Err(EmptyPath)
    ensures !(u.variant == Sge && u.log == Some("")) ==>
              (r.Ok? <==> OutputDir(u).Ok? && OutputDir(u).value != "")
    ensures OutputDir(u).Err? && !(u.variant == Sge && u.log == Some("")) ==> r == Err(BadTemplate(OutputDir(u).error))
    ensures r.Ok? ==> r.value.dir == OutputDir(u).value && r.value.dir != ""
    ensures r.Ok? ==> r.value.finished == r.value.dir + "/finished"
    ensures r.Ok? ==> r.value.log == LogTarget(u) && (r.value.log.Some? ==> r.value.log.value != "")
  {
    if u.variant == Sge && u.log == Some("") then Err(EmptyPath)
    else
      match OutputDir(u)
      case Err(e) => Err(BadTemplate(e))
      case Ok(dir) =>
        if dir == "" then Err(EmptyPath)
        else
          FinishedPath(dir);
          match Format("{}/finished", [dir], map[])
          case Err(e) => Err(BadTemplate(e))
          case Ok(finished) => Ok(Targets(dir, finished, LogTarget(u)))
  }

  /** luigi's `complete()`: every output target exists. */
  predicate Complete(t: Targets, existing: set<string>)
  {
    t.dir in existing && t.finished in existing && (t.log.Some? ==> t.log.value in existing)
  }

  /** What the command line of the analysis tool carries besides its fixed flags. */
  datatype Invocation = Invocation(java: string, jar: string, pdb: string, outdir: string, conf: string)

  /** Recognises the fixed shape of the command line and extracts its five variable arguments. */
  function ParseCommand(cmd: seq<string>): Option<Invocation>
  {
    if |cmd| == 17 && cmd[1] == "-Xmx3g" && cmd[2] == "-Xmn1g" && cmd[3] == "-jar" && cmd[5] == "-i"
       && cmd[7] == "-o" && cmd[9] == "-a" && cmd[10] == "1" && cmd[11] == "-w" && cmd[12] == "-g"
       && cmd[14] == "-l" && cmd[15] == "-P" && cmd[16] == "-p"
    then Some(Invocation(cmd[0], cmd[4], cmd[6], cmd[8], cmd[13]))
    else None
  }

  /**
   * The command line: one thread, web-UI data, images, assembly diagrams
   * and interface coordinates, never entropy scores (`-s`) unless one of
   * the variable arguments happens to be that string.
   */
  function Command(u: WorkUnit, outdir: string, conf: string): (cmd: seq<string>)
    ensures ParseCommand(cmd) == Some(Invocation(u.java, u.jar, u.pdb, outdir, conf))
    ensures forall i :: 0 <= i < |cmd| && cmd[i] == "-s" ==> i in {0, 4, 6, 8, 13}
  {
    [u.java, "-Xmx3g", "-Xmn1g", "-jar", u.jar, "-i", u.pdb, "-o", outdir,
     "-a", "1", "-w", "-g", conf, "-l", "-P", "-p"]
  }

  /** The first line written to the log: `"CMD: "` and the space-joined command. */
  function LogHeader(cmd: seq<string>): (h: string)
    ensures |h| >= 5 && h[..5] == "CMD: "
  {
    "CMD: " + JoinWith(" ", cmd)
  }

  /** The header records the command: splitting it at spaces gives back every argument. */
  lemma LogHeaderRecordsCommand(cmd: seq<string>)
    requires cmd != [] && forall i :: 0 <= i < |cmd| ==> ' ' !in cmd[i]
    ensures Split(LogHeader(cmd)[5..], ' ') == cmd
  {
    assert LogHeader(cmd)[5..] == JoinWith([' '], cmd);
    SplitJoinWith(cmd, ' ');
  }

  /** `makeTask(pdb)` of either list task: the output directory and log path laid out under `wui`. */
  function MakeTask(variant: Variant, wui: string, pdb: string, jar: string, java: string): (t: WorkUnit)
    ensures t.variant == variant && t.pdb == pdb && t.jar == jar && t.java == java
  {
    var outputdir := JoinAll(wui, ["data", "divided", Mid2(pdb), pdb]);
    WorkUnit(variant, pdb, outputdir, Some(Join(outputdir, pdb + ".out")), jar, java)
  }

  /** The local and the cluster list derive the same paths. */
  lemma MakeTaskVariantsAgree(wui: string, pdb: string, jar: string, java: string)
    ensures MakeTask(Local, wui, pdb, jar, java).(variant := Sge) == MakeTask(Sge, wui, pdb, jar, java)
  {
  }

  /** The directory of the output directory: `<wui>/data/divided`, then `/<mid2>` when it is not empty. */
  function DividedDir(wui: string, pdb: string): string
  {
    wui + "/data/divided" + (if Mid2(pdb) == [] then "" else "/" + Mid2(pdb))
  }

  lemma LayoutPieces()
    ensures "data" != [] && "data"[0] != '/' && !EndsWithSlash("data")
    ensures "divided" != [] && "divided"[0] != '/' && !EndsWithSlash("divided")
    ensures ".out" != [] && ".out"[0] != '/'
    ensures "/data/divided" == "/" + "data" + "/" + "divided"
  {
  }

  /** Where `outputdir` of `makeTask` lands, for a root not ending in '/' and an identifier without '/'. */
  lemma OutLayout(wui: string, pdb: string)
    requires wui != [] && !EndsWithSlash(wui)
    requires pdb != [] && NoSlash(pdb)
    ensures JoinAll(wui, ["data", "divided", Mid2(pdb), pdb]) == DividedDir(wui, pdb) + "/" + pdb
  {
    LayoutPieces();
    var mid := Mid2(pdb);
    JoinAllFour(wui, "data", "divided", mid, pdb);
    JoinRelative(wui, "data");
    var s1 := wui + "/" + "data";
    EndsWithSlashAppend(wui + "/", "data");
    JoinRelative(s1, "divided");
    var s2 := s1 + "/" + "divided";
    assert s2 == wui + "/data/divided";
    EndsWithSlashAppend(s1 + "/", "divided");
    assert pdb[0] != '/';
    if mid == [] {
      JoinRelative(s2, mid);
      EndsWithSlashAppend(s2, "/");
      assert Join(s2 + "/", pdb) == s2 + "/" + pdb;
    } else {
      assert mid[0] == pdb[1] && mid[|mid| - 1] == pdb[|mid|];
      JoinRelative(s2, mid);
      EndsWithSlashAppend(s2 + "/", mid);
      JoinRelative(s2 + "/" + mid, pdb);
      assert s2 + "/" + mid == DividedDir(wui, pdb);
    }
  }

  /**
   * The layout `makeTask` builds, for a root that does not end in '/' and
   * an identifier without '/': `<wui>/data/divided/<pdb[1:3]>/<pdb>`, with
   * the log `<pdb>.out` inside it, and the parent directory the cluster
   * task makes sure of.
   */
  lemma MakeTaskLayout(variant: Variant, wui: string, pdb: string, jar: string, java: string)
    requires wui != [] && !EndsWithSlash(wui)
    requires pdb != [] && NoSlash(pdb)
    ensures MakeTask(variant, wui, pdb, jar, java).out == DividedDir(wui, pdb) + "/" + pdb
    ensures MakeTask(variant, wui, pdb, jar, java).log
         == Some(DividedDir(wui, pdb) + "/" + pdb + "/" + pdb + ".out")
    ensures DirName(MakeTask(variant, wui, pdb, jar, java).out) == DividedDir(wui, pdb)
  {
    LayoutPieces();
    OutLayout(wui, pdb);
    var mid := Mid2(pdb);
    var prefix := DividedDir(wui, pdb);
    var out := prefix + "/" + pdb;
    EndsWithSlashAppend(prefix + "/", pdb);
    JoinRelative(out, pdb + ".out");
    assert out + "/" + (pdb + ".out") == prefix + "/" + pdb + "/" + pdb + ".out";
    assert prefix != [] && !EndsWithSlash(prefix) by {
      if mid == [] {
        EndsWithSlashAppend(wui + "/" + "data" + "/", "divided");
        assert prefix == wui + "/" + "data" + "/" + "divided";
      } else {
        assert mid[|mid| - 1] == pdb[|mid|];
        EndsWithSlashAppend(wui + "/data/divided" + "/", mid);
      }
    }
    DirNameOfJoin(prefix, pdb);
  }

  lemma ExamplePieces()
    ensures Mid2("1abc") == "ab"
    ensures "/data" + "/data/divided" + "/" + "ab" + "/" + "1abc" == "/data/data/divided/ab/1abc"
    ensures "1abc" != [] && NoSlash("1abc") && "/data" != [] && !EndsWithSlash("/data")
  {
    assert "1abc"[1..3] == "ab";
  }

  /** `"1abc"` under the root `"/data"` lands in `/data/data/divided/ab/1abc`. */
  lemma MakeTaskExample(variant: Variant, jar: string, java: string)
    ensures MakeTask(variant, "/data", "1abc", jar, java).out == "/data/data/divided/ab/1abc"
  {
    ExamplePieces();
    MakeTaskLayout(variant, "/data", "1abc", jar, java);
    assert DividedDir("/data", "1abc") == "/data" + "/data/divided" + ("/" + "ab");
  }

  lemma NoBracesJoin(a: string, b: string)
    requires NoBraces(a) && NoBraces(b)
    ensures NoBraces(Join(a, b))
  {
  }

  lemma {:induction false} NoBracesJoinAll(a: string, parts: seq<string>)
    requires NoBraces(a) && forall i :: 0 <= i < |parts| ==> NoBraces(parts[i])
    ensures NoBraces(JoinAll(a, parts))
    decreases |parts|
  {
    if parts != [] {
      NoBracesJoin(a, parts[0]);
      NoBracesJoinAll(Join(a, parts[0]), parts[1..]);
    }
  }

  /**
   * The directory `makeTask` passes as `out` holds no placeholders when
   * neither the root nor the identifier holds a brace, so `outputdir()`
   * returns it unchanged.
   */
  lemma MadeTaskOutputDir(variant: Variant, wui: string, pdb: string, jar: string, java: string)
    requires NoBraces(wui) && NoBraces(pdb)
    ensures OutputDir(MakeTask(variant, wui, pdb, jar, java)) == Ok(MakeTask(variant, wui, pdb, jar, java).out)
  {
    var mid := Mid2(pdb);
    assert NoBraces(mid) by {
      forall k | 0 <= k < |mid| ensures mid[k] != '{' && mid[k] != '}' { assert mid[k] == pdb[k + 1]; }
    }
    assert NoBraces("data") && NoBraces("divided");
    var parts := ["data", "divided", mid, pdb];
    NoBracesJoinAll(wui, parts);
    var t := MakeTask(variant, wui, pdb, jar, java);
    NoBracesUnchanged(t.out, [], map["mid2" := mid, "pdb" := pdb], 0);
  }

  /** The source of the default `out`, before its first `format` with the output root. */
  const DefaultOutSource: string := "{}/data/divided/{{mid2}}/{{pdb}}"

  /** The default `out` template of a work unit: `out = "..."`.format(wui_files). */
  function DefaultOut(wui: string): Result<string, FormatError>
  {
    Format(DefaultOutSource, [wui], map[])
  }

  lemma DefaultOutPieces()
    ensures DefaultOutSource
         == "{}" + ("/data/divided/" + ("{{" + ("mid2" + ("}}" + ("/" + ("{{" + ("pdb" + "}}")))))))
  {
  }

  lemma DefaultOutLiterals()
    ensures NoBraces("/data/divided/") && NoBraces("mid2") && NoBraces("/") && NoBraces("pdb")
  {
  }

  lemma DefaultOutResult()
    ensures "/data/divided/" + ("{" + ("mid2" + ("}" + ("/" + ("{" + ("pdb" + "}"))))))
         == "/data/divided/{mid2}/{pdb}"
  {
  }

  /** After its first `format`, the default template is `<wui>/data/divided/{mid2}/{pdb}`. */
  lemma DefaultOutTemplate(wui: string)
    ensures DefaultOut(wui) == Ok(wui + "/data/divided/{mid2}/{pdb}")
  {
    DefaultOutPieces();
    DefaultOutLiterals();
    DefaultOutResult();
    var pos: seq<string> := [wui];
    var e: map<string, string> := map[];
    NoBracesUnchanged("", pos, e, 1);
    EscapedThen("", pos, e, 1, "");
    assert "}}" + "" == "}}" && "}" + "" == "}";
    LiteralThen("pdb", "}}", pos, e, 1, "}");
    EscapedThen("pdb" + "}}", pos, e, 1, "pdb" + "}");
    LiteralThen("/", "{{" + ("pdb" + "}}"), pos, e, 1, "{" + ("pdb" + "}"));
    EscapedThen("/" + ("{{" + ("pdb" + "}}")), pos, e, 1, "/" + ("{" + ("pdb" + "}")));
    var r1 := "}" + ("/" + ("{" + ("pdb" + "}")));
    LiteralThen("mid2", "}}" + ("/" + ("{{" + ("pdb" + "}}"))), pos, e, 1, r1);
    EscapedThen("mid2" + ("}}" + ("/" + ("{{" + ("pdb" + "}}")))), pos, e, 1, "mid2" + r1);
    var t2 := "{{" + ("mid2" + ("}}" + ("/" + ("{{" + ("pdb" + "}}")))));
    LiteralThen("/data/divided/", t2, pos, e, 1, "{" + ("mid2" + r1));
    AutoFieldThen("/data/divided/" + t2, pos, e, 0, "/data/divided/" + ("{" + ("mid2" + r1)));
  }

  lemma OutTemplatePieces()
    ensures "/data/divided/{mid2}/{pdb}" == "/data/divided/" + "{mid2}/{pdb}"
    ensures "{mid2}/{pdb}" == "{" + "mid2" + "}" + ("/" + ("{" + "pdb" + "}" + ""))
    ensures KeywordName("mid2") && KeywordName("pdb")
    ensures NoBraces("/data/divided/") && NoBraces("/") && NoBraces("")
  {
    assert !('0' <= "mid2"[0] <= '9');
    assert !('0' <= "pdb"[0] <= '9');
  }

  /** A brace-free prefix, then two keyword fields around a brace-free middle. */
  lemma PrefixedFields(p: string, t: string, a: string, m: string, b: string, named: map<string, string>)
    requires NoBraces(p) && NoBraces(m) && KeywordName(a) && KeywordName(b) && a in named && b in named
    requires t == "{" + a + "}" + (m + ("{" + b + "}" + ""))
    ensures Format(p + t, [], named) == Ok(p + named[a] + m + named[b])
  {
    NoBracesUnchanged("", [], named, 0);
    TwoKeywordFields(a, m, b, "", [], named);
    LiteralThen(p, t, [], named, 0, named[a] + (m + (named[b] + "")));
    assert p + (named[a] + (m + (named[b] + ""))) == p + named[a] + m + named[b];
  }

  /**
   * A work unit with the default `out` lands in
   * `<wui>/data/divided/<pdb[1:3]>/<pdb>` whenever the root is brace-free;
   * the identifier itself is inserted as it is.
   */
  lemma DefaultOutputDir(variant: Variant, wui: string, pdb: string, log: Option<string>, jar: string, java: string)
    requires NoBraces(wui)
    ensures DefaultOut(wui).Ok?
    ensures OutputDir(WorkUnit(variant, pdb, DefaultOut(wui).value, log, jar, java))
         == Ok(wui + "/data/divided/" + Mid2(pdb) + "/" + pdb)
  {
    DefaultOutTemplate(wui);
    OutTemplatePieces();
    var kw := map["mid2" := Mid2(pdb), "pdb" := pdb];
    var p := wui + "/data/divided/";
    assert wui + "/data/divided/{mid2}/{pdb}" == p + "{mid2}/{pdb}";
    PrefixedFields(p, "{mid2}/{pdb}", "mid2", "/", "pdb", kw);
  }
}
