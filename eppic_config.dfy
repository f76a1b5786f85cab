/**
 * EppicConfig: the pipeline's parameter set. Every string-valued attribute
 * is passed through `format` with the instance's own attribute dictionary
 * as keyword arguments, again and again until the string stops changing,
 * so that parameters may refer to one another (`eppic_db = "eppic3_{db}"`).
 */
module Config {
  import opened Results
  import opened PyFormat

  /** A raw attribute value: a string, which has `format`, or anything else, given by its `str()`. */
  datatype Value = Str(s: string) | Other(shown: string)

  /** Python's `None`, which has no `format` and shows as `None`. */
  const PyNone: Value := Other("None")

  /** What `format` inserts for a value used as a keyword argument. */
  function Shown(v: Value): string
  {
    match v
    case Str(s) => s
    case Other(t) => t
  }

  /** The keyword arguments `**self.__dict__`. */
  function Keywords(d: map<string, Value>): (kw: map<string, string>)
    ensures kw.Keys == d.Keys
    ensures forall k :: k in d ==> kw[k] == Shown(d[k])
  {
    map k | k in d :: Shown(d[k])
  }

  datatype ConfigError =
    | AttributeMissing(name: string)   // AttributeError from the attribute lookup
    | BadTemplate(error: FormatError)  // what `format` raised
    | MissingParameter(name: string)   // a parameter without default has no configured value

  /**
   * The outcome of reading an attribute. `Unresolved` stands for a loop
   * that had not reached a fixed point when the model's fuel ran out; the
   * source has no iteration cap and would go on looping.
   */
  datatype Resolution = Resolved(value: Value) | Failed(error: ConfigError) | Unresolved

  /**
   * The substitution loop started on `value`, allowed `fuel` more passes:
   * format once, and while the result differs, take it and format again.
   */
  function Iterate(value: string, kw: map<string, string>, fuel: nat): (r: Resolution)
    ensures r.Resolved? ==> r.value.Str? && Format(r.value.s, [], kw) == Ok(r.value.s)
    ensures r.Failed? ==> r.error.BadTemplate?
    decreases fuel
  {
    match Format(value, [], kw)
    case Err(e) => Failed(BadTemplate(e))
    case Ok(next) =>
      if next == value then Resolved(Str(value))
      else if fuel == 0 then Unresolved
      else Iterate(next, kw, fuel - 1)
  }

  /**
   * `config.<name>`: a missing attribute raises; a value without `format`
   * comes back as it is; a string is substituted to its fixed point, each
   * pass drawing on the same raw dictionary.
   */
  function Resolve(d: map<string, Value>, name: string, fuel: nat): (r: Resolution)
    ensures r == Failed(AttributeMissing(name)) <==> name !in d
    ensures name in d && d[name].Other? ==> r == Resolved(d[name])
    ensures r.Resolved? && r.value.Str? ==> Format(r.value.s, [], Keywords(d)) == Ok(r.value.s)
  {
    if name !in d then Failed(AttributeMissing(name))
    else
      match d[name]
      case Other(_) => Resolved(d[name])
      case Str(s) => Iterate(s, Keywords(d), fuel)
  }

  /** Once the loop has stopped, more fuel changes nothing. */
  lemma {:induction false} IterateMoreFuel(value: string, kw: map<string, string>, fuel: nat, more: nat)
    requires Iterate(value, kw, fuel) != Unresolved && fuel <= more
    ensures Iterate(value, kw, more) == Iterate(value, kw, fuel)
    decreases fuel
  {
    match Format(value, [], kw)
    case Err(_) =>
    case Ok(next) =>
      if next != value {
        IterateMoreFuel(next, kw, fuel - 1, more - 1);
      }
  }

  /** Resolving with more fuel gives the same answer once one is reached. */
  lemma ResolveMoreFuel(d: map<string, Value>, name: string, fuel: nat, more: nat)
    requires Resolve(d, name, fuel) != Unresolved && fuel <= more
    ensures Resolve(d, name, more) == Resolve(d, name, fuel)
  {
    if name in d && d[name].Str? {
      IterateMoreFuel(d[name].s, Keywords(d), fuel, more);
    }
  }

  /** Two parameters that name each other (`a = "{b}"`, `b = "{a}"`) never reach a fixed point. */
  lemma CycleNeverResolves(d: map<string, Value>, fuel: nat)
    requires "a" in d && d["a"] == Str("{b}")
    requires "b" in d && d["b"] == Str("{a}")
    ensures Resolve(d, "a", fuel) == Unresolved
  {
    var kw := Keywords(d);
    assert KeywordName("a") by { assert !('0' <= "a"[0] <= '9'); }
    assert KeywordName("b") by { assert !('0' <= "b"[0] <= '9'); }
    KeywordField("b", "", [], kw, 0);
    KeywordField("a", "", [], kw, 0);
    NoBracesUnchanged("", [], kw, 0);
    assert "{b}" == "{" + "b" + "}" + "";
    assert "{a}" == "{" + "a" + "}" + "";
    assert "{a}" + "" == "{a}" && "{b}" + "" == "{b}";
    assert kw["a"] == "{b}" && kw["b"] == "{a}";
    assert Format("{b}", [], kw) == Ok("{a}");
    assert Format("{a}", [], kw) == Ok("{b}");
    Alternates(kw, fuel);
  }

  lemma {:induction false} Alternates(kw: map<string, string>, fuel: nat)
    requires Format("{b}", [], kw) == Ok("{a}") && Format("{a}", [], kw) == Ok("{b}")
    ensures Iterate("{b}", kw, fuel) == Unresolved && Iterate("{a}", kw, fuel) == Unresolved
    decreases fuel
  {
    if fuel > 0 { Alternates(kw, fuel - 1); }
  }

  /** The declared defaults of the parameters that have one. */
  const Defaults: map<string, string> := map[
    "eppic_db" := "eppic3_{db}",
    "uniprot_db" := "uniprot_{db}",
    "db_host" := "localhost",
    "eppic_cli_conf_file" := "./eppic_cli_{db}.conf",
    "eppic_source_dir" := ".",
    "eppic_version" := "3.0-SNAPSHOT",
    // {eppic_source_dir}/eppic-cli/target/uber-eppic-cli-{eppic_version}.jar
    "eppic_cli_jar" := "{" + "eppic_source_dir" + "}" + ("/eppic-cli/target/uber-eppic-cli-" + ("{" + "eppic_version" + "}" + ".jar")),
    "eppic_db_jar" := "{eppic_source_dir}/eppic-dbtools/target/uber-eppic-dbtools-{eppic_version}.jar",
    "local_cif_dir" := "",
    "sifts_file" := "{blast_db_dir}/pdb_chain_uniprot.lst",
    "java" := "java",
    "db_user" := "",
    "db_password" := "",
    "db_root_user" := "",
    "db_root_password" := ""
  ]

  /** The parameters without a default, in declaration order. */
  const Required: seq<string> := [
    "db", "wui_files", "blast_db_dir", "blast_cache_dir", "blastclust",
    "blast_data", "blastp", "clustalo", "pymol", "graphviz"
  ]

  /** The first of `names`, in their order, that is not configured. */
  function FirstMissing(names: seq<string>, configured: map<string, string>): (r: Option<string>)
    ensures r.None? <==> forall i :: 0 <= i < |names| ==> names[i] in configured
    ensures r.Some? ==> r.value in names && r.value !in configured
    ensures r.Some? ==> exists i :: 0 <= i < |names| && names[i] == r.value
                                   && forall j :: 0 <= j < i ==> names[j] in configured
    decreases |names|
  {
    if names == [] then None
    else if names[0] !in configured then Some(names[0])
    else
      var r := FirstMissing(names[1..], configured);
      assert r.Some? ==> exists i :: 0 < i < |names| && names[i] == r.value
                                   && forall j :: 0 <= j < i ==> names[j] in configured by {
        if r.Some? {
          var i :| 0 <= i < |names[1..]| && names[1..][i] == r.value
                   && forall j :: 0 <= j < i ==> names[1..][j] in configured;
          assert forall j :: 1 <= j < i + 1 ==> names[j] == names[1..][j - 1];
        }
      }
      r
  }

  /** The declared parameters: those with a default and those without. */
  const Parameters: set<string> := Defaults.Keys + set n | n in Required

  /**
   * The attribute dictionary of an `EppicConfig()` whose parameters take
   * the `configured` values over their defaults. A parameter without default
   * and without configured value is an error, luigi naming the first such
   * parameter in declaration order; configured names that are not
   * parameters do not become attributes.
   */
  function Instantiate(configured: map<string, string>): (r: Result<map<string, Value>, ConfigError>)
    ensures r.Ok? <==> forall i :: 0 <= i < |Required| ==> Required[i] in configured
    ensures r.Err? ==> r.error.MissingParameter? && r.error.name in Required && r.error.name !in configured
    ensures r.Err? ==> exists i :: 0 <= i < |Required| && Required[i] == r.error.name
                                   && forall j :: 0 <= j < i ==> Required[j] in configured
    ensures r.Ok? ==> r.value.Keys == Parameters
    ensures r.Ok? ==> forall k :: k in configured && k in Parameters ==> r.value[k] == Str(configured[k])
    ensures r.Ok? ==> forall k :: k in Defaults && k !in configured ==> r.value[k] == Str(Defaults[k])
  {
    match FirstMissing(Required, configured)
    case Some(name) => Err(MissingParameter(name))
    case None =>
      Ok(map k | k in Parameters ::
           Str(if k in configured then configured[k] else if k in Defaults then Defaults[k] else ""))
  }

  /**
   * The keyword arguments an instance passes to `format`: one per declared
   * parameter, bound to its configured value or else its default.
   */
  lemma InstantiateKeywords(configured: map<string, string>, d: map<string, Value>)
    requires Instantiate(configured) == Ok(d)
    ensures Keywords(d).Keys == Parameters
    ensures forall k :: k in configured && k in Parameters ==> Keywords(d)[k] == configured[k]
    ensures forall k :: k in Defaults && k !in configured ==> Keywords(d)[k] == Defaults[k]
  {
  }

  /**
   * A configured name that is not a parameter is no attribute of the
   * instance, and a template referring to it raises KeyError.
   */
  lemma StrayNameMissing(configured: map<string, string>, d: map<string, Value>, name: string, s: string, fuel: nat)
    requires Instantiate(configured) == Ok(d)
    requires name !in Parameters && KeywordName(name)
    ensures Resolve(d, name, fuel) == Failed(AttributeMissing(name))
    ensures Format("{" + name + "}" + s, [], Keywords(d)) == Err(MissingKey(name))
  {
    MissingKeywordField(name, s, [], Keywords(d), 0);
  }

  /** `eppic_db = "eppic3_{db}"` resolves to `"eppic3_"` followed by a brace-free `db`. */
  lemma EppicDbChain(d: map<string, Value>, db: string, fuel: nat)
    requires "eppic_db" in d && d["eppic_db"] == Str("eppic3_{db}")
    requires "db" in d && d["db"] == Str(db) && NoBraces(db)
    requires fuel >= 1
    ensures Resolve(d, "eppic_db", fuel) == Resolved(Str("eppic3_" + db))
  {
    var kw := Keywords(d);
    var field := "{" + "db" + "}" + "";
    assert kw["db"] == db;
    assert KeywordName("db") by { assert !('0' <= "db"[0] <= '9'); }
    assert Fmt(field, [], kw, 0) == Ok(db) by {
      KeywordField("db", "", [], kw, 0);
      NoBracesUnchanged("", [], kw, 0);
      assert db + "" == db;
    }
    assert Fmt("eppic3_" + field, [], kw, 0) == Ok("eppic3_" + db) by {
      LiteralPrefix("eppic3_", field, [], kw, 0);
    }
    assert "eppic3_{db}" == "eppic3_" + field;
    NoBracesUnchanged("eppic3_" + db, [], kw, 0);
    assert Iterate("eppic3_" + db, kw, fuel - 1) == Resolved(Str("eppic3_" + db));
    assert Resolve(d, "eppic_db", fuel) == Iterate("eppic3_{db}", kw, fuel);
  }

  /** The declaration of `eppic_db`: its default refers to the parameter `db`, which has none. */
  lemma EppicDbDeclared()
    ensures "eppic_db" in Defaults && Defaults["eppic_db"] == "eppic3_{db}"
    ensures "db" in Parameters && "db" !in Defaults
  {
    assert Required[0] == "db";
  }

  /** Without an override, `eppic_db` resolves to `"eppic3_"` followed by the database date. */
  lemma DefaultEppicDb(configured: map<string, string>, d: map<string, Value>, fuel: nat)
    requires Instantiate(configured) == Ok(d)
    requires "eppic_db" !in configured && "db" in configured && NoBraces(configured["db"])
    requires fuel >= 1
    ensures Resolve(d, "eppic_db", fuel) == Resolved(Str("eppic3_" + configured["db"]))
  {
    EppicDbDeclared();
    EppicDbChain(d, configured["db"], fuel);
  }

  /**
   * A parameter whose template holds two keyword fields resolves in one
   * pass to the template with both values inserted, once those values are
   * brace-free strings.
   */
  lemma TwoFieldChain(d: map<string, Value>, name: string, a: string, m: string, b: string, e: string, fuel: nat)
    requires name in d && d[name] == Str("{" + a + "}" + (m + ("{" + b + "}" + e)))
    requires KeywordName(a) && a in d && d[a].Str? && NoBraces(d[a].s)
    requires KeywordName(b) && b in d && d[b].Str? && NoBraces(d[b].s)
    requires NoBraces(m) && NoBraces(e)
    requires fuel >= 1
    ensures Resolve(d, name, fuel) == Resolved(Str(d[a].s + (m + (d[b].s + e))))
  {
    var kw := Keywords(d);
    var r := d[a].s + (m + (d[b].s + e));
    TwoKeywordFields(a, m, b, e, [], kw);
    NoBracesUnchanged(r, [], kw, 0);
    assert Iterate(r, kw, fuel - 1) == Resolved(Str(r));
    assert Resolve(d, name, fuel) == Iterate(d[name].s, kw, fuel);
  }

  /** The declared defaults the CLI jar path is built from. */
  lemma CliJarDeclared()
    ensures "eppic_source_dir" in Defaults && Defaults["eppic_source_dir"] == "."
    ensures "eppic_version" in Defaults && Defaults["eppic_version"] == "3.0-SNAPSHOT"
    ensures "eppic_cli_jar" in Defaults && Defaults["eppic_cli_jar"] == "{" + "eppic_source_dir" + "}" + ("/eppic-cli/target/uber-eppic-cli-" + ("{" + "eppic_version" + "}" + ".jar"))
  {
  }

  /** The template's literal text, and the defaults it draws on, are brace-free; its field names are keyword names. */
  lemma CliJarMiddle()
    ensures NoBraces("/eppic-cli/target/uber-eppic-cli-")
  {
  }

  lemma CliJarPieces()
    ensures NoBraces(".jar") && NoBraces(".") && NoBraces("3.0-SNAPSHOT")
  {
  }

  lemma CliJarNames()
    ensures KeywordName("eppic_source_dir") && KeywordName("eppic_version")
  {
    assert !('0' <= "eppic_source_dir"[0] <= '9');
    assert !('0' <= "eppic_version"[0] <= '9');
  }

  /**
   * With the default source directory and version, the CLI jar path
   * resolves in full, to `./eppic-cli/target/uber-eppic-cli-3.0-SNAPSHOT.jar`.
   */
  lemma DefaultCliJar(configured: map<string, string>, d: map<string, Value>, fuel: nat)
    requires Instantiate(configured) == Ok(d)
    requires "eppic_source_dir" !in configured && "eppic_version" !in configured
    requires "eppic_cli_jar" !in configured
    requires fuel >= 1
    ensures Resolve(d, "eppic_cli_jar", fuel)
         == Resolved(Str("." + ("/eppic-cli/target/uber-eppic-cli-" + ("3.0-SNAPSHOT" + ".jar"))))
  {
    CliJarDeclared();
    CliJarMiddle();
    CliJarPieces();
    CliJarNames();
    TwoFieldChain(d, "eppic_cli_jar", "eppic_source_dir", "/eppic-cli/target/uber-eppic-cli-",
                  "eppic_version", ".jar", fuel);
  }

  /** An `EppicConfig` instance: its attribute dictionary, read but never changed here. */
  class EppicConfig {
    var params: map<string, Value>

    constructor (params: map<string, Value>)
      ensures this.params == params
    {
      this.params := params;
    }

    /** `__getattribute__`, with the substitution loop allowed `fuel` passes. */
    method GetAttribute(name: string, fuel: nat) returns (r: Resolution)
      ensures r == Resolve(params, name, fuel)
    {
      if name !in params {
        return Failed(AttributeMissing(name));
      }
      var raw := params[name];
      if !raw.Str? {
        return Resolved(raw);
      }
      var kw := Keywords(params);
      var value := raw.s;
      var formatted := Format(value, [], kw);
      if formatted.Err? {
        return Failed(BadTemplate(formatted.error));
      }
      var newvalue := formatted.value;
      var passes := 0;
      while newvalue != value
        invariant passes <= fuel
        invariant Format(value, [], kw) == Ok(newvalue)
        invariant Iterate(value, kw, fuel - passes) == Resolve(params, name, fuel)
        decreases fuel - passes
      {
        if passes == fuel {
          return Unresolved;
        }
        value := newvalue;
        formatted := Format(value, [], kw);
        if formatted.Err? {
          return Failed(BadTemplate(formatted.error));
        }
        newvalue := formatted.value;
        passes := passes + 1;
      }
      return Resolved(Str(value));
    }

    /** `get(key, default=None)`: the attribute, or `default` only when the lookup raised AttributeError. */
    method Get(key: string, fuel: nat, default: Value := PyNone) returns (r: Resolution)
      ensures key in params ==> r == Resolve(params, key, fuel)
      ensures key !in params ==> r == Resolved(default)
    {
      r := GetAttribute(key, fuel);
      if r == Failed(AttributeMissing(key)) {
        r := Resolved(default);
      }
    }
  }
}
