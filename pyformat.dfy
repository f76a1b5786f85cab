/**
 * The part of Python 2.7's `str.format` the pipeline uses: literal text,
 * the escapes `{{` and `}}`, named fields `{name}` looked up among the
 * keyword arguments, and auto-numbered fields `{}` taken in order from the
 * positional arguments. Substituted values are inserted as they are and
 * are not scanned again. A field with a conversion, a format spec, attribute
 * or index access, or a manual number is outside this model and reported as
 * `Unsupported`.
 */
module PyFormat {
  import opened Results

  datatype FormatError =
    | SingleClose               // ValueError: "Single '}' encountered in format string"
    | SingleOpen                // ValueError: "Single '{' encountered in format string"
    | UnmatchedOpen             // ValueError: a field without its closing '}'
    | MissingKey(name: string)  // KeyError: no keyword argument of this name
    | MissingIndex(index: nat)  // IndexError: `{}` beyond the positional arguments
    | Unsupported(field: string)

  predicate NoBraces(s: string) {
    '{' !in s && '}' !in s
  }

  predicate AllDigits(s: string) {
    forall i :: 0 <= i < |s| ==> '0' <= s[i] <= '9'
  }

  /**
   * A field name that Python looks up, as it is, among the keyword
   * arguments: not a number, and free of the characters that start a
   * conversion (`!`), a format spec (`:`), attribute or index access
   * (`.`, `[`) or a nested field.
   */
  predicate KeywordName(name: string) {
    name != [] && !AllDigits(name)
    && '{' !in name && '}' !in name && '!' !in name && ':' !in name && '.' !in name && '[' !in name
  }

  /** The index of the first '}' at or after `i`, or `|t|` when there is none. */
  function CloseIndex(t: string, i: nat): (k: nat)
    requires i <= |t|
    ensures i <= k <= |t|
    ensures k < |t| ==> t[k] == '}'
    ensures forall j :: i <= j < k ==> t[j] != '}'
    decreases |t| - i
  {
    if i == |t| || t[i] == '}' then i else CloseIndex(t, i + 1)
  }

  /** The replacement text of one field and the next automatic index. */
  function Field(name: string, pos: seq<string>, named: map<string, string>, auto: nat)
    : Result<(string, nat), FormatError>
  {
    if name == [] then
      if auto < |pos| then Ok((pos[auto], auto + 1)) else Err(MissingIndex(auto))
    else if !KeywordName(name) then Err(Unsupported(name))
    else if name in named then Ok((named[name], auto))
    else Err(MissingKey(name))
  }

  function Prepend(p: string, r: Result<string, FormatError>): Result<string, FormatError>
  {
    match r
    case Ok(s) => Ok(p + s)
    case Err(e) => Err(e)
  }

  /** Formatting from automatic index `auto` on, scanning left to right. */
  function Fmt(t: string, pos: seq<string>, named: map<string, string>, auto: nat)
    : Result<string, FormatError>
    decreases |t|
  {
    if t == [] then Ok([])
    else if t[0] == '}' then
      if |t| > 1 && t[1] == '}' then Prepend("}", Fmt(t[2..], pos, named, auto))
      else Err(SingleClose)
    else if t[0] == '{' then
      if |t| == 1 then Err(SingleOpen)
      else if t[1] == '{' then Prepend("{", Fmt(t[2..], pos, named, auto))
      else
        var k := CloseIndex(t, 1);
        if k == |t| then Err(UnmatchedOpen)
        else
          match Field(t[1..k], pos, named, auto)
          case Err(e) => Err(e)
          case Ok((v, next)) => Prepend(v, Fmt(t[k + 1..], pos, named, next))
    else Prepend([t[0]], Fmt(t[1..], pos, named, auto))
  }

  /** `t.format(*pos, **named)`. */
  function Format(t: string, pos: seq<string>, named: map<string, string>): Result<string, FormatError>
  {
    Fmt(t, pos, named, 0)
  }

  /** Literal text without braces formats to itself, whatever the arguments. */
  lemma {:induction false} NoBracesUnchanged(t: string, pos: seq<string>, named: map<string, string>, auto: nat)
    requires NoBraces(t)
    ensures Fmt(t, pos, named, auto) == Ok(t)
    decreases |t|
  {
    if t != [] {
      NoBracesUnchanged(t[1..], pos, named, auto);
      assert [t[0]] + t[1..] == t;
    }
  }

  /** Brace-free literal text in front of a template is copied in front of its result. */
  lemma {:induction false} LiteralPrefix(p: string, s: string, pos: seq<string>, named: map<string, string>, auto: nat)
    requires NoBraces(p)
    ensures Fmt(p + s, pos, named, auto) == Prepend(p, Fmt(s, pos, named, auto))
    decreases |p|
  {
    if p != [] {
      assert (p + s)[0] == p[0];
      assert (p + s)[1..] == p[1..] + s;
      LiteralPrefix(p[1..], s, pos, named, auto);
      assert [p[0]] + p[1..] == p;
      match Fmt(s, pos, named, auto)
      case Ok(x) => assert [p[0]] + (p[1..] + x) == p + x;
      case Err(_) =>
    } else {
      assert p + s == s;
      match Fmt(s, pos, named, auto)
      case Ok(x) => assert p + x == x;
      case Err(_) =>
    }
  }

  /** A keyword field `{name}` is replaced by that keyword argument. */
  lemma KeywordField(name: string, s: string, pos: seq<string>, named: map<string, string>, auto: nat)
    requires KeywordName(name) && name in named
    ensures Fmt("{" + name + "}" + s, pos, named, auto) == Prepend(named[name], Fmt(s, pos, named, auto))
  {
    var t := "{" + name + "}" + s;
    assert t[0] == '{' && t[1] == name[0];
    assert forall j :: 1 <= j < |name| + 1 ==> t[j] == name[j - 1];
    assert CloseIndex(t, 1) == |name| + 1 by {
      CloseIndexSkips(t, 1, |name| + 1);
    }
    assert t[1..|name| + 1] == name;
    assert t[|name| + 2..] == s;
  }

  /** A keyword field naming no keyword argument raises KeyError. */
  lemma MissingKeywordField(name: string, s: string, pos: seq<string>, named: map<string, string>, auto: nat)
    requires KeywordName(name) && name !in named
    ensures Fmt("{" + name + "}" + s, pos, named, auto) == Err(MissingKey(name))
  {
    var t := "{" + name + "}" + s;
    assert t[0] == '{' && t[1] == name[0];
    assert forall j :: 1 <= j < |name| + 1 ==> t[j] == name[j - 1];
    assert CloseIndex(t, 1) == |name| + 1 by {
      CloseIndexSkips(t, 1, |name| + 1);
    }
    assert t[1..|name| + 1] == name;
  }

  /** `KeywordField` for a rest that formats successfully. */
  lemma KeywordFieldThen(name: string, s: string, pos: seq<string>, named: map<string, string>, auto: nat, rest: string)
    requires KeywordName(name) && name in named
    requires Fmt(s, pos, named, auto) == Ok(rest)
    ensures Fmt("{" + name + "}" + s, pos, named, auto) == Ok(named[name] + rest)
  {
    KeywordField(name, s, pos, named, auto);
  }

  /** `LiteralPrefix` for a rest that formats successfully. */
  lemma LiteralThen(p: string, s: string, pos: seq<string>, named: map<string, string>, auto: nat, rest: string)
    requires NoBraces(p)
    requires Fmt(s, pos, named, auto) == Ok(rest)
    ensures Fmt(p + s, pos, named, auto) == Ok(p + rest)
  {
    LiteralPrefix(p, s, pos, named, auto);
  }

  /** A template of two keyword fields between brace-free literal text. */
  lemma TwoKeywordFields(a: string, m: string, b: string, e: string, pos: seq<string>, named: map<string, string>)
    requires KeywordName(a) && a in named && KeywordName(b) && b in named
    requires NoBraces(m) && NoBraces(e)
    ensures Fmt("{" + a + "}" + (m + ("{" + b + "}" + e)), pos, named, 0) == Ok(named[a] + (m + (named[b] + e)))
  {
    NoBracesUnchanged(e, pos, named, 0);
    KeywordFieldThen(b, e, pos, named, 0, e);
    LiteralThen(m, "{" + b + "}" + e, pos, named, 0, named[b] + e);
    KeywordFieldThen(a, m + ("{" + b + "}" + e), pos, named, 0, m + (named[b] + e));
  }

  /** An automatic field `{}` is replaced by the next positional argument. */
  lemma AutoField(s: string, pos: seq<string>, named: map<string, string>, auto: nat)
    requires auto < |pos|
    ensures Fmt("{}" + s, pos, named, auto) == Prepend(pos[auto], Fmt(s, pos, named, auto + 1))
  {
    var t := "{}" + s;
    assert t[1] == '}' && t[2..] == s && t[1..1] == [];
  }

  /** `AutoField` for a rest that formats successfully. */
  lemma AutoFieldThen(s: string, pos: seq<string>, named: map<string, string>, auto: nat, rest: string)
    requires auto < |pos|
    requires Fmt(s, pos, named, auto + 1) == Ok(rest)
    ensures Fmt("{}" + s, pos, named, auto) == Ok(pos[auto] + rest)
  {
    AutoField(s, pos, named, auto);
  }

  /** `EscapedBraces` for a rest that formats successfully. */
  lemma EscapedThen(s: string, pos: seq<string>, named: map<string, string>, auto: nat, rest: string)
    requires Fmt(s, pos, named, auto) == Ok(rest)
    ensures Fmt("{{" + s, pos, named, auto) == Ok("{" + rest)
    ensures Fmt("}}" + s, pos, named, auto) == Ok("}" + rest)
  {
    EscapedBraces(s, pos, named, auto);
  }

  /** The escapes `{{` and `}}` each stand for one brace. */
  lemma EscapedBraces(s: string, pos: seq<string>, named: map<string, string>, auto: nat)
    ensures Fmt("{{" + s, pos, named, auto) == Prepend("{", Fmt(s, pos, named, auto))
    ensures Fmt("}}" + s, pos, named, auto) == Prepend("}", Fmt(s, pos, named, auto))
  {
    assert ("{{" + s)[2..] == s;
    assert ("}}" + s)[2..] == s;
  }

  lemma CloseIndexSkips(t: string, i: nat, k: nat)
    requires i <= k < |t| && t[k] == '}'
    requires forall j :: i <= j < k ==> t[j] != '}'
    ensures CloseIndex(t, i) == k
    decreases k - i
  {
    if i < k { CloseIndexSkips(t, i + 1, k); }
  }

  /** Doubling every brace: the text that `format` turns back into `s`. */
  function Escape(s: string): (r: string)
    ensures |r| >= |s|
  {
    if s == [] then []
    else if s[0] == '{' || s[0] == '}' then [s[0], s[0]] + Escape(s[1..])
    else [s[0]] + Escape(s[1..])
  }

  /** Formatting undoes escaping, whatever the arguments. */
  lemma {:induction false} FormatEscape(s: string, pos: seq<string>, named: map<string, string>, auto: nat)
    ensures Fmt(Escape(s), pos, named, auto) == Ok(s)
    decreases |s|
  {
    if s != [] {
      FormatEscape(s[1..], pos, named, auto);
      var e := Escape(s);
      if s[0] == '{' || s[0] == '}' {
        assert e[0] == s[0] && e[1] == s[0] && e[2..] == Escape(s[1..]);
      } else {
        assert e[0] == s[0] && e[1..] == Escape(s[1..]);
      }
      assert [s[0]] + s[1..] == s;
    }
  }
}
