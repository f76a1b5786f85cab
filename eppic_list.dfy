/**
 * `EppicList` and `SGEEppicList`: a wrapper task that reads a list of
 * structure identifiers, one per line, and requires one work unit for each.
 */
module EppicList {
  import opened PyStr
  import opened EppicTasks

  /** A line names an identifier when it is not blank and does not start with '#'. */
  predicate Keeps(line: string)
  {
    Strip(line) != [] && line[0] != '#'
  }

  function Kept(line: string): (r: seq<string>)
    ensures |r| <= 1
  {
    if Keeps(line) then [Strip(line)] else []
  }

  /** The identifiers of a list file's lines, in file order, duplicates kept. */
  function ParseList(lines: seq<string>): (ids: seq<string>)
    ensures |ids| <= |lines|
    decreases |lines|
  {
    if lines == [] then [] else Kept(lines[0]) + ParseList(lines[1..])
  }

  /** The list of two files back to back is the two lists back to back. */
  lemma {:induction false} ParseListAppend(a: seq<string>, b: seq<string>)
    ensures ParseList(a + b) == ParseList(a) + ParseList(b)
    decreases |a|
  {
    if a == [] {
      assert a + b == b;
    } else {
      assert (a + b)[0] == a[0];
      assert (a + b)[1..] == a[1..] + b;
      ParseListAppend(a[1..], b);
      assert ParseList(a + b) == Kept(a[0]) + ParseList(a[1..] + b);
      assert Kept(a[0]) + (ParseList(a[1..]) + ParseList(b)) == (Kept(a[0]) + ParseList(a[1..])) + ParseList(b);
    }
  }

  /** A non-empty identifier without whitespace at either end: what `strip` leaves. */
  predicate Trimmed(w: string)
  {
    w != [] && !IsSpace(w[0]) && !IsSpace(w[|w| - 1])
  }

  lemma KeptTrimmed(line: string)
    ensures forall i :: 0 <= i < |Kept(line)| ==> Trimmed(Kept(line)[i])
  {
  }

  lemma AllTrimmedConcat(k: seq<string>, r: seq<string>)
    requires forall i :: 0 <= i < |k| ==> Trimmed(k[i])
    requires forall i :: 0 <= i < |r| ==> Trimmed(r[i])
    ensures forall i :: 0 <= i < |k + r| ==> Trimmed((k + r)[i])
  {
  }

  /** Every listed identifier is non-empty and has no surrounding whitespace. */
  lemma {:induction false} ParseListTrimmed(lines: seq<string>)
    ensures forall i :: 0 <= i < |ParseList(lines)| ==> Trimmed(ParseList(lines)[i])
    decreases |lines|
  {
    if lines != [] {
      ParseListTrimmed(lines[1..]);
      KeptTrimmed(lines[0]);
      AllTrimmedConcat(Kept(lines[0]), ParseList(lines[1..]));
    }
  }

  /** A trimmed identifier is its own `strip`: stripping the list again changes nothing. */
  lemma TrimmedIsStripped(w: string)
    requires Trimmed(w)
    ensures Strip(w) == w
  {
    StripOf("", w, "");
    assert "" + w + "" == w;
  }

  /** An identifier is listed exactly when some kept line strips to it. */
  lemma {:induction false} ParseListMembers(lines: seq<string>, id: string)
    ensures id in ParseList(lines) <==> exists i :: 0 <= i < |lines| && Keeps(lines[i]) && Strip(lines[i]) == id
    decreases |lines|
  {
    if lines != [] {
      ParseListMembers(lines[1..], id);
      if id in ParseList(lines[1..]) {
        var i :| 0 <= i < |lines[1..]| && Keeps(lines[1..][i]) && Strip(lines[1..][i]) == id;
        assert lines[i + 1] == lines[1..][i];
      }
      if exists i :: 0 <= i < |lines| && Keeps(lines[i]) && Strip(lines[i]) == id {
        var i :| 0 <= i < |lines| && Keeps(lines[i]) && Strip(lines[i]) == id;
        if i > 0 { assert lines[1..][i - 1] == lines[i]; }
      }
    }
  }

  /** `makeTask` for every identifier, in order. */
  function MakeTasks(variant: Variant, wui: string, ids: seq<string>, jar: string, java: string): (ts: seq<WorkUnit>)
    ensures |ts| == |ids|
    ensures forall i :: 0 <= i < |ts| ==> ts[i] == MakeTask(variant, wui, ids[i], jar, java)
    decreases |ids|
  {
    if ids == [] then [] else [MakeTask(variant, wui, ids[0], jar, java)] + MakeTasks(variant, wui, ids[1..], jar, java)
  }

  /**
   * The work units `requires()` yields after the list file itself: none
   * while the file does not exist; otherwise one per listed identifier, of
   * the list's variant, in file order.
   */
  function BatchTasks(variant: Variant, listExists: bool, content: string, wui: string, jar: string, java: string)
    : (ts: seq<WorkUnit>)
    ensures !listExists ==> ts == []
    ensures listExists ==> |ts| == |ParseList(Lines(content))|
    ensures listExists ==> forall i :: 0 <= i < |ts| ==>
              ts[i].variant == variant && ts[i].pdb == ParseList(Lines(content))[i]
  {
    if listExists then MakeTasks(variant, wui, ParseList(Lines(content)), jar, java) else []
  }

  /** A repeated identifier yields the same work unit twice, with the same outputs and completion marker. */
  lemma DuplicateIdsSameTask(variant: Variant, listExists: bool, content: string, wui: string, jar: string, java: string, i: nat, j: nat)
    requires listExists
    requires i < |ParseList(Lines(content))| && j < |ParseList(Lines(content))|
    requires ParseList(Lines(content))[i] == ParseList(Lines(content))[j]
    ensures BatchTasks(variant, listExists, content, wui, jar, java)[i] == BatchTasks(variant, listExists, content, wui, jar, java)[j]
  {
  }

  lemma ParseListCons(l: string, rest: seq<string>)
    ensures ParseList([l] + rest) == Kept(l) + ParseList(rest)
  {
    assert ([l] + rest)[1..] == rest;
  }

  lemma ParseListOfFive(ls: seq<string>)
    requires |ls| == 5
    ensures ParseList(ls) == Kept(ls[0]) + (Kept(ls[1]) + (Kept(ls[2]) + (Kept(ls[3]) + Kept(ls[4]))))
  {
    ParseListCons(ls[4], []);
    assert ls[4..] == [ls[4]];
    ParseListCons(ls[3], ls[4..]);
    assert ls[3..] == [ls[3]] + ls[4..];
    ParseListCons(ls[2], ls[3..]);
    assert ls[2..] == [ls[2]] + ls[3..];
    ParseListCons(ls[1], ls[2..]);
    assert ls[1..] == [ls[1]] + ls[2..];
    ParseListCons(ls[0], ls[1..]);
    assert ls == [ls[0]] + ls[1..];
  }

  /** The five lines of the example: what each line contributes. */
  lemma ExampleKept()
    ensures Kept("1abc\n") == ["1abc"] && Kept("# 2xyz\n") == [] && Kept(" \n") == []
    ensures Kept("  3def  \n") == ["3def"] && Kept("   #x\n") == ["#x"]
  {
    ExampleStrips();
  }

  lemma ExampleStrips()
    ensures Strip("1abc\n") == "1abc" && Strip("  3def  \n") == "3def" && Strip("   #x\n") == "#x"
    ensures Strip(" \n") == []
  {
    ExampleCores();
    StripOf("", "1abc", "\n");
    assert "1abc\n" == "" + "1abc" + "\n";
    StripOf("  ", "3def", "  \n");
    assert "  3def  \n" == "  " + "3def" + "  \n";
    StripOf("   ", "#x", "\n");
    assert "   #x\n" == "   " + "#x" + "\n";
    StripEmptyIff(" \n");
  }

  lemma ExampleCores()
    ensures AllSpace("") && AllSpace("\n") && AllSpace("  ") && AllSpace("  \n") && AllSpace("   ") && AllSpace(" \n")
    ensures !IsSpace('1') && !IsSpace('c') && !IsSpace('3') && !IsSpace('f') && !IsSpace('#') && !IsSpace('x')
  {
  }

  /**
   * Comments and blank lines are skipped and the rest is stripped; a line
   * whose '#' follows leading blanks is not a comment.
   */
  lemma ParseListExample(lines: seq<string>)
    requires lines == ["1abc\n", "# 2xyz\n", " \n", "  3def  \n", "   #x\n"]
    ensures ParseList(lines) == ["1abc", "3def", "#x"]
  {
    ExampleKept();
    ParseListOfFive(lines);
  }
}
