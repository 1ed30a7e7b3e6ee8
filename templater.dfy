/** The template helper functions the task runner adds to its template
    engine: line joining and splitting, the executable suffix, the deprecated
    `IsSH`, and the function table built at start-up, in which these helpers
    take precedence over the library ones. Strings are sequences of
    characters; the patterns involved are single ASCII bytes, which UTF-8
    never uses inside a multi-byte character, so working on characters gives
    the same results as Go's byte-wise functions. */
module Templater {
  import opened Wrappers

  /** `strings.ReplaceAll` for a non-empty pattern: every non-overlapping
      occurrence, scanning left to right, is replaced. */
  function ReplaceAll(s: string, pattern: string, replacement: string): string
    requires pattern != []
    decreases |s|
  {
    if |s| < |pattern| then s
    else if s[..|pattern|] == pattern then replacement + ReplaceAll(s[|pattern|..], pattern, replacement)
    else [s[0]] + ReplaceAll(s[1..], pattern, replacement)
  }

  /** `strings.Split` on a one-character separator: the pieces between
      separators, always at least one. */
  function Split(s: string, sep: char): (parts: seq<string>)
    ensures |parts| >= 1
    decreases |s|
  {
    if s == [] then [""]
    else
      var rest := Split(s[1..], sep);
      if s[0] == sep then [""] + rest
      else [[s[0]] + rest[0]] + rest[1..]
  }

  /** `strings.Join`. */
  function Join(parts: seq<string>, sep: string): string
  {
    if parts == [] then ""
    else if |parts| == 1 then parts[0]
    else parts[0] + sep + Join(parts[1..], sep)
  }

  /** The number of occurrences of `c` in `s`. */
  function Count(s: string, c: char): nat
  {
    if s == [] then 0 else (if s[0] == c then 1 else 0) + Count(s[1..], c)
  }

  /** `s` with every "\r\n" turned into "\n". */
  function Normalize(s: string): string
  {
    ReplaceAll(s, "\r\n", "\n")
  }

  /** `catLines`: every "\r\n", and then every remaining "\n", becomes a space,
      giving a single line no longer than the input; a string without line
      breaks is returned unchanged. */
  function CatLines(s: string): (r: string)
    ensures '\n' !in r
    ensures |r| <= |s|
    ensures '\n' !in s ==> r == s
  {
    var t := ReplaceAll(s, "\r\n", " ");
    ReplaceAllShrinks(s, "\r\n", " ");
    ReplaceAllShrinks(t, "\n", " ");
    ReplaceAllRemoves(t, '\n', " ");
    ReplaceAllAbsent(s, "\r\n", " ");
    ReplaceAllAbsent(t, "\n", " ");
    ReplaceAll(t, "\n", " ")
  }

  /** `splitLines`: the lines of `s`, after "\r\n" is normalised to "\n". No
      line holds a "\n"; there is one more line than `s` has "\n"s; and
      joining the lines with "\n" gives back the normalised string. */
  function SplitLines(s: string): (r: seq<string>)
    ensures |r| == Count(s, '\n') + 1
    ensures forall i :: 0 <= i < |r| ==> '\n' !in r[i]
    ensures Join(r, "\n") == Normalize(s)
  {
    var t := Normalize(s);
    SplitParts(t, '\n');
    NormalizeKeepsLineCount(s);
    JoinSplit(t, '\n');
    Split(t, '\n')
  }

  /** `exeExt`: the executable suffix, ".exe" on Windows only. */
  function ExeExt(goos: string): (r: string)
    ensures r == ".exe" <==> goos == "windows"
    ensures goos != "windows" ==> r == ""
  {
    if goos == "windows" then ".exe" else ""
  }

  /** `IsSH`, deprecated: always true. */
  function IsSH(): (r: bool)
    ensures r
  {
    true
  }

  lemma {:induction false} ReplaceAllShrinks(s: string, pattern: string, replacement: string)
    requires pattern != [] && |replacement| <= |pattern|
    ensures |ReplaceAll(s, pattern, replacement)| <= |s|
    decreases |s|
  {
    if |s| >= |pattern| {
      if s[..|pattern|] == pattern {
        ReplaceAllShrinks(s[|pattern|..], pattern, replacement);
      } else {
        ReplaceAllShrinks(s[1..], pattern, replacement);
      }
    }
  }

  /** Replacing a one-character pattern by text without it removes it. */
  lemma {:induction false} ReplaceAllRemoves(s: string, c: char, replacement: string)
    requires c !in replacement
    ensures c !in ReplaceAll(s, [c], replacement)
    decreases |s|
  {
    if s != [] {
      ReplaceAllRemoves(s[1..], c, replacement);
    }
  }

  /** A string that lacks the pattern's last character holds no occurrence,
      so nothing is replaced. */
  lemma {:induction false} ReplaceAllAbsent(s: string, pattern: string, replacement: string)
    requires pattern != []
    ensures pattern[|pattern| - 1] !in s ==> ReplaceAll(s, pattern, replacement) == s
    decreases |s|
  {
    if |s| >= |pattern| && pattern[|pattern| - 1] !in s {
      ReplaceAllAbsent(s[1..], pattern, replacement);
    }
  }

  /** Splitting gives one more piece than there are separators, and no piece
      contains the separator. */
  lemma {:induction false} SplitParts(s: string, sep: char)
    ensures |Split(s, sep)| == Count(s, sep) + 1
    ensures forall i :: 0 <= i < |Split(s, sep)| ==> sep !in Split(s, sep)[i]
    decreases |s|
  {
    if s != [] {
      SplitParts(s[1..], sep);
    }
  }

  /** Putting a character in front of the first piece puts it in front of the join. */
  lemma JoinConsHead(x: char, parts: seq<string>, sep: string)
    requires |parts| >= 1
    ensures Join([[x] + parts[0]] + parts[1..], sep) == [x] + Join(parts, sep)
  {
    var ps := [[x] + parts[0]] + parts[1..];
    assert ps[1..] == parts[1..];
  }

  /** Joining the pieces with the separator they were split on gives the
      string back. */
  lemma {:induction false} JoinSplit(s: string, sep: char)
    ensures Join(Split(s, sep), [sep]) == s
    decreases |s|
  {
    if s != [] {
      var rest := Split(s[1..], sep);
      JoinSplit(s[1..], sep);
      if s[0] == sep {
        assert ([""] + rest)[1..] == rest;
      } else {
        JoinConsHead(s[0], rest, [sep]);
      }
      assert s == [s[0]] + s[1..];
    }
  }

  /** Splitting a join of separator-free pieces gives the pieces back. */
  lemma {:induction false} SplitJoin(parts: seq<string>, sep: char)
    requires |parts| >= 1
    requires forall i :: 0 <= i < |parts| ==> sep !in parts[i]
    ensures Split(Join(parts, [sep]), sep) == parts
    decreases |parts|, |parts[0]|
  {
    var p := parts[0];
    if p == [] {
      if |parts| > 1 {
        SplitJoin(parts[1..], sep);
        var j := Join(parts, [sep]);
        assert j == [sep] + Join(parts[1..], [sep]);
        assert j[1..] == Join(parts[1..], [sep]);
        assert parts == [""] + parts[1..];
      }
    } else {
      var parts' := [p[1..]] + parts[1..];
      assert forall i :: 0 <= i < |parts'| ==> sep !in parts'[i] by {
        forall i | 0 <= i < |parts'| ensures sep !in parts'[i] {
          if i == 0 {
            assert forall k :: 0 <= k < |p[1..]| ==> p[1..][k] == p[k + 1];
          } else {
            assert parts'[i] == parts[i];
          }
        }
      }
      SplitJoin(parts', sep);
      JoinConsHead(p[0], parts', [sep]);
      assert [p[0]] + p[1..] == p;
      assert [[p[0]] + parts'[0]] + parts'[1..] == parts;
      var j := Join(parts, [sep]);
      assert j == [p[0]] + Join(parts', [sep]);
      assert j[1..] == Join(parts', [sep]);
      assert p[0] != sep by {
        assert p[0] in parts[0];
      }
    }
  }

  /** Normalising "\r\n" to "\n" keeps the number of "\n"s. */
  lemma {:induction false} NormalizeKeepsLineCount(s: string)
    ensures Count(Normalize(s), '\n') == Count(s, '\n')
    decreases |s|
  {
    if |s| >= 2 {
      if s[..2] == "\r\n" {
        NormalizeKeepsLineCount(s[2..]);
        var rest := Normalize(s[2..]);
        assert Normalize(s) == "\n" + rest;
        assert ("\n" + rest)[1..] == rest;
        assert s[1..][1..] == s[2..];
      } else {
        NormalizeKeepsLineCount(s[1..]);
        var rest := Normalize(s[1..]);
        assert Normalize(s) == [s[0]] + rest;
        assert ([s[0]] + rest)[1..] == rest;
      }
    } else {
      ReplaceAllAbsentShort(s, "\r\n", "\n");
    }
  }

  lemma ReplaceAllAbsentShort(s: string, pattern: string, replacement: string)
    requires pattern != [] && |s| < |pattern|
    ensures ReplaceAll(s, pattern, replacement) == s
  {
  }

  /** Replacing a one-character separator by `r` is splitting on it and
      joining with `r`. */
  lemma {:induction false} JoinSplitReplaces(s: string, sep: char, r: string)
    ensures Join(Split(s, sep), r) == ReplaceAll(s, [sep], r)
    decreases |s|
  {
    if s != [] {
      var rest := Split(s[1..], sep);
      JoinSplitReplaces(s[1..], sep, r);
      assert s[..1] == [s[0]];
      if s[0] == sep {
        assert ([""] + rest)[1..] == rest;
      } else {
        JoinConsHead(s[0], rest, r);
      }
    }
  }

  /** Replacing "\r\n" by a space or by "\n" is the same once every "\n" is
      turned into a space. */
  lemma {:induction false} CrLfThenLf(s: string)
    ensures ReplaceAll(ReplaceAll(s, "\r\n", " "), "\n", " ") == ReplaceAll(ReplaceAll(s, "\r\n", "\n"), "\n", " ")
    decreases |s|
  {
    if |s| >= 2 {
      var n := if s[..2] == "\r\n" then 2 else 1;
      CrLfThenLf(s[n..]);
      var x := ReplaceAll(s[n..], "\r\n", " ");
      var y := ReplaceAll(s[n..], "\r\n", "\n");
      var head1: string := if n == 2 then " " else [s[0]];
      var head2: string := if n == 2 then "\n" else [s[0]];
      assert ReplaceAll(s, "\r\n", " ") == head1 + x;
      assert ReplaceAll(s, "\r\n", "\n") == head2 + y;
      assert (head1 + x)[..1] == head1 && (head1 + x)[1..] == x;
      assert (head2 + y)[..1] == head2 && (head2 + y)[1..] == y;
    }
  }

  /** `catLines` joins the lines `splitLines` gives with single spaces. */
  lemma CatLinesJoinsLines(s: string)
    ensures CatLines(s) == Join(SplitLines(s), " ")
  {
    CrLfThenLf(s);
    JoinSplitReplaces(Normalize(s), '\n', " ");
  }

  /** The functions in the template function table, by identity. Each task
      function stands for the model function of the same name (`CatLinesFunc`
      for `CatLines`, and so on); `OS` and `ARCH` return the host's
      `runtime.GOOS` and `runtime.GOARCH`; `fromSlash`, `toSlash` and
      `shellQuote` wrap library calls that are not part of this model; and
      `SprigFunc` is an entry of the sprig library's table. */
  datatype TemplateFunc =
    | OsFunc | ArchFunc | CatLinesFunc | SplitLinesFunc | FromSlashFunc | ToSlashFunc
    | ExeExtFunc | ShellQuoteFunc | IsShFunc | SprigFunc(name: string)

  /** The names the task runner defines itself, deprecated aliases included. */
  const TaskFuncNames: set<string> :=
    {"OS", "ARCH", "catLines", "splitLines", "fromSlash", "toSlash", "exeExt", "shellQuote", "IsSH",
     "FromSlash", "ToSlash", "ExeExt"}

  /** The copying loop at the end of `init`: every entry of `top` is stored
      into `base`, in whatever order the map yields them. Entries of `top`
      win; entries of `base` with other names stay. */
  method CopyOver(base: map<string, TemplateFunc>, top: map<string, TemplateFunc>) returns (r: map<string, TemplateFunc>)
    ensures r.Keys == base.Keys + top.Keys
    ensures forall k :: k in top ==> r[k] == top[k]
    ensures forall k :: k in base && k !in top ==> r[k] == base[k]
  {
    r := base;
    var remaining := top.Keys;
    while remaining != {}
      invariant remaining <= top.Keys
      invariant r.Keys == base.Keys + (top.Keys - remaining)
      invariant forall k :: k in top && k !in remaining ==> r[k] == top[k]
      invariant forall k :: k in base && k !in top.Keys - remaining ==> r[k] == base[k]
      decreases remaining
    {
      var k :| k in remaining;
      r := r[k := top[k]];
      remaining := remaining - {k};
    }
  }

  /** `init`: builds the task functions, adds the deprecated aliases, then
      copies every task function over the sprig table, so that a task function
      wins over a sprig function of the same name and every other sprig
      function is kept. */
  method Init(sprig: map<string, TemplateFunc>) returns (templateFuncs: map<string, TemplateFunc>)
    ensures templateFuncs.Keys == sprig.Keys + TaskFuncNames
    ensures templateFuncs["OS"] == OsFunc && templateFuncs["ARCH"] == ArchFunc
    ensures templateFuncs["catLines"] == CatLinesFunc && templateFuncs["splitLines"] == SplitLinesFunc
    ensures templateFuncs["fromSlash"] == FromSlashFunc && templateFuncs["toSlash"] == ToSlashFunc
    ensures templateFuncs["exeExt"] == ExeExtFunc && templateFuncs["shellQuote"] == ShellQuoteFunc
    ensures templateFuncs["IsSH"] == IsShFunc
    // the deprecated aliases are the same functions as the names they replace
    ensures templateFuncs["FromSlash"] == templateFuncs["fromSlash"]
    ensures templateFuncs["ToSlash"] == templateFuncs["toSlash"]
    ensures templateFuncs["ExeExt"] == templateFuncs["exeExt"]
    // sprig functions without a task function of the same name are kept
    ensures forall k :: k in sprig && k !in TaskFuncNames ==> templateFuncs[k] == sprig[k]
  {
    var taskFuncs := map[
      "OS" := OsFunc,
      "ARCH" := ArchFunc,
      "catLines" := CatLinesFunc,
      "splitLines" := SplitLinesFunc,
      "fromSlash" := FromSlashFunc,
      "toSlash" := ToSlashFunc,
      "exeExt" := ExeExtFunc,
      "shellQuote" := ShellQuoteFunc,
      "IsSH" := IsShFunc];
    taskFuncs := taskFuncs["FromSlash" := taskFuncs["fromSlash"]];
    taskFuncs := taskFuncs["ToSlash" := taskFuncs["toSlash"]];
    taskFuncs := taskFuncs["ExeExt" := taskFuncs["exeExt"]];

    assert taskFuncs.Keys == TaskFuncNames;
    assert taskFuncs["OS"] == OsFunc && taskFuncs["ARCH"] == ArchFunc;
    assert taskFuncs["catLines"] == CatLinesFunc && taskFuncs["splitLines"] == SplitLinesFunc;
    assert taskFuncs["fromSlash"] == FromSlashFunc && taskFuncs["toSlash"] == ToSlashFunc;
    assert taskFuncs["exeExt"] == ExeExtFunc && taskFuncs["shellQuote"] == ShellQuoteFunc;
    assert taskFuncs["IsSH"] == IsShFunc;
    templateFuncs := CopyOver(sprig, taskFuncs);
  }
}
