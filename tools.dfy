/**
 * The pure side of tools.py: the `@tool` registry, the `check_path` guard,
 * the command lines handed to `fx`, `git` and `ninja`, and the mapping of
 * `git grep` output back to paths.  Running a command is an oracle: the
 * model receives what the command printed (or its exit status) as a
 * parameter and records which command would have run.
 */
module Tools {
  import opened Wrappers
  import opened Text

  /** The exceptions a tool can raise, as far as the model distinguishes them. */
  datatype ToolError =
    | AssertionError
    | FileNotFound
    | IsADirectory
    | NotADirectory
    | CalledProcessError(code: int)

  // ---------------------------------------------------------------------
  // The registry

  /** The module-level functions of tools.py. */
  datatype ToolFn =
    | CheckPathFn | RunCommandLinesFn | RunCommandFn
    | FxBuildFn | FxTestFn | AddTargetToBuildFn | CheckGnLabelFn
    | ReadFileFn | ReadFilesFn | WriteFileFn | ListDirectoryFn
    | GitGrepFn | SearchDirectoryFn | RegexSearchDirectoryFn

  /** Where tools.py declares each function, counting from 0. */
  function Position(f: ToolFn): nat
  {
    match f
    case CheckPathFn => 0
    case RunCommandLinesFn => 1
    case RunCommandFn => 2
    case FxBuildFn => 3
    case FxTestFn => 4
    case AddTargetToBuildFn => 5
    case CheckGnLabelFn => 6
    case ReadFileFn => 7
    case ReadFilesFn => 8
    case WriteFileFn => 9
    case ListDirectoryFn => 10
    case GitGrepFn => 11
    case SearchDirectoryFn => 12
    case RegexSearchDirectoryFn => 13
  }

  /** The functions that carry `@tool`; the helpers do not. */
  predicate IsTool(f: ToolFn)
  {
    !(f.CheckPathFn? || f.RunCommandLinesFn? || f.RunCommandFn? || f.GitGrepFn?)
  }

  /** `TOOLS` once tools.py has been imported. */
  const RegisteredTools: seq<ToolFn> :=
    [FxBuildFn, FxTestFn, AddTargetToBuildFn, CheckGnLabelFn, ReadFileFn, ReadFilesFn,
     WriteFileFn, ListDirectoryFn, SearchDirectoryFn, RegexSearchDirectoryFn]

  /** A function's `__name__`. */
  function Name(f: ToolFn): string
  {
    match f
    case CheckPathFn => "check_path"
    case RunCommandLinesFn => "run_command_lines"
    case RunCommandFn => "run_command"
    case FxBuildFn => "fx_build"
    case FxTestFn => "fx_test"
    case AddTargetToBuildFn => "add_target_to_build"
    case CheckGnLabelFn => "check_gn_label"
    case ReadFileFn => "read_file"
    case ReadFilesFn => "read_files"
    case WriteFileFn => "write_file"
    case ListDirectoryFn => "list_directory"
    case GitGrepFn => "git_grep"
    case SearchDirectoryFn => "search_directory"
    case RegexSearchDirectoryFn => "regex_search_directory"
  }

  /** The global `TOOLS` list. */
  class Registry {
    var tools: seq<ToolFn>

    constructor ()
      ensures tools == []
    {
      tools := [];
    }

    /** The `@tool` decorator: appends `f` to `TOOLS` and hands `f` back unchanged. */
    method Tool(f: ToolFn) returns (g: ToolFn)
      modifies this
      ensures g == f
      ensures tools == old(tools) + [f]
    {
      tools := tools + [f];
      g := f;
    }
  }

  /** Importing tools.py: its body runs top to bottom and decorates the tools as it meets them. */
  method LoadTools() returns (reg: Registry)
    ensures fresh(reg)
    ensures reg.tools == RegisteredTools
  {
    reg := new Registry();
    var f;
    f := reg.Tool(FxBuildFn);
    f := reg.Tool(FxTestFn);
    f := reg.Tool(AddTargetToBuildFn);
    f := reg.Tool(CheckGnLabelFn);
    f := reg.Tool(ReadFileFn);
    f := reg.Tool(ReadFilesFn);
    f := reg.Tool(WriteFileFn);
    f := reg.Tool(ListDirectoryFn);
    f := reg.Tool(SearchDirectoryFn);
    f := reg.Tool(RegexSearchDirectoryFn);
  }

  /**
   * `TOOLS` holds every decorated function and nothing else (so not
   * `check_path`, `run_command_lines`, `run_command` or `git_grep`), each
   * once, in declaration order.
   */
  lemma ToolsRegistered()
    ensures forall f :: f in RegisteredTools <==> IsTool(f)
    ensures forall i, j :: 0 <= i < j < |RegisteredTools| ==> Position(RegisteredTools[i]) < Position(RegisteredTools[j])
  {
    forall f | IsTool(f)
      ensures f in RegisteredTools
    {
      var i := if Position(f) < 11 then Position(f) - 3 else Position(f) - 4;
      assert RegisteredTools[i] == f;
    }
  }

  // ---------------------------------------------------------------------
  // The path guard

  /** `check_path`: the path neither contains `..` anywhere nor starts with `/`. */
  predicate PathAllowed(path: string)
  {
    !Contains(path, "..") && !StartsWith(path, "/")
  }

  /** No two neighbouring characters of `s` are both dots. */
  predicate NoDoubleDot(s: string)
  {
    forall i :: 0 <= i < |s| - 1 ==> s[i] != '.' || s[i + 1] != '.'
  }

  /**
   * `check_path` accepts exactly the paths with no two dots in a row (so
   * `a..b` fails too) that do not start with `/` (so the empty path passes).
   */
  lemma PathAllowedIff(path: string)
    ensures PathAllowed(path) <==> NoDoubleDot(path) && (path == [] || path[0] != '/')
  {
    ContainsAt(path, "..");
    if !NoDoubleDot(path) {
      var i :| 0 <= i < |path| - 1 && path[i] == '.' && path[i + 1] == '.';
      assert path[i..i + 2] == "..";
      assert OccursAt(path, "..", i);
    }
    if exists i :: OccursAt(path, "..", i) {
      var i :| OccursAt(path, "..", i);
      assert path[i] == path[i..i + 2][0];
      assert path[i + 1] == path[i..i + 2][1];
    }
  }

  /** `a..b` is rejected although it climbs nowhere; the empty path, meaning the tree's root, passes. */
  lemma CheckPathExamples()
    ensures !PathAllowed("a..b") && !PathAllowed("/etc") && PathAllowed("")
  {
    PathAllowedIff("a..b");
    var s := "a..b";
    assert s[1] == '.' && s[2] == '.';
    PathAllowedIff("");
  }

  // ---------------------------------------------------------------------
  // Commands

  /** The command line of `fx_build(target)`: the target goes last, and only when non-empty. */
  function FxBuildCommand(target: string): (cmd: seq<string>)
    ensures 3 <= |cmd| <= 4 && cmd[..3] == ["fx", "build", "-q"]
  {
    ["fx", "build", "-q"] + (if target != "" then [target] else [])
  }

  /** Reads the target back off an `fx build` command line. */
  function BuildTarget(cmd: seq<string>): Option<string>
  {
    if |cmd| == 3 && cmd == ["fx", "build", "-q"] then Some("")
    else if |cmd| == 4 && cmd[..3] == ["fx", "build", "-q"] && cmd[3] != "" then Some(cmd[3])
    else None
  }

  /** Every target, empty or not, can be read back off the command that builds it. */
  lemma FxBuildRoundTrip(target: string)
    ensures BuildTarget(FxBuildCommand(target)) == Some(target)
  {
    var cmd := FxBuildCommand(target);
    if target != "" {
      assert cmd[3] == target;
    }
  }

  /** The command line of `git_grep(path, pattern, regex)`. */
  function GitGrepCommand(path: string, pattern: string, regex: bool): (cmd: seq<string>)
    ensures 4 <= |cmd| && cmd[0] == "git" && cmd[|cmd| - 1] == pattern
  {
    ["git"] + (if path != "" then ["-C", path] else []) + ["grep", "--files-with-matches"]
      + (if regex then [] else ["--fixed-strings"]) + [pattern]
  }

  /** Reads `(path, pattern, regex)` back off a `git grep` command line. */
  function ParseGitGrep(cmd: seq<string>): Option<(string, string, bool)>
  {
    if cmd == [] || cmd[0] != "git" then None
    else
      var rest := cmd[1..];
      var (path, tail) := if 2 <= |rest| && rest[0] == "-C" && rest[1] != "" then (rest[1], rest[2..]) else ("", rest);
      if |tail| == 3 && tail[..2] == ["grep", "--files-with-matches"] then Some((path, tail[2], true))
      else if |tail| == 4 && tail[..3] == ["grep", "--files-with-matches", "--fixed-strings"] then Some((path, tail[3], false))
      else None
  }

  /**
   * The `git grep` command determines its inputs: `-C path` appears exactly
   * when the path is non-empty and `--fixed-strings` exactly for a plain
   * substring search, and the pattern is passed as one argument, last.
   */
  lemma GitGrepRoundTrip(path: string, pattern: string, regex: bool)
    ensures ParseGitGrep(GitGrepCommand(path, pattern, regex)) == Some((path, pattern, regex))
  {
    var cmd := GitGrepCommand(path, pattern, regex);
    var opts := if regex then [] else ["--fixed-strings"];
    var tail := ["grep", "--files-with-matches"] + opts + [pattern];
    if path != "" {
      assert cmd[1..] == ["-C", path] + tail;
      assert cmd[1..][2..] == tail;
    } else {
      assert cmd[1..] == tail;
    }
  }

  /** `os.path.join(a, b)` on POSIX: an absolute `b` wins; otherwise a `/` goes between unless `a` is empty or ends in one. */
  function PathJoin(a: string, b: string): string
  {
    if StartsWith(b, "/") then b
    else if a == "" || EndsWith(a, "/") then a + b
    else a + "/" + b
  }

  /** Gluing two strings whose seam is a `/` (or no seam at all) adds no `..`. */
  lemma NoDoubleDotConcat(a: string, b: string)
    requires NoDoubleDot(a) && NoDoubleDot(b)
    requires a == [] || b == [] || a[|a| - 1] == '/' || b[0] == '/'
    ensures NoDoubleDot(a + b)
  {
    var s := a + b;
    forall i | 0 <= i < |s| - 1
      ensures s[i] != '.' || s[i + 1] != '.'
    {
      if i + 1 < |a| {
        assert s[i] == a[i] && s[i + 1] == a[i + 1];
      } else if i >= |a| {
        assert s[i] == b[i - |a|] && s[i + 1] == b[i + 1 - |a|];
      }
    }
  }

  /** Joining two paths that pass `check_path` gives a path that passes it too. */
  lemma PathJoinAllowed(a: string, b: string)
    requires PathAllowed(a) && PathAllowed(b)
    ensures PathAllowed(PathJoin(a, b))
  {
    PathAllowedIff(a);
    PathAllowedIff(b);
    var r := PathJoin(a, b);
    if a == "" {
      assert r == b;
    } else if EndsWith(a, "/") {
      assert a[|a| - 1] == a[|a| - 1..][0];
      NoDoubleDotConcat(a, b);
      assert r[0] == a[0];
    } else {
      NoDoubleDotConcat(a, "/");
      NoDoubleDotConcat(a + "/", b);
      assert r == (a + "/") + b;
      assert r[0] == a[0];
    }
    PathAllowedIff(r);
  }

  /** The joined form of each line `git grep` prints, in order. */
  function JoinedLines(path: string, lines: seq<string>): (r: seq<string>)
    ensures |r| == |lines|
  {
    seq(|lines|, i requires 0 <= i < |lines| => PathJoin(path, Strip(lines[i])))
  }

  /** One more printed line adds its joined form at the end. */
  lemma JoinedLinesStep(path: string, lines: seq<string>, i: nat)
    requires i < |lines|
    ensures JoinedLines(path, lines[..i + 1]) == JoinedLines(path, lines[..i]) + [PathJoin(path, Strip(lines[i]))]
  {
    assert lines[..i + 1][i] == lines[i];
  }

  /**
   * The results of a search are the printed paths, stripped, under the
   * searched directory: each one is the directory, a `/` where needed, and
   * the stripped line; with an empty directory, the stripped line itself.
   */
  lemma JoinedLinesShape(path: string, lines: seq<string>, i: nat)
    requires i < |lines| && !StartsWith(Strip(lines[i]), "/")
    ensures var r := JoinedLines(path, lines)[i];
      && EndsWith(r, Strip(lines[i]))
      && StartsWith(r, path)
      && (path == "" ==> r == Strip(lines[i]))
      && |r| - |path| - |Strip(lines[i])| == (if path == "" || EndsWith(path, "/") then 0 else 1)
  {
    var b := Strip(lines[i]);
    var r := JoinedLines(path, lines)[i];
    if path == "" || EndsWith(path, "/") {
      assert r == path + b;
      assert r[..|path|] == path;
      assert r[|r| - |b|..] == b;
    } else {
      assert r == path + "/" + b;
      assert r[..|path|] == path;
      assert r[|r| - |b|..] == b;
    }
  }

  /**
   * `git_grep`: checks the path, builds the command, runs it (its output
   * lines are `output`) and joins each stripped line onto `path`.  `ran` is
   * the command that ran, if any.
   */
  /** The argument list `git_grep` builds, one piece at a time. */
  method BuildGitGrepCommand(path: string, pattern: string, regex: bool) returns (command: seq<string>)
    ensures command == GitGrepCommand(path, pattern, regex)
  {
    command := ["git"];
    if path != "" {
      command := command + ["-C", path];
    }
    command := command + ["grep", "--files-with-matches"];
    if !regex {
      command := command + ["--fixed-strings"];
    }
    command := command + [pattern];
  }

  method GitGrep(path: string, pattern: string, regex: bool, output: seq<string>)
    returns (ran: Option<seq<string>>, r: Result<seq<string>, ToolError>)
    ensures !PathAllowed(path) ==> ran == None && r == Err(AssertionError)
    ensures PathAllowed(path) ==> ran == Some(GitGrepCommand(path, pattern, regex)) && r == Ok(JoinedLines(path, output))
  {
    if !PathAllowed(path) {
      return None, Err(AssertionError);
    }
    var command := BuildGitGrepCommand(path, pattern, regex);
    ran := Some(command);
    var absolute := [];
    for i := 0 to |output|
      invariant absolute == JoinedLines(path, output[..i])
    {
      JoinedLinesStep(path, output, i);
      absolute := absolute + [PathJoin(path, Strip(output[i]))];
    }
    assert output[..|output|] == output;
    r := Ok(absolute);
  }

  /** `search_directory`: a `git_grep` for a fixed substring. */
  method SearchDirectory(path: string, substring: string, output: seq<string>)
    returns (ran: Option<seq<string>>, r: Result<seq<string>, ToolError>)
    ensures !PathAllowed(path) ==> ran == None && r == Err(AssertionError)
    ensures PathAllowed(path) ==> ran == Some(GitGrepCommand(path, substring, false)) && r == Ok(JoinedLines(path, output))
  {
    ran, r := GitGrep(path, substring, false, output);
  }

  /** `regex_search_directory`: a `git_grep` for a basic regular expression. */
  method RegexSearchDirectory(path: string, pattern: string, output: seq<string>)
    returns (ran: Option<seq<string>>, r: Result<seq<string>, ToolError>)
    ensures !PathAllowed(path) ==> ran == None && r == Err(AssertionError)
    ensures PathAllowed(path) ==> ran == Some(GitGrepCommand(path, pattern, true)) && r == Ok(JoinedLines(path, output))
  {
    ran, r := GitGrep(path, pattern, true, output);
  }

  // ---------------------------------------------------------------------
  // check_gn_label

  /**
   * The path `check_gn_label` asks `ninja -t query` about: the label without
   * its leading `//`, cut before the first `(` (the toolchain).  `None` for
   * a label without `//`, which is rejected without a query.
   */
  function GnQueryPath(gnLabel: string): (r: Option<string>)
    ensures r.Some? <==> StartsWith(gnLabel, "//")
    ensures r.Some? ==> '(' !in r.value && StartsWith(gnLabel[2..], r.value)
    ensures r.Some? && '(' in gnLabel[2..] ==> gnLabel[2 + |r.value|] == '('
    ensures r.Some? && '(' !in gnLabel[2..] ==> r.value == gnLabel[2..]
  {
    if !StartsWith(gnLabel, "//") then None
    else
      var path := gnLabel[2..];
      if '(' in path then
        var parts := SplitOnce(path, '(');
        assert path[..|parts[0]|] == parts[0];
        Some(parts[0])
      else Some(path)
  }

  /**
   * `check_gn_label` as written: `subprocess.check_call` raises
   * `CalledProcessError` for a non-zero exit status instead of returning
   * it, so the comparison with 0 only ever sees 0.
   */
  function CheckGnLabelAsWritten(gnLabel: string, ninjaExit: string -> int): Result<bool, ToolError>
  {
    match GnQueryPath(gnLabel)
    case None => Ok(false)
    case Some(path) =>
      if ninjaExit(path) != 0 then Err(CalledProcessError(ninjaExit(path)))
      else Ok(ninjaExit(path) == 0)
  }

  /** As written, a `//` label is never reported invalid: an unknown target raises instead. */
  lemma AsWrittenNeverFalse(gnLabel: string, ninjaExit: string -> int)
    requires StartsWith(gnLabel, "//")
    ensures CheckGnLabelAsWritten(gnLabel, ninjaExit) != Ok(false)
  {
  }

  /** A label `ninja` does not know: the call raises rather than returning `False`. */
  lemma AsWrittenRaisesOnUnknownLabel()
    ensures CheckGnLabelAsWritten("//a", _ => 1) == Err(CalledProcessError(1))
  {
    var l := "//a";
    assert StartsWith(l, "//");
    assert l[2..] == "a";
    assert GnQueryPath(l) == Some("a");
  }

  /**
   * `check_gn_label` as its docstring promises: `True` exactly when the
   * label starts with `//` and `ninja -t query` succeeds on its path.
   */
  function CheckGnLabel(gnLabel: string, ninjaExit: string -> int): bool
  {
    match GnQueryPath(gnLabel)
    case None => false
    case Some(path) => ninjaExit(path) == 0
  }

  /**
   * The two readings agree wherever the code as written returns, and it
   * raises exactly on the `//` labels the intended check rejects.
   */
  lemma CheckGnLabelAgrees(gnLabel: string, ninjaExit: string -> int)
    ensures CheckGnLabelAsWritten(gnLabel, ninjaExit).Ok? ==> CheckGnLabelAsWritten(gnLabel, ninjaExit) == Ok(CheckGnLabel(gnLabel, ninjaExit))
    ensures CheckGnLabelAsWritten(gnLabel, ninjaExit).Err? <==> StartsWith(gnLabel, "//") && !CheckGnLabel(gnLabel, ninjaExit)
  {
  }

  /** A label without `//` is rejected, whatever `ninja` would say; otherwise the query path decides. */
  lemma CheckGnLabelSpec(gnLabel: string, ninjaExit: string -> int)
    ensures !StartsWith(gnLabel, "//") ==> !CheckGnLabel(gnLabel, ninjaExit)
    ensures StartsWith(gnLabel, "//") && '(' !in gnLabel[2..] ==> (CheckGnLabel(gnLabel, ninjaExit) <==> ninjaExit(gnLabel[2..]) == 0)
    ensures forall tc :: StartsWith(gnLabel, "//") && '(' !in gnLabel[2..] ==> CheckGnLabel(gnLabel + "(" + tc + ")", ninjaExit) == CheckGnLabel(gnLabel, ninjaExit)
  {
    forall tc | StartsWith(gnLabel, "//") && '(' !in gnLabel[2..]
      ensures CheckGnLabel(gnLabel + "(" + tc + ")", ninjaExit) == CheckGnLabel(gnLabel, ninjaExit)
    {
      var l2 := gnLabel + "(" + tc + ")";
      assert l2[..2] == gnLabel[..2];
      var q := GnQueryPath(l2).value;
      assert l2[2..] == gnLabel[2..] + "(" + tc + ")";
      assert l2[2 + |gnLabel| - 2] == '(';
      assert '(' in l2[2..];
      QueryPathPrefix(gnLabel[2..], q, l2[2..]);
    }
  }

  /** The part before the first `(` of `p + "(" + ...` is `p` when `p` has no `(`. */
  lemma QueryPathPrefix(p: string, q: string, s: string)
    requires '(' !in p && |p| < |s| && s[..|p|] == p && s[|p|] == '('
    requires '(' !in q && |q| < |s| && s[..|q|] == q && s[|q|] == '('
    ensures q == p
  {
  }
}
