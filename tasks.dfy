/**
 * The task registry of tasks/__init__.py and the one task it holds,
 * `HlcppMigration` of tasks/hlcpp_migration.py: lookup by name, the
 * target the task builds, its preflight check, its tools and its prompt.
 * Running `ninja` for the preflight check is the exit-status oracle of
 * `Tools.CheckGnLabel`.
 */
module Tasks {
  import opened Wrappers
  import opened Text
  import opened Tools

  /** The parsed command line a task is built from: `--component-dir` and the optional `--component-target`. */
  datatype Args = Args(componentDir: string, componentTarget: Option<string>)

  /** The task classes of the repository. */
  datatype TaskClass = HlcppMigrationClass

  /** A constructed task: the fields `HlcppMigration.__init__` sets. */
  datatype Task = HlcppMigration(componentDir: string, componentTarget: string)

  /** What `get_task` raises. */
  datatype TaskError = ValueError(message: string)

  /** `HlcppMigration.NAME` */
  const HlcppMigrationName: string := "hlcpp-migration"

  /** A class's `NAME`. */
  function ClassName(c: TaskClass): string
  {
    match c
    case HlcppMigrationClass => HlcppMigrationName
  }

  /** `TASKS` */
  const TaskClasses: seq<TaskClass> := [HlcppMigrationClass]

  // ---------------------------------------------------------------------
  // HlcppMigration

  /**
   * `HlcppMigration(args)`: the directory is kept as given; a missing or
   * empty `--component-target` defaults to the directory as a label.
   */
  function NewHlcppMigration(args: Args): (t: Task)
    ensures t.componentDir == args.componentDir
    ensures args.componentTarget.None? || args.componentTarget == Some("") ==> t.componentTarget == "//" + args.componentDir
    ensures args.componentTarget.Some? && args.componentTarget != Some("") ==> t.componentTarget == args.componentTarget.value
  {
    var target := match args.componentTarget
      case Some(s) => if s != "" then s else "//" + args.componentDir
      case None => "//" + args.componentDir;
    HlcppMigration(args.componentDir, target)
  }

  /** `task(args)` for a class of `TASKS`. */
  function Construct(c: TaskClass, args: Args): Task
  {
    match c
    case HlcppMigrationClass => NewHlcppMigration(args)
  }

  /**
   * A defaulted target is a `//` label, so the preflight check queries
   * `ninja` for the directory itself (up to a `(`, which a directory name
   * would not hold).
   */
  lemma DefaultTargetQueriesDirectory(args: Args)
    requires args.componentTarget.None? || args.componentTarget == Some("")
    requires '(' !in args.componentDir
    ensures GnQueryPath(NewHlcppMigration(args).componentTarget) == Some(args.componentDir)
  {
    var l := NewHlcppMigration(args).componentTarget;
    assert l[..2] == "//";
    assert l[2..] == args.componentDir;
  }

  /**
   * `preflight()` as written: it asserts what `check_gn_label` returns, and
   * the `CalledProcessError` that `check_gn_label` raises for a label
   * `ninja` does not know passes through the assertion uncaught.  The run
   * goes ahead exactly when the intended check accepts the target.
   */
  function Preflight(t: Task, ninjaExit: string -> int): (r: Result<(), ToolError>)
    ensures r.Ok? <==> CheckGnLabel(t.componentTarget, ninjaExit)
  {
    CheckGnLabelAgrees(t.componentTarget, ninjaExit);
    match CheckGnLabelAsWritten(t.componentTarget, ninjaExit)
    case Ok(valid) => if valid then Ok(()) else Err(AssertionError)
    case Err(e) => Err(e)
  }

  /**
   * As written, the preflight check fails with an `AssertionError` exactly
   * when the target is not a `//` label, and with the `CalledProcessError`
   * carrying `ninja`'s exit status exactly when `ninja` does not know the
   * target's path.
   */
  lemma PreflightFails(t: Task, ninjaExit: string -> int)
    ensures Preflight(t, ninjaExit) == Err(AssertionError) <==> !StartsWith(t.componentTarget, "//")
    ensures (Preflight(t, ninjaExit).Err? && Preflight(t, ninjaExit).error.CalledProcessError?) <==>
      (StartsWith(t.componentTarget, "//") && ninjaExit(GnQueryPath(t.componentTarget).value) != 0)
    ensures Preflight(t, ninjaExit).Err? && Preflight(t, ninjaExit).error.CalledProcessError? ==>
      Preflight(t, ninjaExit).error.code == ninjaExit(GnQueryPath(t.componentTarget).value)
    ensures Preflight(t, ninjaExit).Err? ==>
      Preflight(t, ninjaExit).error.AssertionError? || Preflight(t, ninjaExit).error.CalledProcessError?
  {
    CheckGnLabelSpec(t.componentTarget, ninjaExit);
  }

  /**
   * `preflight()` as intended, over the corrected `check_gn_label`: every
   * rejected target is reported by the assertion.
   */
  function PreflightIntended(t: Task, ninjaExit: string -> int): Result<(), ToolError>
  {
    if CheckGnLabel(t.componentTarget, ninjaExit) then Ok(()) else Err(AssertionError)
  }

  /**
   * The intended preflight check fails, always with an `AssertionError`,
   * exactly when the target is not a `//` label or `ninja` does not know its
   * path; it lets a run go ahead exactly when the check as written does, and
   * the two differ only in the error a `//` label unknown to `ninja` raises.
   */
  lemma PreflightIntendedFails(t: Task, ninjaExit: string -> int)
    ensures PreflightIntended(t, ninjaExit).Err? <==>
      (!StartsWith(t.componentTarget, "//") || ninjaExit(GnQueryPath(t.componentTarget).value) != 0)
    ensures PreflightIntended(t, ninjaExit).Err? ==> PreflightIntended(t, ninjaExit).error == AssertionError
    ensures PreflightIntended(t, ninjaExit).Ok? <==> Preflight(t, ninjaExit).Ok?
    ensures Preflight(t, ninjaExit) != PreflightIntended(t, ninjaExit) <==>
      (StartsWith(t.componentTarget, "//") && ninjaExit(GnQueryPath(t.componentTarget).value) != 0)
  {
    CheckGnLabelSpec(t.componentTarget, ninjaExit);
    PreflightFails(t, ninjaExit);
  }

  /** A `//` target `ninja` does not know: the preflight check raises `CalledProcessError` instead of failing its assertion. */
  lemma PreflightRaisesOnUnknownTarget()
    ensures Preflight(HlcppMigration("a", "//a"), _ => 1) == Err(CalledProcessError(1))
    ensures PreflightIntended(HlcppMigration("a", "//a"), _ => 1) == Err(AssertionError)
  {
    AsWrittenRaisesOnUnknownLabel();
  }

  /** The `tools` property: the whole registry. */
  function TaskTools(t: Task): (r: seq<ToolFn>)
    ensures forall f :: f in r <==> IsTool(f)
    ensures |r| == 10
  {
    ToolsRegistered();
    RegisteredTools
  }

  // ---------------------------------------------------------------------
  // The prompt

  /** The fixed text of the prompt before the component directory. */
  const PromptIntro: string := "\nMigrate the component in the directory \""

  /** The fixed text between the directory and the first mention of the target. */
  const PromptBuild: string :=
    "\" from the HLCPP\nFIDL bindings to the new Natural C++ bindings.\n\n"
    + "Documentation covering the differences between the HLCPP and new C++ bindings\n"
    + "are in: docs/development/languages/fidl/guides/c-family-comparison.md\n\n"
    + "Documentation specifically about the new C++ bindings are in:\n"
    + "docs/reference/fidl/bindings/cpp-bindings.md\n\n"
    + "If the component already uses the wire or natural bindings in some places leave\n"
    + "that code alone and only modify the parts of the component that use HLCPP.\n\n"
    + "You can build the component by building the target \""

  /** The fixed text between the target and the name of the label-checking tool. */
  const PromptRules: string :=
    "\".\n\nOnce you have modified the files you must build the component and fix any\n"
    + "compile errors that have been introduced.\n\n"
    + "Keep iterating on your changes until the component builds without any errors.\n\n"
    + "Never try to add realm builder support. The label\n"
    + "`//sdk/lib/component/testing/cpp` does not exist.\n\n"
    + "Before referencing new targets or labels in BUILD.gn files you MUST ALWAYS use\nthe "

  /** The fixed text between the tool name and the second mention of the target. */
  const PromptCleanup: string :=
    " tool to validate that the label exists.\n\n"
    + "After migration from HLCPP to natural bindings is complete, remove lines\nreferencing "

  /** The fixed text after the second mention of the target. */
  const PromptEnd: string := " from \"build/cpp/hlcpp_visibility.gni\". Do\nnot modify any other lines.\n\n"

  /** The `prompt` property. */
  function Prompt(t: Task): string
  {
    PromptIntro + t.componentDir + PromptBuild + t.componentTarget + PromptRules
      + Name(CheckGnLabelFn) + PromptCleanup + t.componentTarget + PromptEnd
  }

  /** A text built like the prompt holds each of the pieces spliced into it. */
  lemma SplicedMentions(p0: string, dir: string, p1: string, target: string, p2: string, tool: string, p3: string, p4: string)
    ensures var s := p0 + dir + p1 + target + p2 + tool + p3 + target + p4;
      && Contains(s, dir) && Contains(s, target) && Contains(s, tool)
      && StartsWith(s, p0 + dir + p1 + target) && EndsWith(s, target + p4)
  {
    var s := p0 + dir + p1 + target + p2 + tool + p3 + target + p4;
    var b := p1 + target + p2 + tool + p3 + target + p4;
    assert s == p0 + dir + b;
    ContainsInfix(p0, dir, b);
    var c := p0 + dir + p1;
    var d := p2 + tool + p3 + target + p4;
    assert s == c + target + d;
    ContainsInfix(c, target, d);
    var e := p0 + dir + p1 + target + p2;
    var f := p3 + target + p4;
    assert s == e + tool + f;
    ContainsInfix(e, tool, f);
    var head := p0 + dir + p1 + target;
    assert s == head + (p2 + tool + p3 + target + p4);
    assert s[..|head|] == head;
    var tail := target + p4;
    assert s == (p0 + dir + p1 + target + p2 + tool + p3) + tail;
    assert s[|s| - |tail|..] == tail;
  }

  /**
   * The prompt names the component's directory, its target (once to build
   * it and once to take it off the HLCPP visibility list) and the
   * `check_gn_label` tool by its function name.
   */
  lemma PromptMentions(t: Task)
    ensures Contains(Prompt(t), t.componentDir)
    ensures Contains(Prompt(t), t.componentTarget)
    ensures Contains(Prompt(t), "check_gn_label")
    ensures StartsWith(Prompt(t), PromptIntro + t.componentDir + PromptBuild + t.componentTarget)
    ensures EndsWith(Prompt(t), t.componentTarget + PromptEnd)
  {
    SplicedMentions(PromptIntro, t.componentDir, PromptBuild, t.componentTarget, PromptRules,
                    Name(CheckGnLabelFn), PromptCleanup, PromptEnd);
  }

  // ---------------------------------------------------------------------
  // get_task

  /** The first element of `xs` whose name, by `nameOf`, is `name`. */
  function FindFirst<T>(xs: seq<T>, nameOf: T -> string, name: string): Option<T>
  {
    if xs == [] then None
    else if nameOf(xs[0]) == name then Some(xs[0])
    else FindFirst(xs[1..], nameOf, name)
  }

  /**
   * The search returns the element at the first index whose name matches,
   * and nothing when no element has that name.
   */
  lemma {:induction false} FindFirstSpec<T>(xs: seq<T>, nameOf: T -> string, name: string)
    ensures FindFirst(xs, nameOf, name).None? <==> forall i :: 0 <= i < |xs| ==> nameOf(xs[i]) != name
    ensures FindFirst(xs, nameOf, name).Some? ==>
      exists i :: 0 <= i < |xs| && xs[i] == FindFirst(xs, nameOf, name).value
        && nameOf(xs[i]) == name
        && forall j :: 0 <= j < i ==> nameOf(xs[j]) != name
  {
    if xs != [] && nameOf(xs[0]) != name {
      FindFirstSpec(xs[1..], nameOf, name);
      assert forall i :: 1 <= i < |xs| ==> xs[i] == xs[1..][i - 1];
      if FindFirst(xs, nameOf, name).Some? {
        var i :| 0 <= i < |xs[1..]| && xs[1..][i] == FindFirst(xs, nameOf, name).value
          && nameOf(xs[1..][i]) == name
          && forall j :: 0 <= j < i ==> nameOf(xs[1..][j]) != name;
        assert xs[i + 1] == xs[1..][i];
      }
    } else if xs != [] {
      assert xs[0] == FindFirst(xs, nameOf, name).value;
    }
  }

  /** `get_task(name, args)` */
  function GetTask(name: string, args: Args): (r: Result<Task, TaskError>)
    ensures r.Err? ==> r.error == ValueError("Unknown task: " + name)
  {
    match FindFirst(TaskClasses, ClassName, name)
    case Some(c) => Ok(Construct(c, args))
    case None => Err(ValueError("Unknown task: " + name))
  }

  /**
   * `hlcpp-migration` is the only name `get_task` accepts, and it hands the
   * arguments on unchanged to the task's constructor; every other name
   * raises `ValueError` naming it, so no caller ever sees `None`.
   */
  lemma GetTaskSpec(name: string, args: Args)
    ensures GetTask(name, args).Ok? <==> name == HlcppMigrationName
    ensures GetTask(name, args).Ok? ==> GetTask(name, args).value == NewHlcppMigration(args)
    ensures GetTask(name, args).Err? ==> GetTask(name, args).error.message == "Unknown task: " + name
  {
    FindFirstSpec(TaskClasses, ClassName, name);
    if name == HlcppMigrationName {
      assert ClassName(TaskClasses[0]) == name;
    }
  }
}
