/**
 * The file tools of tools.py over an abstract checkout: file contents by
 * path and a set of directory paths.  Paths are plain strings compared
 * exactly; a directory's contents are not tied to its path, so listing a
 * directory takes the names `os.listdir` would return as a parameter.
 */
module Workspace {
  import opened Wrappers
  import opened Text
  import opened Tools

  /** The checkout as the tools see it. */
  datatype Tree = Tree(files: map<string, string>, dirs: set<string>)

  /** A path names a file or a directory, never both, and the empty path names nothing. */
  predicate Valid(t: Tree)
  {
    t.files.Keys !! t.dirs && "" !in t.files && "" !in t.dirs
  }

  /** `os.path.exists(p)` */
  predicate Exists(t: Tree, p: string)
  {
    p in t.files || p in t.dirs
  }

  /** The backup name `write_file` moves an existing path to. */
  function Backup(path: string): string
  {
    path + ".orig"
  }

  /** `open(path).read()` behind `check_path`: the tool `read_file`. */
  function ReadFile(t: Tree, path: string): (r: Result<string, ToolError>)
    ensures r.Ok? <==> PathAllowed(path) && path in t.files && path !in t.dirs
    ensures r.Ok? ==> r.value == t.files[path]
    ensures !PathAllowed(path) ==> r == Err(AssertionError)
  {
    if !PathAllowed(path) then Err(AssertionError)
    else if path in t.dirs then Err(IsADirectory)
    else if path in t.files then Ok(t.files[path])
    else Err(FileNotFound)
  }

  // ---------------------------------------------------------------------
  // read_files

  /**
   * The rest of the `read_files` loop from the paths `paths` on, with the
   * dictionary built so far: a path failing `check_path` aborts the whole
   * call, a path that cannot be read is skipped.
   */
  function ReadFilesFrom(t: Tree, paths: seq<string>, acc: map<string, string>): Result<map<string, string>, ToolError>
    decreases |paths|
  {
    if paths == [] then Ok(acc)
    else if !PathAllowed(paths[0]) then Err(AssertionError)
    else
      var acc' := match ReadFile(t, paths[0])
        case Ok(c) => acc[paths[0] := c]
        case Err(_) => acc;
      ReadFilesFrom(t, paths[1..], acc')
  }

  /** `read_files(paths)` */
  function ReadFilesSpec(t: Tree, paths: seq<string>): Result<map<string, string>, ToolError>
  {
    ReadFilesFrom(t, paths, map[])
  }

  /** Whether `p` is a readable file of `t`. */
  predicate Readable(t: Tree, p: string)
  {
    ReadFile(t, p).Ok?
  }

  lemma {:induction false} ReadFilesFromSpec(t: Tree, paths: seq<string>, acc: map<string, string>)
    ensures ReadFilesFrom(t, paths, acc).Err? <==> exists i :: 0 <= i < |paths| && !PathAllowed(paths[i])
    ensures ReadFilesFrom(t, paths, acc).Err? ==> ReadFilesFrom(t, paths, acc).error == AssertionError
    ensures ReadFilesFrom(t, paths, acc).Ok? ==>
      var m := ReadFilesFrom(t, paths, acc).value;
      && (forall p :: p in m <==> p in acc || (p in paths && Readable(t, p)))
      && (forall p :: p in m ==> m[p] == if p in paths && Readable(t, p) then t.files[p] else acc[p])
    decreases |paths|
  {
    if paths != [] {
      var p0 := paths[0];
      var acc' := match ReadFile(t, p0)
        case Ok(c) => acc[p0 := c]
        case Err(_) => acc;
      ReadFilesFromSpec(t, paths[1..], acc');
      assert forall i :: 1 <= i < |paths| ==> paths[i] == paths[1..][i - 1];
      assert forall i :: 0 <= i < |paths[1..]| ==> paths[1..][i] == paths[i + 1];
      assert forall p :: p in paths <==> p == p0 || p in paths[1..];
    }
  }

  /**
   * `read_files`: one path failing `check_path` aborts the whole call (the
   * check sits outside the `try`); otherwise the result maps exactly the
   * requested paths that can be read to their contents, and silently
   * leaves out the rest.
   */
  lemma ReadFilesResult(t: Tree, paths: seq<string>)
    ensures ReadFilesSpec(t, paths) == Err(AssertionError) <==> exists i :: 0 <= i < |paths| && !PathAllowed(paths[i])
    ensures ReadFilesSpec(t, paths).Ok? ==>
      var m := ReadFilesSpec(t, paths).value;
      && m.Keys == set p | p in paths && Readable(t, p)
      && (forall p :: p in m ==> p in t.files && m[p] == t.files[p])
  {
    ReadFilesFromSpec(t, paths, map[]);
  }

  // ---------------------------------------------------------------------
  // list_directory

  /** One entry of `list_directory`'s result: a `/` is appended when the entry is a directory. */
  function Mark(t: Tree, path: string, entry: string): string
  {
    if PathJoin(path, entry) in t.dirs then entry + "/" else entry
  }

  /** The entries `os.listdir(path)` returned, marked. */
  function Listing(t: Tree, path: string, entries: seq<string>): (r: seq<string>)
    ensures |r| == |entries|
  {
    seq(|entries|, i requires 0 <= i < |entries| => Mark(t, path, entries[i]))
  }

  /** What `list_directory(path)` raises or returns, where `entries` are the names the directory holds. */
  function ListDirectorySpec(t: Tree, path: string, entries: seq<string>): (r: Result<seq<string>, ToolError>)
    ensures r.Ok? <==> PathAllowed(path) && path in t.dirs && path !in t.files
    ensures r.Ok? ==> |r.value| == |entries|
  {
    if !PathAllowed(path) then Err(AssertionError)
    else if path in t.files then Err(NotADirectory)
    else if path !in t.dirs then Err(FileNotFound)
    else Ok(Listing(t, path, entries))
  }

  /**
   * Names in a directory never contain `/`, so the listing ends an entry
   * with `/` exactly when the entry is a directory, and dropping that
   * slash gives back the name, in the order `os.listdir` gave.
   */
  lemma ListingMarksDirectories(t: Tree, path: string, entries: seq<string>, i: nat)
    requires i < |entries| && '/' !in entries[i]
    ensures var r := Listing(t, path, entries)[i];
      && (EndsWith(r, "/") <==> PathJoin(path, entries[i]) in t.dirs)
      && r[..|entries[i]|] == entries[i]
      && |r| - |entries[i]| <= 1
  {
    var e := entries[i];
    var r := Listing(t, path, entries)[i];
    EndsWithChar(e, '/');
    EndsWithChar(r, '/');
  }

  // ---------------------------------------------------------------------
  // write_file

  /** `os.rename(src, dst)` where `src` exists and `dst` does not. */
  function Renamed(t: Tree, src: string, dst: string): Tree
  {
    if src in t.files then Tree(t.files - {src} + map[dst := t.files[src]], t.dirs)
    else Tree(t.files, t.dirs - {src} + {dst})
  }

  /** The diff `write_file` prints after overwriting an existing path. */
  function DiffCommand(path: string): seq<string>
  {
    ["diff", "-u", Backup(path), path]
  }

  /**
   * `write_file(path, contents)`: the new tree, the commands it ran and its
   * outcome.  The steps are `check_path`; if the path exists, the assertion
   * that no backup exists and the rename to the backup; the write; and, if
   * there was a rename, the diff and the unlink of the backup.
   */
  function WriteFileSpec(t: Tree, path: string, contents: string): (r: (Tree, seq<seq<string>>, Result<(), ToolError>))
    ensures r.2.Ok? ==> path in r.0.files && r.0.files[path] == contents
    ensures r.1 == [] || r.1 == [DiffCommand(path)]
    ensures !PathAllowed(path) ==> r == (t, [], Err(AssertionError))
  {
    var orig := Backup(path);
    if !PathAllowed(path) then (t, [], Err(AssertionError))
    else if Exists(t, path) && Exists(t, orig) then (t, [], Err(AssertionError))
    else
      var t1 := if Exists(t, path) then Renamed(t, path, orig) else t;
      if path == "" then (t1, [], Err(FileNotFound))
      else
        var t2 := t1.(files := t1.files[path := contents]);
        if !Exists(t, path) then (t2, [], Ok(()))
        else if orig in t2.dirs then (t2, [DiffCommand(path)], Err(IsADirectory))
        else (t2.(files := t2.files - {orig}), [DiffCommand(path)], Ok(()))
  }

  /**
   * `write_file` succeeds exactly for an allowed, non-empty path that is not
   * a directory and, if it exists, has no backup lying around; afterwards
   * the path holds exactly `contents`, reading it back gives `contents`,
   * no other file and no directory changed, and the backup name exists
   * exactly when it existed before (a backup moved aside is removed again;
   * a stray one next to a path that did not exist stays).
   */
  lemma WriteFileSucceeds(t: Tree, path: string, contents: string)
    requires Valid(t)
    ensures var (t', _, r) := WriteFileSpec(t, path, contents);
      r.Ok? <==> PathAllowed(path) && path != "" && path !in t.dirs && (path in t.files ==> !Exists(t, Backup(path)))
    ensures var (t', _, r) := WriteFileSpec(t, path, contents);
      r.Ok? ==>
        && t'.files == t.files[path := contents] && t'.dirs == t.dirs
        && ReadFile(t', path) == Ok(contents)
        && (Exists(t', Backup(path)) <==> Exists(t, Backup(path)))
  {
    var orig := Backup(path);
    var (t', _, r) := WriteFileSpec(t, path, contents);
    if r.Ok? && path in t.files {
      assert orig != path;
      assert t'.files == t.files[path := contents];
    }
  }

  /** Only `path` and its backup can change, whatever the outcome. */
  lemma WriteFileFrame(t: Tree, path: string, contents: string, p: string)
    requires p != path && p != Backup(path)
    ensures var t' := WriteFileSpec(t, path, contents).0;
      && (p in t'.files <==> p in t.files)
      && (p in t.files ==> t'.files[p] == t.files[p])
      && (p in t'.dirs <==> p in t.dirs)
  {
  }

  /**
   * A failed `check_path`, or an existing path whose backup also exists,
   * stops `write_file` before it changes anything or runs anything.
   */
  lemma WriteFileGuard(t: Tree, path: string, contents: string)
    requires !PathAllowed(path) || (Exists(t, path) && Exists(t, Backup(path)))
    ensures WriteFileSpec(t, path, contents) == (t, [], Err(AssertionError))
  {
  }

  /** The diff runs exactly when an existing path was moved aside and the new contents written. */
  lemma WriteFileDiffs(t: Tree, path: string, contents: string)
    requires Valid(t)
    ensures var cmds := WriteFileSpec(t, path, contents).1;
      && (cmds != [] <==> PathAllowed(path) && Exists(t, path) && !Exists(t, Backup(path)))
      && (cmds != [] ==> cmds == [["diff", "-u", path + ".orig", path]])
  {
  }

  /**
   * Overwriting a directory: the directory is moved to the backup name, the
   * file is written, and the final unlink of the backup raises
   * `IsADirectoryError`, leaving both behind.
   */
  lemma WriteFileOverDirectory(t: Tree, path: string, contents: string)
    requires Valid(t) && PathAllowed(path) && path in t.dirs && !Exists(t, Backup(path))
    ensures var (t', _, r) := WriteFileSpec(t, path, contents);
      && r == Err(IsADirectory)
      && t'.files == t.files[path := contents]
      && t'.dirs == t.dirs - {path} + {Backup(path)}
  {
  }

  /** `write_file` keeps a valid tree valid. */
  lemma WriteFileValid(t: Tree, path: string, contents: string)
    requires Valid(t)
    ensures Valid(WriteFileSpec(t, path, contents).0)
  {
    var orig := Backup(path);
    if PathAllowed(path) && !(Exists(t, path) && Exists(t, orig)) && path != "" {
      assert orig != "";
      assert orig != path;
    }
  }

  // ---------------------------------------------------------------------
  // The guard

  /**
   * Every file tool calls `check_path` before it touches the tree: a path
   * it rejects makes `read_file`, `list_directory` and `write_file` raise
   * `AssertionError` with nothing changed and nothing run, and makes a whole
   * `read_files` call raise if the path is among those requested.
   */
  lemma CheckPathFirst(t: Tree, path: string, contents: string, entries: seq<string>, paths: seq<string>)
    requires !PathAllowed(path)
    ensures ReadFile(t, path) == Err(AssertionError)
    ensures ListDirectorySpec(t, path, entries) == Err(AssertionError)
    ensures WriteFileSpec(t, path, contents) == (t, [], Err(AssertionError))
    ensures path in paths ==> ReadFilesSpec(t, paths) == Err(AssertionError)
  {
    if path in paths {
      var i :| 0 <= i < |paths| && paths[i] == path;
      ReadFilesResult(t, paths);
    }
  }

  // ---------------------------------------------------------------------
  // The checkout, updated in place

  class FileSystem {
    var files: map<string, string>
    var dirs: set<string>
    /** The commands run so far, in order. */
    var commands: seq<seq<string>>

    function State(): Tree
      reads this
    {
      Tree(files, dirs)
    }

    constructor (t: Tree)
      requires Valid(t)
      ensures State() == t && commands == []
    {
      files := t.files;
      dirs := t.dirs;
      commands := [];
    }

    /** `read_files(paths)`: builds the dictionary path by path. */
    method ReadFiles(paths: seq<string>) returns (r: Result<map<string, string>, ToolError>)
      ensures r == ReadFilesSpec(State(), paths)
    {
      var result := map[];
      for i := 0 to |paths|
        invariant ReadFilesFrom(State(), paths[i..], result) == ReadFilesSpec(State(), paths)
      {
        assert paths[i..][1..] == paths[i + 1..];
        var path := paths[i];
        if !PathAllowed(path) {
          return Err(AssertionError);
        }
        match ReadFile(State(), path) {
          case Ok(c) => result := result[path := c];
          case Err(_) =>
        }
      }
      return Ok(result);
    }

    /** `list_directory(path)`, where `entries` is what `os.listdir(path)` returns. */
    method ListDirectory(path: string, entries: seq<string>) returns (r: Result<seq<string>, ToolError>)
      ensures r == ListDirectorySpec(State(), path, entries)
    {
      if !PathAllowed(path) {
        return Err(AssertionError);
      }
      if path in files {
        return Err(NotADirectory);
      }
      if path !in dirs {
        return Err(FileNotFound);
      }
      var contents := [];
      for i := 0 to |entries|
        invariant contents == Listing(State(), path, entries[..i])
      {
        if PathJoin(path, entries[i]) in dirs {
          contents := contents + [entries[i] + "/"];
        } else {
          contents := contents + [entries[i]];
        }
      }
      assert entries[..|entries|] == entries;
      return Ok(contents);
    }

    /** `os.rename(src, dst)` */
    method Rename(src: string, dst: string)
      requires src in files || src in dirs
      requires dst !in files && dst !in dirs
      modifies this
      ensures State() == Renamed(old(State()), src, dst) && commands == old(commands)
    {
      if src in files {
        var contents := files[src];
        files := files - {src};
        files := files[dst := contents];
      } else {
        dirs := dirs - {src} + {dst};
      }
    }

    /** `os.unlink(p)` */
    method Unlink(p: string) returns (r: Result<(), ToolError>)
      modifies this
      ensures p in old(dirs) ==> r == Err(IsADirectory) && State() == old(State())
      ensures p !in old(dirs) && p in old(files) ==> r == Ok(()) && State() == old(State()).(files := old(files) - {p})
      ensures p !in old(dirs) && p !in old(files) ==> r == Err(FileNotFound) && State() == old(State())
      ensures commands == old(commands)
    {
      if p in dirs {
        return Err(IsADirectory);
      }
      if p !in files {
        return Err(FileNotFound);
      }
      files := files - {p};
      return Ok(());
    }

    /** `write_file(path, contents)` */
    method WriteFile(path: string, contents: string) returns (r: Result<(), ToolError>)
      modifies this
      ensures var (t', cmds, res) := WriteFileSpec(old(State()), path, contents);
        State() == t' && commands == old(commands) + cmds && r == res
    {
      if !PathAllowed(path) {
        return Err(AssertionError);
      }
      var diff := false;
      var orig := path + ".orig";
      if path in files || path in dirs {
        if orig in files || orig in dirs {
          return Err(AssertionError);
        }
        Rename(path, orig);
        diff := true;
      }
      if path == "" {
        return Err(FileNotFound);
      }
      files := files[path := contents];
      if diff {
        commands := commands + [["diff", "-u", orig, path]];
        r := Unlink(orig);
      } else {
        r := Ok(());
      }
    }
  }
}
