/**
 * `get_api_key` of village.py: the Gemini key comes from the environment
 * variable if that is set and non-empty, otherwise from the first
 * `GEMINI_API_KEY=` line of the first `.env` file found walking up from
 * the working directory.
 */
module ApiKey {
  import opened Wrappers
  import opened Text

  const KeyName: string := "GEMINI_API_KEY"
  const KeyPrefix: string := KeyName + "="

  /**
   * One directory of the search, from the working directory upwards:
   * `None` when it holds no `.env`, otherwise the lines of its `.env`
   * (as `read_text().splitlines()` gives them).
   */
  type EnvFile = Option<seq<string>>

  /** `line.split("=", 1)[1].strip()` for a line that starts with the key prefix. */
  function ValueOf(line: string): string
    requires StartsWith(line, KeyPrefix)
  {
    assert line[|KeyName|] == '=';
    Strip(SplitOnce(line, '=')[1])
  }

  /** The first matching line of one `.env` file. */
  function KeyInLines(lines: seq<string>): Option<string>
  {
    if lines == [] then None
    else if StartsWith(lines[0], KeyPrefix) then Some(ValueOf(lines[0]))
    else KeyInLines(lines[1..])
  }

  /** The directory walk: the first `.env` that has a matching line decides. */
  function KeyInDirs(dirs: seq<EnvFile>): (r: Option<string>)
    ensures r.None? <==> forall i :: 0 <= i < |dirs| && dirs[i].Some? ==> KeyInLines(dirs[i].value).None?
  {
    if dirs == [] then None
    else
      match (if dirs[0].Some? then KeyInLines(dirs[0].value) else None)
      case Some(k) => Some(k)
      case None => KeyInDirs(dirs[1..])
  }

  /** `get_api_key()`, with the environment variable and the directories as inputs. */
  function GetApiKey(env: Option<string>, dirs: seq<EnvFile>): (r: Option<string>)
    ensures env.Some? && env.value != "" ==> r == env
  {
    if env.Some? && env.value != "" then env else KeyInDirs(dirs)
  }

  /** Line `j` of the `.env` in directory `i` starts with `GEMINI_API_KEY=`. */
  predicate Matches(dirs: seq<EnvFile>, i: int, j: int)
  {
    0 <= i < |dirs| && dirs[i].Some? && 0 <= j < |dirs[i].value| && StartsWith(dirs[i].value[j], KeyPrefix)
  }

  /** Position (i', j') comes before (i, j) in the search order. */
  predicate Before(i': int, j': int, i: int, j: int)
  {
    i' < i || (i' == i && j' < j)
  }

  /** Splitting at the first `=` of such a line leaves exactly what follows the prefix. */
  lemma ValueAfterPrefix(line: string)
    requires StartsWith(line, KeyPrefix)
    ensures ValueOf(line) == Strip(line[|KeyPrefix|..])
  {
    var n := |KeyName|;
    assert line[n] == '=';
    var parts := SplitOnce(line, '=');
    assert line == parts[0] + ['='] + parts[1];
    assert forall k :: 0 <= k < n ==> line[k] == KeyName[k] && line[k] != '=';
    assert line[|parts[0]|] == '=';
    assert |parts[0]| >= n;
    assert parts[1] == line[n + 1..];
  }

  lemma {:induction false} KeyInLinesFirst(lines: seq<string>)
    ensures KeyInLines(lines) == None <==> forall j :: 0 <= j < |lines| ==> !StartsWith(lines[j], KeyPrefix)
    ensures KeyInLines(lines).Some? ==> (exists j :: && 0 <= j < |lines| && StartsWith(lines[j], KeyPrefix)
                                                      && KeyInLines(lines).value == ValueOf(lines[j])
                                                      && forall j' :: 0 <= j' < j ==> !StartsWith(lines[j'], KeyPrefix))
  {
    if lines != [] && !StartsWith(lines[0], KeyPrefix) {
      KeyInLinesFirst(lines[1..]);
      assert forall j :: 1 <= j < |lines| ==> lines[j] == lines[1..][j - 1];
      if KeyInLines(lines).Some? {
        var j :| 0 <= j < |lines[1..]| && StartsWith(lines[1..][j], KeyPrefix)
          && KeyInLines(lines[1..]).value == ValueOf(lines[1..][j])
          && forall j' :: 0 <= j' < j ==> !StartsWith(lines[1..][j'], KeyPrefix);
        assert StartsWith(lines[j + 1], KeyPrefix);
      }
    } else if lines != [] {
      assert StartsWith(lines[0], KeyPrefix);
    }
  }

  lemma MatchesTail(dirs: seq<EnvFile>, i: int, j: int)
    requires dirs != [] && 1 <= i
    ensures Matches(dirs, i, j) <==> Matches(dirs[1..], i - 1, j)
  {
  }

  /** The walk finds nothing exactly when no line of any `.env` matches. */
  lemma {:induction false} KeyInDirsNone(dirs: seq<EnvFile>)
    ensures KeyInDirs(dirs) == None <==> forall i, j :: !Matches(dirs, i, j)
  {
    if dirs == [] {
      return;
    }
    KeyInDirsNone(dirs[1..]);
    var here := if dirs[0].Some? then KeyInLines(dirs[0].value) else None;
    if here.Some? {
      KeyInLinesFirst(dirs[0].value);
      var j :| 0 <= j < |dirs[0].value| && StartsWith(dirs[0].value[j], KeyPrefix);
      assert Matches(dirs, 0, j);
    } else {
      if dirs[0].Some? {
        KeyInLinesFirst(dirs[0].value);
      }
      assert KeyInDirs(dirs) == KeyInDirs(dirs[1..]);
      if KeyInDirs(dirs) == None {
        forall i, j ensures !Matches(dirs, i, j) {
          if i >= 1 {
            MatchesTail(dirs, i, j);
          }
        }
      } else {
        var i, j :| Matches(dirs[1..], i, j);
        MatchesTail(dirs, i + 1, j);
      }
    }
  }

  /** What the walk finds is the value of the first matching line. */
  lemma {:induction false} KeyInDirsFirst(dirs: seq<EnvFile>)
    requires KeyInDirs(dirs).Some?
    ensures exists i, j :: && Matches(dirs, i, j)
                           && KeyInDirs(dirs).value == Strip(dirs[i].value[j][|KeyPrefix|..])
                           && forall i', j' :: Before(i', j', i, j) ==> !Matches(dirs, i', j')
  {
    var here := if dirs[0].Some? then KeyInLines(dirs[0].value) else None;
    if here.Some? {
      var lines := dirs[0].value;
      KeyInLinesFirst(lines);
      var j :| 0 <= j < |lines| && StartsWith(lines[j], KeyPrefix)
        && here.value == ValueOf(lines[j])
        && forall j' :: 0 <= j' < j ==> !StartsWith(lines[j'], KeyPrefix);
      ValueAfterPrefix(lines[j]);
      assert Matches(dirs, 0, j);
      forall i', j' | Before(i', j', 0, j) ensures !Matches(dirs, i', j') {
      }
    } else {
      if dirs[0].Some? {
        KeyInLinesFirst(dirs[0].value);
      }
      assert KeyInDirs(dirs) == KeyInDirs(dirs[1..]);
      KeyInDirsFirst(dirs[1..]);
      var i, j :| Matches(dirs[1..], i, j)
        && KeyInDirs(dirs[1..]).value == Strip(dirs[1..][i].value[j][|KeyPrefix|..])
        && forall i', j' :: Before(i', j', i, j) ==> !Matches(dirs[1..], i', j');
      MatchesTail(dirs, i + 1, j);
      forall i', j' | Before(i', j', i + 1, j) ensures !Matches(dirs, i', j') {
        if i' >= 1 {
          MatchesTail(dirs, i', j');
          assert Before(i' - 1, j', i, j);
        }
      }
    }
  }

  /**
   * Without a usable environment variable, the key is the value of the
   * first `GEMINI_API_KEY=` line in search order (directories from the
   * working directory up, lines top to bottom), taken after its first `=`
   * and stripped; `.env` files without such a line are passed over; and
   * there is no key exactly when no line anywhere matches.
   */
  lemma GetApiKeyFirstMatch(env: Option<string>, dirs: seq<EnvFile>)
    requires env == None || env == Some("")
    ensures GetApiKey(env, dirs) == None <==> forall i, j :: !Matches(dirs, i, j)
    ensures GetApiKey(env, dirs).Some? ==> (exists i, j :: && Matches(dirs, i, j)
                                                           && GetApiKey(env, dirs).value == Strip(dirs[i].value[j][|KeyPrefix|..])
                                                           && forall i', j' :: Before(i', j', i, j) ==> !Matches(dirs, i', j'))
  {
    KeyInDirsNone(dirs);
    if KeyInDirs(dirs).Some? {
      KeyInDirsFirst(dirs);
    }
  }
}
