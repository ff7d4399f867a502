# village agent runner, modelled in Dafny

This project models the deterministic core of the village agent runner
(ianloic/village). The runner drives a Gemini chat session until one of
the model's tool calls reports success or failure. It offers the model a
set of file and build tools over a Fuchsia checkout, and it summarises
the recordings of finished runs. The model covers:

- **the session controller** (`village.py`). `Runner.TaskRunner` is a
  class with the two fields `completed` and `successful`. Its methods
  follow `__init__`, `send_message`, `run`, `save_history`,
  `task_success` and `task_failure`. Each method is proved against the
  functions `Fire`, `Call`, `Send`, `RunLoop` and `RunSession`, and the
  session properties are proved as lemmas about those functions. The
  chat provider is a script of exchanges. Each exchange fires zero or
  more completion callbacks and then either raises a transient
  `ClientError` or answers.
- **the history sanitiser** `remove_thought` over a JSON-like datatype
  (`History`).
- **the API-key lookup** `get_api_key` (`ApiKey`). The environment
  variable and the directories' `.env` files are inputs.
- **the tools** (`tools.py`):
  - the `@tool` registry, as a class with a `seq` field;
  - the `check_path` guard;
  - the `fx build`, `git grep` and `ninja -t query` command lines;
  - `git_grep` and its two wrappers (`Tools`);
  - the file tools `read_file`, `read_files`, `list_directory` and
    `write_file`, over an abstract checkout. The checkout is a map from
    paths to contents plus a set of directory paths (`Workspace`).
    `Workspace.FileSystem` updates this checkout in place, step by step
    as `write_file` does.
- **run summaries** (`summarize.py`): the status, the tool calls found in
  a recorded history, the per-tool counts, the files read and written,
  and the `--group-by` partition (`Summarize`).
- **the task registry** (`tasks/__init__.py`) and the `hlcpp-migration`
  task (`tasks/hlcpp_migration.py`): lookup by name, the default target,
  the preflight check, the tools offered and the prompt (`Tasks`).

## Model

| member | source | states |
|---|---|---|
| History.RemoveThought | village.py:40-47 | a dict stays a dict with no more entries than before and no top-level thought key, a list stays a list of the same length, and any other value comes back unchanged |
| History.RemoveThoughtClean | village.py:40-47 | no dict at any depth of the sanitised value has a `thought_signature` key |
| History.RemoveThoughtShape | village.py:40-47 | a list keeps its length and order, with each element sanitised; a dict keeps every other key in its original order; any other value comes back unchanged |
| History.RemoveThoughtGet | village.py:41-44 | in a sanitised dict, the thought key is gone and every other key finds the sanitised version of its original value |
| History.RemoveThoughtKeepsClean | village.py:40-47 | a value that has no thought key anywhere is returned exactly as it is |
| History.RemoveThoughtIdempotent | village.py:40-47 | sanitising twice gives the same result as sanitising once |
| History.KeysOfKept | village.py:42-44 | the key filter drops exactly the thought key and keeps the order of the remaining keys |
| ApiKey.GetApiKey | village.py:19-22 | a non-empty environment variable is the key, whatever the `.env` files hold |
| ApiKey.ValueAfterPrefix | village.py:28-29 | `split("=", 1)[1].strip()` of a `GEMINI_API_KEY=` line is the stripped text after that prefix, even when the value itself contains `=` |
| ApiKey.KeyInLinesFirst | village.py:27-29 | one `.env` yields nothing exactly when no line starts with the prefix; otherwise it yields the value of the first such line |
| ApiKey.KeyInDirs | village.py:23-30 | the walk up the directories finds nothing exactly when no `.env` file on the way has a matching line |
| ApiKey.KeyInDirsNone | village.py:23-30 | the walk up from the working directory finds nothing exactly when no line of any `.env` matches |
| ApiKey.KeyInDirsFirst | village.py:23-29 | the walk finds the value of the first matching line in search order (directories upward, lines top to bottom); `.env` files with no match are passed over |
| ApiKey.GetApiKeyFirstMatch | village.py:19-30 | with no usable environment variable, `None` exactly when nothing matches; otherwise the value of the first match in search order |
| Runner.Send | village.py:69-77 | `send_message` consumes the provider's exchanges from the front, and on a runner that is not completed a returned response always consumed at least one |
| Runner.RunLoop | village.py:81-83 | the follow-up loop consumes no more exchanges than the provider has, and it stops only when the task is completed or no exchange is left |
| Runner.RunSession | village.py:79-83 | the same for a whole `run`: the task prompt and then the follow-up loop |
| Runner.TaskRunner.constructor | village.py:66-67 | a new runner is neither completed nor decided, and has sent nothing |
| Runner.TaskRunner.SaveHistory | village.py:88-90 | records one history save and changes nothing else |
| Runner.TaskRunner.TaskSuccess | village.py:92-96 | saves the history, then sets `completed` and `successful := true`, with no guard on the earlier state |
| Runner.TaskRunner.TaskFailure | village.py:98-102 | saves the history, then sets `completed` and `successful := false`, with no guard on the earlier state |
| Runner.TaskRunner.CallProvider | village.py:72 | one exchange: the prompt is sent, the callbacks fired during it run in order, and the reply comes back |
| Runner.TaskRunner.SendMessage | village.py:69-77 | the loop's final state and result are those of `Send` on the prompt (`None` sent as `""`) |
| Runner.TaskRunner.Run | village.py:79-83 | the final state and result of `run` are those of `RunSession` on the task prompt |
| Runner.FireAllEffect | village.py:92-102 | firing callbacks saves the history once per callback, sets `completed` if any callback fired, and leaves `successful` as the kind of the last one |
| Runner.SendFollowsCallbacks | village.py:69-77 | `send_message` consumes a prefix of the provider's script; `completed` is true afterwards exactly when it was true before or a callback fired; `successful` is the kind of the last callback fired |
| Runner.RunLoopFollowsCallbacks | village.py:81-83 | the follow-up loop moves the state by the callbacks it triggers, in the same way |
| Runner.SessionFollowsCallbacks | village.py:79-83 | over a whole run, `completed` never goes back to false, and `successful` is the kind of the last callback fired, so a later callback overrides an earlier one |
| Runner.SendWhenCompleted | village.py:70 | on a completed runner, `send_message` sends nothing and returns `None` |
| Runner.SendEnds | village.py:70-77 | `send_message` gives up only when the script is exhausted without a completion |
| Runner.RunLoopEnds | village.py:81-83 | the follow-up loop finishes exactly when the task is completed, and stalls only when the script is exhausted |
| Runner.SessionEnds | village.py:79-83 | `run` finishes exactly when the task is completed, and stalls only when the provider stops answering |
| Runner.SendRetries | village.py:70-77 | after `k` transient errors and then an answer, the same prompt is sent `k + 1` times with a 30-second sleep after each failure, and the answer's text is returned |
| Runner.TwoErrorsThenAnswer | village.py:70-77 | two transient errors and then an answer give three sends of the prompt, two sleeps, and the answer |
| Runner.SendPaced | village.py:70-77 | every send inside one `send_message` carries the same prompt, and every send after the first comes right after a retry sleep |
| Runner.RunLoopPaced | village.py:81-83 | the follow-up loop appends whole rounds to the log: each round is a history save, then a `send_message("")` whose sends all carry the empty prompt, the first right after the save and each retry right after a 30-second sleep |
| Runner.SessionPaced | village.py:79-83 | a run sends the task prompt first (with retries after a sleep); everything after that is follow-up rounds as above |
| Runner.RoundsPaced | village.py:81-83 | follow-up rounds start with a history save, and every send in them is of the empty prompt and comes right after a history save or a retry sleep |
| Tools.Registry.Tool | tools.py:12-15 | the decorator appends the function to `TOOLS` and returns it unchanged |
| Tools.LoadTools | tools.py:58-268 | importing tools.py leaves `TOOLS` holding the ten decorated functions in declaration order |
| Tools.ToolsRegistered | tools.py:9-282 | `TOOLS` holds exactly the decorated functions, each once and in declaration order; the helpers `check_path`, `run_command_lines`, `run_command` and `git_grep` are excluded |
| Tools.PathAllowedIff | tools.py:18-21 | `check_path` accepts exactly the paths with no two dots in a row that do not start with `/` |
| Tools.CheckPathExamples | tools.py:18-21 | `a..b` and `/etc` are rejected, and the empty path passes |
| Tools.FxBuildCommand | tools.py:70-76 | the `fx_build` command is `fx build -q` followed by at most one argument |
| Tools.FxBuildRoundTrip | tools.py:70-76 | the target is appended only when it is non-empty, and it can be read back off the command |
| Tools.GitGrepCommand | tools.py:234-240 | the `git grep` command starts with `git` and ends with the pattern |
| Tools.GitGrepRoundTrip | tools.py:234-240 | `-C path` appears exactly for a non-empty path and `--fixed-strings` exactly for a non-regex search, so the path, pattern and mode can be read back off the command |
| Tools.PathJoinAllowed | tools.py:244 | joining two paths that pass `check_path` gives a path that passes it |
| Tools.JoinedLinesShape | tools.py:243-244 | each result is the searched directory, a `/` where needed, and the stripped output line; with an empty directory it is the stripped line itself |
| Tools.BuildGitGrepCommand | tools.py:234-240 | the argument list built piece by piece is the `git grep` command above |
| Tools.GitGrep | tools.py:232-246 | a rejected path raises `AssertionError` before any command runs; otherwise the command is the one above and the results are the joined lines, in output order |
| Tools.SearchDirectory | tools.py:249-264 | a fixed-string `git_grep` behind the same guard |
| Tools.RegexSearchDirectory | tools.py:267-282 | a regex `git_grep` behind the same guard |
| Tools.GnQueryPath | tools.py:116-121 | a label without `//` is not queried; otherwise the queried path is the label minus `//`, cut before the first `(` |
| Tools.AsWrittenRaisesOnUnknownLabel | tools.py:122-124 | as written, an unknown `//` label raises `CalledProcessError` instead of returning `False` |
| Tools.CheckGnLabelAgrees | tools.py:101-132 | the as-written and intended checks agree wherever the code as written returns; the code raises exactly on the `//` labels the intended check rejects |
| Tools.CheckGnLabelSpec | tools.py:101-132 | the intended check rejects any label without `//`; otherwise `ninja`'s verdict on the query path decides, and a toolchain suffix `(...)` does not change the answer |
| Workspace.ReadFile | tools.py:136-151 | `read_file` returns contents exactly for an allowed path that is a file, and then the file's contents; a rejected path raises `AssertionError` |
| Workspace.ListDirectorySpec | tools.py:211-229 | `list_directory` returns a listing exactly for an allowed path that is a directory, with one entry per name in the directory |
| Workspace.WriteFileSpec | tools.py:182-207 | on success the path holds exactly `contents`; the only command ever run is the diff of the backup against the path; a rejected path raises `AssertionError` with nothing changed or run |
| Workspace.CheckPathFirst | tools.py:149-222 | a path rejected by `check_path` makes `read_file`, `list_directory` and `write_file` raise `AssertionError` with nothing changed and nothing run; a `read_files` call that includes it raises too |
| Workspace.ReadFilesResult | tools.py:154-178 | one rejected path aborts `read_files`; otherwise its keys are exactly the requested paths that can be read, each mapped to its file's contents, and unreadable paths are left out silently |
| Workspace.FileSystem.ReadFiles | tools.py:170-178 | the loop returns what `ReadFilesSpec` describes |
| Workspace.ListingMarksDirectories | tools.py:223-229 | an entry ends in `/` exactly when it is a directory; dropping the slash gives back the name, in `os.listdir` order |
| Workspace.FileSystem.ListDirectory | tools.py:210-229 | a rejected path raises `AssertionError`, a file raises `NotADirectoryError`, a missing path raises `FileNotFoundError`; otherwise the result is the marked listing |
| Workspace.FileSystem.Rename | tools.py:199 | the source's entry moves to the destination name, and nothing else changes |
| Workspace.FileSystem.Unlink | tools.py:207 | removes a file; raises for a directory or a missing path without changing anything |
| Workspace.FileSystem.WriteFile | tools.py:181-207 | the rename, write, diff and unlink steps leave the tree, the commands run and the outcome described by `WriteFileSpec` |
| Workspace.WriteFileSucceeds | tools.py:193-207 | `write_file` succeeds exactly for an allowed, non-empty path that is not a directory and, if it exists, has no backup; afterwards the path holds exactly `contents`, reading it back gives `contents`, and every other file and every directory is as before; the backup name exists afterwards exactly when it existed before, so a backup moved aside is removed again, and a stray backup next to a path that did not exist stays |
| Workspace.WriteFileFrame | tools.py:195-207 | no path other than `path` and its backup changes |
| Workspace.WriteFileGuard | tools.py:193-199 | a rejected path, or an existing path whose backup also exists, fails before anything changes or runs |
| Workspace.WriteFileDiffs | tools.py:205-206 | the diff of the backup against the new file runs exactly when an existing path was moved aside |
| Workspace.WriteFileOverDirectory | tools.py:197-207 | overwriting a directory moves it to the backup name, writes the file, and then fails on the unlink of the backup |
| Workspace.WriteFileValid | tools.py:181-207 | no path ever names both a file and a directory |
| Summarize.Status | summarize.py:62-64 | `INCOMPLETE` exactly when the run is not completed; otherwise `SUCCESS` exactly when `successful` is true, else `FAILURE` |
| Summarize.PartCallsMembers | summarize.py:53-56 | the calls of one entry are exactly the truthy `function_call` values of its parts |
| Summarize.FunctionCalls | summarize.py:46-56 | (no contract of its own) the calls of a history in order, entry by entry; its properties are `FunctionCallsMembers` and `FunctionCallsAppend` |
| Summarize.FunctionCallsMembers | summarize.py:46-56 | `_function_calls` yields a call exactly when some part of some truthy entry with truthy parts holds it |
| Summarize.FunctionCallsAppend | summarize.py:50-56 | the calls come out in history order |
| Summarize.Tally | summarize.py:66-68 | the counter holds only positive counts |
| Summarize.TallyCounts | summarize.py:66-68 | `tools_used` has a key for each name used, and counts each name as often as it occurs among the calls |
| Summarize.FilesMembers | summarize.py:69-78 | `files_read` is the union of the `read_file` paths and the `read_files` path lists, and `files_written` is the set of `write_file` paths; other tools contribute nothing, and missing arguments count as `""` and `[]` |
| Summarize.AddFiles | summarize.py:70-78 | one pass of the loop adds exactly the files that call reads or writes |
| Summarize.Summarize | summarize.py:59-92 | the summary has the derived status, counts and file sets; `steps` is the history length; `tokens`, `task`, `model`, `temperature` and `duration` are copied unchanged |
| Summarize.KeyLessOrder | summarize.py:117 | the order `sorted` uses on group values is a strict total order |
| Summarize.SortedDistinctSpec | summarize.py:117 | the groups are the distinct attribute values, each once, in increasing order |
| Summarize.MembersSpec | summarize.py:119 | a group holds exactly the summaries whose attribute equals the group value |
| Summarize.GroupSummaries | summarize.py:117-119 | the loop pairs each sorted group value with its members, in group order |
| Summarize.GroupingPartitions | summarize.py:115-119 | the groups are sorted, distinct and exactly the attribute values present; each summary lies in the group of its own value, and the group sizes add up to the number of summaries |
| Tasks.NewHlcppMigration | tasks/hlcpp_migration.py:26-28 | the directory is stored unchanged; a missing or empty target becomes `"//" + directory`, and any other target is kept |
| Tasks.DefaultTargetQueriesDirectory | tasks/hlcpp_migration.py:28-31 | with the default target, the preflight check asks `ninja` about the component directory itself |
| Tasks.Preflight | tasks/hlcpp_migration.py:30-31 | as written, over `check_gn_label` as written: the run goes ahead exactly when the intended label check accepts the target |
| Tasks.PreflightFails | tasks/hlcpp_migration.py:30-31 | as written, the preflight fails with `AssertionError` exactly when the target is not a `//` label, and with `CalledProcessError` carrying `ninja`'s exit status exactly when `ninja` does not know the target's path (the exception of tools.py:122-124 passes through the assertion) |
| Tasks.PreflightRaisesOnUnknownTarget | tasks/hlcpp_migration.py:30-31 | target `//a` with `ninja` exiting 1: as written the preflight raises `CalledProcessError(1)`; as intended it fails the assertion |
| Tasks.PreflightIntendedFails | tasks/hlcpp_migration.py:30-31 | with the corrected `check_gn_label`, the preflight fails, always with `AssertionError`, exactly when the target is not a `//` label or `ninja` does not know its path; it passes exactly when the code as written passes, and the two differ only on `//` targets `ninja` does not know |
| Tasks.TaskTools | tasks/hlcpp_migration.py:33-36 | the task offers every decorated tool and nothing else |
| Tasks.Prompt | tasks/hlcpp_migration.py:38-70 | (no contract of its own) the prompt text with the directory, the target, the tool name and the target again spliced in; its properties are `PromptMentions` |
| Tasks.PromptMentions | tasks/hlcpp_migration.py:38-70 | the prompt names the component directory, names the target (to build it, and again at the end to drop it from the HLCPP visibility list), and names the `check_gn_label` tool |
| Tasks.FindFirstSpec | tasks/__init__.py:19-21 | the lookup returns the first class whose `NAME` matches, and nothing when none does |
| Tasks.GetTask | tasks/__init__.py:18-22 | a failed lookup raises `ValueError("Unknown task: " + name)` |
| Tasks.GetTaskSpec | tasks/__init__.py:5-22 | `hlcpp-migration` is the only name accepted, and its arguments go unchanged to the constructor; any other name raises `ValueError("Unknown task: " + name)`, so `None` is never returned |

## Left out

- The Gemini client is not modelled: `genai.Client`, `chats.create` and the configuration built in `TaskRunner.__init__`. The chat provider is a finite script of exchanges.
- Runner.TaskRunner.SendMessage: the code retries forever while the provider keeps failing. The model stops with `ScriptExhausted` (and `run` with `Stalled`) when the script runs out, so non-termination is not modelled.
- `send_message` does not inspect the response's candidates or finish reason; it returns `response.text` (village.py:72-73), and the model returns the exchange's text in the same way.
- `asyncio.sleep(30)` is not modelled as a wait. It is recorded as a `Slept(30)` event.
- Console `print` output is not modelled.
- The content `save_history` writes is not modelled: `get_history`, `model_dump` and the JSON file. `save_history` is recorded as an event.
- The completion tools and the `tools.on_success` / `tools.on_failure` slots are not modelled, because tools.py does not define them. A callback is an event inside an exchange.
- The main block of village.py, argument parsing and the web UI are not modelled. `Tasks.GetTaskSpec` shows that the `None` check after `get_task` can never fire.
- ApiKey.GetApiKey: `os.environ`, the working directory and its parents, and reading `.env` files are inputs. `splitlines` is assumed already applied.
- Subprocesses are not run. `run_command_lines` and `run_command` are not modelled, and neither are the `FX_BUILD_RBE_STATS` edit and the output of `fx`, `git`, `ninja` and `diff`. A command is recorded as its argument list; its output (for `git grep`) or exit status (for `ninja`) is an input.
- `fx_test` always returns `""`, and `add_target_to_build` appends to `out/default/args.gn`. Neither is modelled beyond its place in the registry, because both are file I/O or trivial.
- The filesystem model is not a real filesystem. Paths are compared as strings without normalisation, a directory's contents are not tied to its path (`os.listdir` is an input), and parent directories and permissions are not modelled.
- Renaming a directory moves only that directory's own entry.
- Summarize.Summarize: reading and parsing the JSON recording is not modelled; the input is an already-loaded record. A truthy `successful` is modelled as `Some(true)`. `total_token_count` is taken from the record directly, without the `usage` lookup.
- Summarize.TallyCounts: `Counter` is modelled as a map, so the insertion order of the tool counts, used only when printing, is not captured.
- Float arithmetic and formatting are not modelled: `tool_percentages`, `min_mean_max`, the per-group status percentages and tool percentages, and `Summary.print`. Durations and temperatures are `real`.
- Summarize.KeyLess: Python cannot compare strings with numbers. All values of one attribute have the same kind, so the model simply puts numbers first.
- `interactive` (pandas) is not modelled, and neither are `add_subcommand` or `add_task_parsers`.
- `tasks/base_task.py` contains only stubs and is not modelled. system_prompt.py, main.py, ui.py and ui/ui.js are not part of this model.
- Tasks.PromptMentions: the prompt is modelled as its exact text, but only what it mentions is proved about it.

## Findings

| source | as written | input that shows it | evidently intended | confidence | as-written member | corrected member |
|---|---|---|---|---|---|---|
| tools.py:122-124 | `subprocess.check_call(...) == 0`: `check_call` raises `CalledProcessError` on a non-zero exit status, so the comparison only ever sees 0 and `check_gn_label` never returns `False` for a `//` label | label `//a` with `ninja -t query a` exiting 1 raises instead of returning `False` | return whether `ninja -t query` exits with 0 (as the docstring promises), e.g. with `subprocess.call` | high; not executed | Tools.CheckGnLabelAsWritten (Tools.AsWrittenRaisesOnUnknownLabel); its caller Tasks.Preflight (Tasks.PreflightFails, Tasks.PreflightRaisesOnUnknownTarget), whose assertion the exception passes through | Tools.CheckGnLabel (Tools.CheckGnLabelSpec, Tools.CheckGnLabelAgrees); Tasks.PreflightIntended (Tasks.PreflightIntendedFails) |
