# Qwak build action, modelled in Dafny

The build action is a single CI step, `register_build.py`, which does four things in order:

1. It assembles a `qwak models build` command line from environment variables (`build_command`).
2. It runs that command and finds the build id in the CLI's output. The id sits between `Build ID ESC[4m` and `ESC[0m`.
3. It polls the Qwak client until the build succeeds, fails or passes its deadline (`wait_for_build`).
4. It appends `build-id=`, `build-status=` and, on success, `build-metrics=` lines to the CI environment file, and exits with 0 or 1.

The model is organised as follows:

- `text.dfy` (module `Text`) holds the Python string operations the script relies on: `sep.join`, `str.split` with a one-character separator, and `str.lower`.
- `command_builder.dfy` (module `CommandBuilder`) holds `build_command`.
  - `BuildCommand` is an imperative method that appends token segments in the source's order. It is proved equal to a reference rendering `Render(Normalize(cfg))`.
  - `ParseTokens` / `ParseCommand` read a command back, and are proved to invert the rendering.
- `command_properties.dfy` (module `CommandProperties`) holds what the command promises as a whole:
  - the case-insensitive reading of the two switches;
  - one `flag item` pair per comma-separated piece;
  - the command carries every option, so it round-trips.
- `status_poller.dfy` (module `StatusPoller`) holds `wait_for_build` as a `while` loop.
  - The wall clock is a sequence of readings `elapsed`. The client is a sequence of replies, each a build snapshot or a raised error.
  - The loop is proved to compute `Poll`, a declarative account of where the loop stops and what it returns.
  - It is also proved to print `PollLog`, the status-change lines.
- `build_report.dfy` (module `BuildReport`) holds the `__main__` block:
  - the regular-expression search for the build id, with a leftmost-match characterisation;
  - the environment-file lines and how they read back;
  - the whole step, as the method `RegisterBuild` proved equal to the function `Step`.
- `wrappers.dfy` (module `Wrappers`) holds `Option` (an unset environment variable is `None`).

## Model

| member | source | states |
|---|---|---|
| `CommandBuilder.BuildCommand` | register_build.py:14-84 | The imperative builder returns the single-space join of `Render(Normalize(cfg))`: the fixed `qwak models build` prefix, then every set option in the source's order. |
| `CommandBuilder.AppendPairs` | register_build.py:36-37 | The `for` loop over a split list appends exactly one `flag item` pair per item, in order. |
| `CommandBuilder.AppendOpt` | register_build.py:19-20 | A set, non-empty variable appends its flag and value; an unset or empty one appends nothing. |
| `CommandBuilder.AppendBare` | register_build.py:24-25 | A set, non-empty model path is appended on its own, without a flag. |
| `CommandBuilder.AppendList` | register_build.py:33-37 | A set, non-empty list variable is split at commas and appended as pairs; otherwise nothing is appended. |
| `CommandBuilder.ParseRender` | register_build.py:14-84 | Reading the rendered tokens back gives exactly the options they were rendered from, when the bare model path is not one of the flags. |
| `CommandBuilder.ReadFrontRender` | register_build.py:17-30 | The model-id, path and main-dir segments are read back and the rest is handed on. |
| `CommandBuilder.ReadListsRender` | register_build.py:32-51 | The `-P`, `-E` and `-T` segments are read back as the three lists, leaving what follows them. |
| `CommandBuilder.ReadBackRender` | register_build.py:53-81 | The instance, base-image, iam-role-arn, gpu, environment and json-logs segments are read back, with nothing left over. |
| `CommandBuilder.TakePairsRender` | register_build.py:36-37 | A run of `flag item` pairs is read back as its items. |
| `CommandProperties.CommandRoundTrip` | register_build.py:14-84 | Splitting the returned command string at spaces and parsing it gives the normalised options back. This holds when no value contains a space and the model path is not a flag word. |
| `CommandProperties.CommandDeterminesOptions` | register_build.py:14-84 | Two configurations with the same command string choose the same options, when neither has a value holding a space and neither model path is a flag word. |
| `CommandProperties.RenderInjective` | register_build.py:14-84 | Distinct option sets give distinct token lists, when neither model path is a flag word. |
| `CommandProperties.GpuSwitchIff` | register_build.py:69-71 | `--gpu-compatible` is emitted exactly when GPU_COMPATIBLE is set to `true` in any mix of upper and lower case. |
| `CommandProperties.JsonLogsSwitchIff` | register_build.py:79-81 | `--json-logs` is emitted unless LOGS_AS_JSON is `false` in some case spelling. It is emitted when the variable is unset, because the default is `true`. |
| `CommandProperties.ItemsOfList` | register_build.py:34-35 | A set list variable gives one item per comma-separated piece, empty pieces included, and the items rejoin to the value. Unset or empty gives none. |
| `CommandProperties.PairsShape` | register_build.py:36-51 | The pairs for a list have length twice the item count: the flag at every even position, the i-th item after the i-th flag. |
| `CommandProperties.RenderAvoidsSpace` | register_build.py:84 | With space-free values, no token holds a space, so the space join cannot merge or cut tokens. |
| `CommandProperties.NormalizeSpaceFree` | register_build.py:33-51 | Splitting space-free list values gives space-free items. |
| `CommandProperties.PathFlagCollision` | register_build.py:23-25 | A model path spelled `--gpu-compatible` and GPU_COMPATIBLE `true` give the same command string but different options, so the round trip needs a path that is not a flag word. |
| `CommandProperties.SpaceCollision` | register_build.py:84 | MODEL_ID `a b`, and MODEL_ID `a` with MODEL_PATH `b`, give the same command string but different options, so the round trip needs values without spaces. |
| `Text.JoinMerges` | register_build.py:84 | A part holding the separator joins to the same text as its two halves given as two parts. |
| `CommandProperties.SampleTokens` | register_build.py:14-84 | For model id `123`, path `/path/to/model`, GPU `true` and logs `true`, the tokens are `qwak models build --model-id 123 /path/to/model --gpu-compatible --json-logs`. |
| `Text.Split` | register_build.py:35 | `str.split(sep)` gives one more piece than there are separators. No piece holds the separator, and joining the pieces with it gives the text back. |
| `Text.SplitJoin` | register_build.py:35 | Splitting undoes joining when no part holds the separator. |
| `Text.LowerMatchesIgnoringCase` | register_build.py:70 | For the ASCII lower-casing `Lower` and a word `w` of lower-case ASCII letters, `Lower(s) == w` holds exactly when `s` spells `w` letter by letter in either case. |
| `StatusPoller.WaitForBuild` | register_build.py:87-132 | The polling loop returns what `Poll` says, and prints exactly the status lines `PollLog` says. |
| `StatusPoller.FirstStop` | register_build.py:99-124 | The pass found is the first one, from the given pass on, after which the loop does not go round again. It always exists, because the clock passes the deadline. |
| `StatusPoller.EndsAt` | register_build.py:99-132 | The poll's outcome and snapshot count at each kind of stopping pass: timed out with no fetch, client error, SUCCESSFUL, any other terminal status. |
| `StatusPoller.StopUnique` | register_build.py:99-124 | The stopping pass is the only pass at which the loop stops. |
| `StatusPoller.SucceedsIff` | register_build.py:115-119 | The poll returns snapshot `b` as a success exactly when it stops at a pass inside the deadline that fetched `b` with status SUCCESSFUL. |
| `StatusPoller.FailsIff` | register_build.py:122-124 | The poll returns `b` as a failure exactly when it stops at a pass inside the deadline that fetched `b` with a status that is neither SUCCESSFUL, IN_PROGRESS nor REMOTE_BUILD_INITIALIZING. |
| `StatusPoller.TimesOutIff` | register_build.py:99-127 | The poll raises its own `TimeoutError` exactly when it stops at a pass that finds the deadline `60 * timeout` already passed. |
| `StatusPoller.RaisesIff` | register_build.py:104-132 | A client error is re-raised exactly when the pass that met it was inside the deadline and every earlier pass saw an in-progress status. |
| `StatusPoller.NonPositiveTimeout` | tests/test_register_build.py:37-43 | With a timeout of zero minutes or less, the poll times out without a single query and prints nothing. |
| `StatusPoller.ImmediateSuccess` | tests/test_register_build.py:24-35 | A SUCCESSFUL first snapshot inside the deadline is returned, and `SUCCESSFUL` is printed once. |
| `StatusPoller.InProgressThenSuccess` | register_build.py:110-119 | IN_PROGRESS, IN_PROGRESS, SUCCESSFUL inside the deadline returns the successful snapshot and prints two status lines. |
| `StatusPoller.UnknownStatusFails` | register_build.py:122-124 | A status outside the three known ones ends the poll as a failure on the pass that sees it. |
| `StatusPoller.DependsOnlyOnPolled` | register_build.py:99-124 | Clocks and clients that agree up to the stopping pass give the same outcome and the same printed lines. |
| `StatusPoller.ChangeLogLength` | register_build.py:110-112 | One status line is printed per run of equal neighbouring statuses. |
| `StatusPoller.ChangeLogNoRepeats` | register_build.py:110-112 | No two consecutive printed lines are the same status, and the last printed line is the last status seen. |
| `StatusPoller.ChangeLogSameStatuses` | register_build.py:110-112 | Every status seen is printed at least once, and only statuses seen are printed. |
| `StatusPoller.ChangeLogSnoc` | register_build.py:110-112 | One more status extends the printed lines exactly when it differs from the previous status. |
| `BuildReport.MatchAtIff` | register_build.py:168 | Trying the pattern at a position gives group `id` exactly when the pattern matches there with that group. |
| `BuildReport.SearchFromFinds` | register_build.py:169 | The search returns a match with no match before it, or there is no match at all. |
| `BuildReport.ExtractLeftmost` | register_build.py:168-172 | The extracted id is exactly the group of the leftmost match of `Build ID \x1b\[4m([a-fA-F0-9\-]+)\x1b\[0m`. |
| `BuildReport.ExtractNoneIff` | register_build.py:169-192 | No id is extracted exactly when the pattern matches nowhere in the output. |
| `BuildReport.ExtractedIdShape` | register_build.py:168-172 | An extracted id is non-empty and made only of hex digits and `-`. |
| `BuildReport.ParseLineRoundTrip` | register_build.py:181-185 | A `key=value` line reads back as the key and the value, when the key holds no `=`. |
| `BuildReport.EnvTextRoundTrip` | register_build.py:181-202 | For lines that hold no newline, the appended text, each line terminated by `\n`, splits at newlines back into those lines followed by one empty piece. |
| `BuildReport.ResultEntries` | register_build.py:180-206 | Each outcome's lines carry these keys and values: success gives id, status and metrics; failure gives id and status. A timeout, the poll's own or the client's, gives the id and `TIMEOUT`. Any other error gives nothing. |
| `BuildReport.MetricsOnlyOnSuccess` | register_build.py:184-185 | A `build-metrics` line is written exactly when the build succeeded. |
| `BuildReport.RegisterBuild` | register_build.py:136-212 | The imperative main block computes the command, the appended lines and the exit code that `Step` defines. |
| `BuildReport.ExitCodeIff` | register_build.py:163-212 | The exit code is 0 or 1. It is 0 exactly when the CLI succeeded, its output named a build, and that build was reported SUCCESSFUL in time. |
| `BuildReport.StatusReported` | register_build.py:163-206 | A failed CLI run or an output without a build id writes nothing. A build waited for is reported with `build-id` then `build-status`, unless the client raised a non-timeout error. |
| `BuildReport.SampleSuccessLines` | register_build.py:180-185 | Build `abc-123`, SUCCESSFUL with metrics `{"acc":0.9}`, is reported with exactly the three expected lines. |
| `BuildReport.SampleExtraction` | register_build.py:168-172 | The CLI's announcement `Build ID ESC[4mabc-123ESC[0m` yields the id `abc-123`. |

## Left out

- Running the command: `subprocess.Popen`, its exit code and its output are parameters (`returnCode`, `stdout`). The shell's own interpretation of the string is not modelled.
- The Qwak client: each `get_build(build_id)` call is a `Reply` taken from a sequence. A raised exception is a `QueryError`, which records whether it was a `TimeoutError`.
- The construction `QwakClient()` at line 90 is a foreign call as well. It is taken to succeed. If it raised, the exception would escape before the `try` at line 97. The script would then exit with 1, having written no lines, or, for a `TimeoutError`, the `TIMEOUT` lines. The model does not capture this.
- The clock: `time.time() - start_time` at each check of the loop condition is a sequence `elapsed` of readings.
  - The readings are whole seconds, although the source's reading is a float. Nothing is lost: the deadline `60 * timeout` is an integer `n`, and for a real `x`, `x < n` holds exactly when `floor(x) < n`.
  - The poller requires that the last reading has passed the deadline and that there is a reply for every earlier reading.
  - That is what makes the loop end; nothing about real time is modelled.
- `time.sleep(SLEEP_BETWEEN_STATUS_QUERY)`, the 10-second pause at line 12, is left out. It affects only the clock readings.
- Printing: log messages, and the elapsed-time message after a success, are left out. The status-change lines are modelled, as the `log` result.
- `exit(1)` is the exit code of `Step`. A normal end is exit code 0.
- Reading environment variables is a `Config` record, with `None` for an unset variable.
  - The `int(...)` parse of INPUT_TIMEOUT_AFTER (line 138), with its default of 30, is left out; the timeout is an integer parameter.
  - A malformed value would raise before anything else runs.
- Writing to the file named by GITHUB_ENV is the returned `lines`: one string per `file.write`, without its trailing newline. `EnvText` gives the appended text.
- Text.Lower: lower-cases ASCII letters only. For the comparisons with `true` and `false` this is the same as Python's `str.lower`, since no other character lowers to those letters.
- BuildReport.ExtractBuildId: the `.strip()` on the group is the identity, because the character class holds no whitespace. Python's `re` engine is not modelled beyond this one pattern.
- `is` and `is not` on the status name and on enumeration members are modelled as equality. That is what they amount to for the enumeration's interned names.
- A build's metrics are an opaque string, written as they are formatted.
- The unit test at tests/test_register_build.py:9-19 is not modelled. It sets `INPUT_`-prefixed variables and expects `--cpus`/`--memory` flags, which `build_command` never reads or emits.
- CommandProperties.CommandRoundTrip: holds only for values without spaces and a model path that is not a flag word.
  - The source joins with spaces and hands the string to a shell.
  - A value with a space does not survive the split.
  - `PathFlagCollision` and `SpaceCollision` show that both conditions are needed: without either, two different configurations give the same command string.
- A `TimeoutError` raised by the client inside `wait_for_build` is re-raised at line 132. It is caught by the `except TimeoutError` handler at lines 194-206 and reported as `TIMEOUT`, so `ResultLines` does the same.
