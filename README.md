# lmd (rmx): a verified model of `run`, `sync` and the configuration helpers

lmd deploys a local project to a remote machine and runs a command there. The `run`
command does the following:

- looks the machine up in the configuration;
- derives the project's remote directories;
- merges the rsync exclude lists and pushes the project with rsync;
- resolves the execution mode and merges the environment;
- calls the ssh, docker or slurm backend. In slurm mode it can call the backend once per index of a `--sweep` range;
- lists the remote output directory and pulls it back when it is not empty.

The `sync` command performs the lookup, exclude merge and push, and stops there. The
helpers in `lmd/helpers.py` merge and clean the nested JSON configuration, walk up parent
directories, read `sacct` output, convert paths to strings and prefix scripts with an
interpreter line.

The model is written in Dafny. Each file keeps the form of the code it models.

- **The two commands are methods.** `Sync.Execute` and `RunCommand.Execute` (with
  `RunCommand.Dispatch` and the sweep loop `RunCommand.Sweep`) take their steps in the
  source's order. They are proved equal to the specification functions `Sync.SyncTrace` and
  `RunCommand.RunTrace`.
- **The outside world is a trace.** Every effect the commands have (the rsync push, a
  backend `execute`, the remote `ls | grep | wc -l`, the rsync pull, the exception that ends
  the command) is an `Event` appended to that trace.
- **The answers of the outside world are a `World` value.** It gives:
  - whether the push fails;
  - which backend call fails, if any;
  - the count the listing prints;
  - whether the pull fails.
- **Project internals are taken as given.** `project.remote_rootdir` and
  `project.remote_outdir` are computed by the Project class, which is not part of this model.
  They are the two functions of a `Layout` value.
- **Properties are lemmas.** `RunProperties` proves properties of `RunTrace`; `Sync`
  proves properties of `SyncTrace`.
- **The helpers are functions.** They work on a JSON-like `NestedDict.Val` tree, on
  `Paths.Path` and on strings. The loop of `yield_parents` is the method
  `Paths.YieldParents`.

The model reproduces these behaviours of the code as written:

- The recursive call of `merge_nested_dict` does not pass `conflict` on, so nested conflicts
  are always resolved as `'use_b'`.
- Docker's dry-run check comes after the push.
- `--sweep` is read only in slurm mode.
- The sweep index is stored in the environment as an int.
- A `--conf` missing from `slurm-configs` raises AttributeError, because the error message
  reads `parsed.con`.
- No exception is caught, so a failure skips the pull.
- `exclude` is None when the global `rsync` table has no `exclude` key, so extending it with
  the project's list raises AttributeError.

Some behaviours of the code a reader might not expect, all modelled as the code has them:

- docker's dry-run check raises only after the project has been pushed
  (`lmd/cli/commands/run.py:169` runs before `run.py:199`).
- Nothing wraps the backend call in a `try`/`finally`, so after a failed call the output
  directory is neither listed nor pulled.
- `--sweep` given in any mode other than slurm is silently ignored.
- Each end of a `--sweep` range goes through `int()`, which accepts white space around the
  digits and a leading `+`, so `"1 - 3"` and `"+1-3"` are both the range from 1 to 3.
- `--mode` only accepts the five known modes (`lmd/cli/commands/run.py:27-35`), but the
  machine's `default_mode` may be any string; an unknown one reaches the final `KeyError`.
- The failures are Python's own exception classes: KeyError, ValueError, AttributeError,
  TypeError, RuntimeError, AssertionError and NotImplementedError, plus whatever the rsync
  and backend calls raise. `Config.ClassOf` gives the class each modelled error surfaces as.
- The environment read from the configuration holds strings, but the sweep stores an int
  in it.
- `merge_nested_dict` compares leaves with Python's `==`, so the int 1, the float 1.0 and
  `true` are one value to it, while the string "1" differs from all three.

## Model

| member | source | states |
|---|---|---|
| Paths.Parent | lmd/helpers.py:7 | `path.parent` drops the last component and keeps absoluteness; a path without components is its own parent |
| Paths.IsSystemRoot | lmd/helpers.py:6-7 | a path equals its parent exactly when it has no components (`/` or `.`) |
| Paths.YieldParents | lmd/helpers.py:9-16 | the loop yields min(max_depth, depth of the path) paths (max_depth 999 when absent, nothing when negative); the i-th is the input cut to all but its last i+1 components |
| Paths.YieldParentsWalk | lmd/helpers.py:9-16 | at most max_depth paths; the first is the input's parent, each later one the parent of the one before; the input never appears; a walk shorter than max_depth ends at the system root, and no earlier path is the root |
| NestedDict.MergeUseB | lmd/helpers.py:19-40 | the merge under 'use_b' (the policy of every nested call) has exactly the keys of both dicts |
| NestedDict.MergeNestedDict | lmd/helpers.py:19-40 | under 'use_b' the result is the 'use_b' merge at every depth |
| NestedDict.ScalarEq | lmd/helpers.py:29 | Python's `==` on JSON leaves: every leaf equals itself, a string equals only the same string, None only None, an int equals a float of the same value, and `true`/`false` equal 1/0 |
| NestedDict.PyEq | lmd/helpers.py:29 | Python's `==` on configuration values: equal values are of the same kind, and two leaves are equal exactly as `ScalarEq` says |
| NestedDict.PyEqReflexive | lmd/helpers.py:29 | every configuration value (JSON floats being reals) is `==` to itself |
| NestedDict.MergeKeepsKeys | lmd/helpers.py:25-39 | after a merge every key of `a` and of `b` is present; keys only in `a` keep `a`'s value, keys only in `b` get `b`'s, a leaf of `a` that Python's `==` finds equal to `b`'s stays, and where both hold dicts the result is their recursive 'use_b' merge |
| NestedDict.MergeUseBKeepsA | lmd/helpers.py:25-28 | the merge is recursive: an entry of `a` at any depth that `b` does not reach (nothing at its path, no leaf above it) is kept unchanged |
| NestedDict.MergeSelf | lmd/helpers.py:25-30 | merging a dict into itself raises under no policy and gives the dict back, because every value is `==` to itself |
| NestedDict.MergeUseBSelf | lmd/helpers.py:25-33 | the 'use_b' merge of a dict with itself is that dict at every depth |
| NestedDict.MergeComparesLikePython | lmd/helpers.py:29-37 | leaves are compared with Python's `==`: "1" against 1 is a conflict (ValueError under a strict policy), while 1 against `true` is no conflict and `a`'s 1 stays under 'use_b' |
| NestedDict.MergeTopLevelConflict | lmd/helpers.py:29-37 | a top-level leaf conflict takes `b`'s value under 'use_b', keeps `a`'s under 'use_a', and raises ValueError naming the key under any other policy |
| NestedDict.MergeConflictOnlyForUnknownPolicy | lmd/helpers.py:31-37 | the ValueError happens only under a policy other than 'use_b' and 'use_a', and names only keys where two different leaves meet |
| NestedDict.MergeUseBOverlay | lmd/helpers.py:26-33 | under 'use_b', at the path of every leaf of `b`, at any depth, the result holds `a`'s value there when it is `==` to the leaf, and the leaf otherwise |
| NestedDict.NestedConflictIgnoresPolicy | lmd/helpers.py:27-28 | where both sides hold dicts, a nested leaf of `b` replaces any value of `a` not `==` to it under every policy, 'use_a' included, because `conflict` is not passed down |
| NestedDict.RemoveRecursively | lmd/helpers.py:77-86 | no dict reachable through dicts holds `key` afterwards; the other keys stay, dict values stay dicts and non-dict values are unchanged |
| NestedDict.RemovePreservesPaths | lmd/helpers.py:77-86 | every path avoiding `key` reaches a node afterwards exactly when it did before, and the same leaf |
| NestedDict.RemoveKeyFreeUnchanged | lmd/helpers.py:79-86 | removing a key absent at every depth changes nothing, so the removal is idempotent |
| NestedDict.ComposeConfig | lmd/helpers.py:71-75 | the composed configuration has the keys of the global and the local configuration except `__help` |
| NestedDict.MergeUseBKeyFree | lmd/helpers.py:74 | merging two dicts free of a key gives a dict free of it |
| NestedDict.ComposeConfigHelpFree | lmd/helpers.py:71-75 | the composed configuration holds no `__help` at any depth |
| NestedDict.ComposeConfigLocalWins | lmd/helpers.py:71-75 | at the path of every local leaf that avoids `__help`, the composed configuration holds the global value there when it is `==` to the leaf, and the leaf otherwise |
| NestedDict.ComposeConfigGlobalKept | lmd/helpers.py:71-75 | a global leaf on a path avoiding `__help` that the local configuration does not reach is found unchanged in the composed configuration, at any depth |
| NestedDict.PosixPathToStr | lmd/helpers.py:139-148 | the result keeps list lengths, dict keys and other leaves, turns each path into its string, and holds no path |
| NestedDict.PosixPathToStrPathFree | lmd/helpers.py:139-148 | a value without paths is returned unchanged |
| NestedDict.PosixPathToStrIdempotent | lmd/helpers.py:139-148 | applying the conversion twice equals applying it once |
| Strings.Split | lmd/helpers.py:134-136 | `str.split(sep)` returns at least one piece and no piece contains `sep` |
| Strings.JoinSplit | lmd/helpers.py:134-136 | joining the pieces of a split with the separator gives back the string |
| Strings.SplitJoin | lmd/helpers.py:134-136 | splitting the join of separator-free pieces gives back the pieces |
| Strings.Strip | lmd/helpers.py:134 | `str.strip()` returns the slice of its input left after cutting off only white space at both ends, and no white space is left at either end |
| SlurmText.ZipPrefix | lmd/helpers.py:136 | the dict built from the first n key/field pairs has exactly those keys, each mapped to the field of its last occurrence |
| SlurmText.ZipDict | lmd/helpers.py:136 | `zip` stops at the shorter list: the entry has exactly the header keys below min(#header, #fields), a repeated header keeping its last field |
| SlurmText.ParseSacct | lmd/helpers.py:133-137 | one entry per line of the stripped output after the header line, each entry keyed only by header fields |
| SlurmText.ParseSacctTable | lmd/helpers.py:133-137 | output that, once stripped of surrounding white space such as the final newline, is a header line and data lines joined by newlines parses into one entry per data line, entry i pairing the header fields with the fields of data line i |
| SlurmText.WrapShebang | lmd/helpers.py:127-128 | the script is `#!/usr/bin/env `, the shell (bash unless given), a newline, then the command |
| SlurmText.ShebangRoundTrip | lmd/helpers.py:127-128 | reading the interpreter line back from a wrapped script gives the shell and the command |
| Strings.Decimal | lmd/cli/commands/run.py:244 | the decimal text of a number consists of digits only |
| Strings.DecimalRoundTrip | lmd/cli/commands/run.py:244 | `int()` of a number's decimal text is that number |
| Strings.StripAround | lmd/helpers.py:134 | `str.strip()` of a word that neither starts nor ends with white space, surrounded by white space, is the word |
| Strings.NumeralOfDecimal | lmd/cli/commands/run.py:244 | `int()` reads a plain run of digits as it stands: nothing is dropped around it |
| Strings.NumeralPadded | lmd/cli/commands/run.py:244 | `int()` reads digits surrounded by white space as the digits alone |
| Strings.NumeralSigned | lmd/cli/commands/run.py:244 | `int()` reads digits after one `+` sign as the digits alone |
| Strings.ParseNat | lmd/cli/commands/run.py:244 | `int()` succeeds exactly when the text, without its surrounding white space and one leading `+`, is a non-empty run of ASCII digits, and then gives their value |
| Config.ClassOf | lmd/cli/commands/run.py:127-260 | the Python exception class each modelled error surfaces as: KeyError for the lookups, AttributeError for `None.extend`, `None.get` and `parsed.con`, TypeError for `SlurmConfig(**None)`, AssertionError for the sweep asserts, ValueError, RuntimeError and NotImplementedError as raised |
| Sync.PathJoin | lmd/cli/commands/sync.py:69 | `os.path.join(a, b)` is `b` when `b` is absolute, otherwise `a`, a separator when needed, then `b` |
| Sync.RemoteDir | lmd/cli/commands/sync.py:67-70 | the remote directory is `join(root_dir, name)` when the machine has `root_dir`, and None otherwise |
| Sync.Locate | lmd/cli/commands/sync.py:53-70 | an unknown machine raises KeyError naming the configured machines; a success returns the machine's table, its user and host, and the Project; every failure is a KeyError |
| Sync.Excludes | lmd/cli/commands/sync.py:87-93 | the excludes are the global list (empty without `rsync`) followed by the project's; AttributeError exactly when the global `rsync` has no `exclude` and the project has `rsync` |
| Sync.RsyncPathCreatesRootThenOut | lmd/cli/commands/sync.py:95 | the option runs `mkdir -p` on the remote root, then on the remote out dir, then rsync |
| Sync.PushProject | lmd/cli/commands/sync.py:53-97 | the shared lookup, exclude and push steps produce the `sync` trace, and the command goes on exactly when they all succeed |
| Sync.Execute | lmd/cli/commands/sync.py:41-97 | `sync` produces exactly its specified trace |
| Sync.SyncUnknownMachine | lmd/cli/commands/sync.py:53-57 | an unknown machine raises KeyError before any rsync |
| Sync.SyncSinglePush | lmd/cli/commands/sync.py:74-97 | `sync` never runs a command, lists or pulls; it pushes once exactly when the lookups succeed, from the local root to the remote root with the `--rsync-path` option creating the remote root and out dir, the merged excludes and `dry_run`, and otherwise raises before any push |
| RunCommand.ResolveMode | lmd/cli/commands/run.py:152 | the mode is the explicit `--mode`, else the machine's `default_mode`, else "ssh" |
| RunCommand.MergeEnv | lmd/cli/commands/run.py:176-183 | the environment has the keys of both tables; the machine's value wins on a shared key, the project's stands elsewhere |
| RunCommand.ResolveImage | lmd/cli/commands/run.py:207-215 | an alias gives its `name`, an unknown image is used literally, no `--image` gives the machine's docker `name`; a missing name is a RuntimeError, a missing machine `docker` an AttributeError, a missing `docker-images` table a KeyError |
| RunCommand.ResolveSlurmConf | lmd/cli/commands/run.py:230-237 | resolution succeeds exactly when the named `--conf` is in `slurm-configs`, or, without `--conf`, the machine has a `slurm` table, and gives that table; the failure is a KeyError without `slurm-configs`, an AttributeError for a name missing from it and a TypeError without a machine `slurm` |
| RunCommand.ParseSweep | lmd/cli/commands/run.py:244 | `--sweep` unpacks into begin and end exactly when splitting on `-` gives two pieces that `int()` reads (digits, with white space around them and one leading `+` allowed), and then they are their values; otherwise the ValueError |
| RunCommand.ParseSweepParts | lmd/cli/commands/run.py:244 | two dash-free pieces that `int()` reads as b and e, joined by `-`, unpack into begin b and end e |
| RunCommand.ParseSweepRoundTrip | lmd/cli/commands/run.py:244 | `"b-e"` written in decimal reads back as begin b and end e |
| RunCommand.ParseSweepSpaced | lmd/cli/commands/run.py:244 | `"b - e"`, with spaces around the dash, also reads as begin b and end e |
| RunCommand.ParseSweepSigned | lmd/cli/commands/run.py:244 | `"+b-e"`, with a `+` sign, also reads as begin b and end e |
| RunCommand.SweepExecs | lmd/cli/commands/run.py:247-250 | the calls of consecutive sweep indices, call i with `LMD_RUN_SWEEP_IDX` = lo + i and `sweeping` |
| RunCommand.SweepClosed | lmd/cli/commands/run.py:247-250 | the sweep is its calls in ascending order up to the end of the range or the first failing call, then that call's exception if one failed |
| RunCommand.Sweep | lmd/cli/commands/run.py:242-250 | the sweep loop produces the specified sweep trace |
| RunCommand.Dispatch | lmd/cli/commands/run.py:185-260 | the mode dispatch produces the specified dispatch trace |
| RunCommand.Execute | lmd/cli/commands/run.py:115-270 | `run` produces exactly its specified trace |
| RunProperties.SweepShape | lmd/cli/commands/run.py:247-250 | a sweep only calls the backend; the first failing call's exception ends it, and it ends raising exactly when a call in range fails |
| RunProperties.SweepExecsCalls | lmd/cli/commands/run.py:247-250 | the backend calls of consecutive sweep indices are one per index, in order, each with its index set |
| RunProperties.SweepInOrder | lmd/cli/commands/run.py:247-250 | the sweep's calls come in ascending index order, call i with `LMD_RUN_SWEEP_IDX` = begin + i and `sweeping`, up to the end of the range or the first failure |
| RunProperties.CallShape | lmd/cli/commands/run.py:188-253 | one backend call is an Exec, followed by an exception exactly when it fails |
| RunProperties.DispatchShape | lmd/cli/commands/run.py:185-260 | the dispatch only calls backends and raises, and an exception is its last event |
| RunProperties.RunExecs | lmd/cli/commands/run.py:127-270 | the backend calls of `run` are exactly those of the dispatch, and there are none when a shared step fails |
| RunProperties.StagedShape | lmd/cli/commands/run.py:169-270 | after a push, a dispatch and a pull step, an exception can only be last, nothing is listed or pulled after one from the dispatch, the trace raises exactly when the dispatch or the pull step does, and no later event is a push |
| RunProperties.SyncShape | lmd/cli/commands/sync.py:53-97 | the shared steps give one or two events: the push only first, an exception only last, never a listing or a pull |
| RunProperties.RunStaged | lmd/cli/commands/run.py:169-270 | after successful shared steps, `run` is the push, the dispatch, then the pull step unless the dispatch raised |
| RunProperties.RunRaiseEnds | lmd/cli/commands/run.py:127-270 | an exception is always the last event; a trace ending in one has no listing and no pull, unless the exception is the failing pull's own, right after it |
| RunProperties.RunPushFirst | lmd/cli/commands/run.py:160-253 | at most one push, only as the first event, and no backend call without it |
| RunProperties.RunUnknownMachine | lmd/cli/commands/run.py:127-131 | an unknown machine raises KeyError naming the configured machines, with no push, call, listing or pull |
| RunProperties.RunExtendsSync | lmd/cli/commands/run.py:127-170 | `run` begins with exactly the events of `sync`, and stops there when they end in an exception |
| RunProperties.RunSsh | lmd/cli/commands/run.py:185-189 | ssh mode makes one call with the command, working directory, startup, disown, x-forwarding, dry-run and merged environment |
| RunProperties.RunDockerDryRun | lmd/cli/commands/run.py:169-200 | docker mode with dry-run pushes first and then raises ValueError, calling no backend |
| RunProperties.RunDocker | lmd/cli/commands/run.py:207-222 | docker mode makes one call with the resolved image, container `user-name`, shell and GPUs; an unresolved image raises before any call |
| RunProperties.RunSlurmSingle | lmd/cli/commands/run.py:251-253 | slurm mode without sweep makes one call, interactive unless disowned, with `num_sequence`, dry-run and the merged environment |
| RunProperties.RunSweep | lmd/cli/commands/run.py:242-250 | with a `--sweep` that reads as begin b and end e (leading zeros allowed), disown and b < e, when no call fails: e-b calls in ascending order with the index b+i, non-interactive and sweeping, then the pull step |
| RunProperties.RunSlurmConfRejected | lmd/cli/commands/run.py:230-237 | an unresolvable slurm configuration raises right after the push, with no call and no pull: KeyError without `slurm-configs`, AttributeError for a missing name, TypeError without a machine `slurm` |
| RunProperties.DispatchSweepRejected | lmd/cli/commands/run.py:242-245 | in slurm mode a sweep without disown, with a malformed range or with b >= e makes the dispatch a single exception |
| RunProperties.SweepRejection | lmd/cli/commands/run.py:242-245 | the error of a rejected sweep is a ValueError exactly when `--disown` was given and the range does not read as two integers, and an AssertionError otherwise |
| RunProperties.RunSweepRejected | lmd/cli/commands/run.py:242-245 | a sweep without disown (AssertionError), a range that `int()` does not read as two numbers (ValueError) or b >= e (AssertionError) raises right after the push, with no call and no pull |
| RunProperties.RunOtherModes | lmd/cli/commands/run.py:255-260 | singularity and sing-slurm raise NotImplementedError, any other unknown mode KeyError, with no call and no pull |
| RunProperties.RunPull | lmd/cli/commands/run.py:262-270 | after a dispatch that raised nothing, the listing happens exactly when `out_dir` is set, the pull exactly when, in addition, the count is non-zero, and `run` raises exactly when that pull fails; after an exception from the dispatch neither happens |
| RunProperties.RunFailureSkipsPull | lmd/cli/commands/run.py:185-270 | a failing first backend call ends `run` with its exception, with no listing and no pull |

## Left out

- Reading the configuration files, `$HOME` expansion, `find_project_root`, timestamps and the
  `sacct_cmd` string: these are file system, environment and clock access.
- The argparse parser definitions. The parsed command line is the input record `Config.Parsed`.
- The SSH, Docker and Slurm clients, `rsync` and the Project class are not part of this model.
  They appear only as trace events, the `World` answers and the `Layout` functions. The
  `DockerClient` connection opened before docker's dry-run check is not an event.
- The remote listing cannot fail in the model, and its output always reads as a number. Its
  count is the `World.listedFiles` input. The push and the pull rsync, and each backend
  call, can fail.
- Logging and the commented-out port forwarding.
- NestedDict.MergeNestedDict: reports the set of conflicting top-level keys, not the first
  one in `b`'s order. Maps are unordered, so the iteration order of the dict is not modelled.
- NestedDict.MergeNestedDict: models the merged value only. It does not capture that the
  result is the object `a` itself, updated in place. It does not capture the partial updates
  made to `a` before a ValueError either.
- NestedDict.RemoveRecursively: models the new dict only, not the in-place deletion.
- NestedDict.PosixPathToStr: does not model tuples or other containers.
- A JSON float is a real number: NaN and the infinities are not modelled, so `==` on floats
  is equality of reals.
- Paths.YieldParents: returns the whole list the generator yields, not a lazy iterator.
- Paths.Parent: a path is its list of components as `pathlib` has already split and
  normalised it. Parsing a path string is not modelled.
- Strings.ParseNat: does not accept `_` separators between digits, non-ASCII digits or
  non-ASCII white space around them, which Python's `int()` also accepts.
- RunCommand.ParseSweep: for the same reason rejects a range whose ends use `_` separators,
  non-ASCII digits or non-ASCII white space, which `int()` would read.
- RunProperties.RunSweepRejected: counts such a range as malformed (ValueError), although
  `int()` reads it.
- Strings.Strip: strips ASCII white space only, not the other Unicode white space characters.
- RunCommand.Execute: the environment is a value, so the in-place update of the project's own
  `environment` table by `env.update` (aliasing) is not captured.
- A configuration key present with the value null is treated like a missing key.
- `SlurmConfig(**sconf)` checking its keyword arguments: the table is passed on unchecked.
- Running under `python -O`, which drops the `assert`s at `lmd/cli/commands/run.py:243` and
  `run.py:245`: the model always raises their AssertionError.
- A configuration without a `machines` table, which raises KeyError at
  `lmd/cli/commands/run.py:127`: `Config.machines` is a required field.
