# Failure log of the rad orchestrator

When a worker that runs one task of a plan fails, a failure log records it.
The writer is known only from the copy that tests/test-failure-log.mjs:9-33
inlines; in the orchestrator's design it belongs to the retry path, which
keeps one log per task and overwrites it on each retry. The log is a
plain-text file at
`<tmp>/rad-orchestrator/<short plan id>/<short task id>.log`, where a short id
is the first seven characters of an identifier. The file holds ten entries
joined by "\n"; the last may itself span several lines:

- the task id, subject, exit code, number of turns, cost and worktree path;
- a timestamp;
- a blank line;
- a `--- stderr ---` header;
- the captured stderr, or `(empty)` when the worker printed nothing.

A later failure of the same task replaces the file.

The model has six modules:

- `LogPaths`: `shortId` and the path built with `path.join`.
- `NumberText`: the decimal text JavaScript prints for an integer and for `toFixed(4)`, each with a parser and a round-trip lemma.
- `LogText`: the result record, the ten entries, `lines.join("\n")`, and a reader that recovers the record from the text.
- `FailureLog`: `writeFailureLog` as a method of a `FileSystem` class. Its fields are `files`, a map from path to content, and `dirs`, the set of directories; no path is both. A specification function `WithFailureLog` states the new file contents, and `FailureLogError` states when the call throws instead.
- `Strings` and `Wrappers`: a character search and an `Option` type.

The temporary directory (`os.tmpdir()`) and the timestamp (`new Date().toISOString()`) are parameters of the model.

## Model

| member | source | states |
|---|---|---|
| LogPaths.ShortId | tests/test-failure-log.mjs:11-13 | the short id is a prefix of the id, seven characters long, or the whole id when it is shorter |
| LogPaths.ShortIdSameIff | tests/test-failure-log.mjs:11-13 | two ids of at least seven characters have the same short id exactly when their first seven characters agree |
| LogPaths.PathJoin | tests/test-failure-log.mjs:16-18 | the joined path is empty exactly when every segment is empty; that zero-length segments are skipped is stated by the closed forms of LogRootDir and LogDir |
| LogPaths.LogRootDir | tests/test-failure-log.mjs:16 | the log root is `<tmp>/rad-orchestrator`, or `rad-orchestrator` when the temporary directory is empty |
| LogPaths.LogDir | tests/test-failure-log.mjs:16 | the plan's log directory is the log root followed by `/<short plan id>`, or the log root itself when that short id is empty |
| LogPaths.LogFileName | tests/test-failure-log.mjs:18 | the file name ends in ".log" and contains a '/' exactly when the task's short id does |
| LogPaths.LogPath | tests/test-failure-log.mjs:18 | the log path is the plan's log directory, one '/', and the file name |
| LogPaths.LogPathLayout | tests/test-failure-log.mjs:16-18 | the log path is `<tmp>/rad-orchestrator/`, then `<short plan id>/` when it is non-empty, then `<short task id>.log` |
| LogPaths.Dirname | tests/test-failure-log.mjs:31 | the directory writeFileSync needs for the log file is "." for a path without '/'; DirnameOfChild gives it for a log path |
| LogPaths.DirnameOfChild | tests/test-failure-log.mjs:18 | the parent directory of a non-empty directory, '/', and a name without '/' is that directory |
| LogPaths.LogPathInLogDir | tests/test-failure-log.mjs:16-18 | when the task's short id holds no '/', the log file sits directly in the plan's log directory |
| LogPaths.LogSuffixInjective | tests/test-failure-log.mjs:16-18 | the part of the path after the log root determines both short ids, when neither contains '/' |
| LogPaths.LogPathKeyedByShortIds | tests/test-failure-log.mjs:15-18 | within one temporary directory, two logs share a path exactly when their plan short ids and their task short ids are equal (short ids free of '/', plan short ids other than "." and "..") |
| LogPaths.SharedPrefixSharesLogPath | tests/test-failure-log.mjs:11-18 | two task ids that agree on their first seven characters get the same log path |
| LogPaths.ExampleLogPath | tests/test-failure-log.mjs:53-55 | ids starting "aaa1111" and "bbb1111" give a path under `rad-orchestrator/aaa1111` that ends in `bbb1111.log`, as the first scenario expects at lines 78-79 |
| NumberText.NatToText | tests/test-failure-log.mjs:23 | `${turns}` prints a non-empty digit string without leading zeros: it starts with '0' only for zero, and then it is "0" |
| NumberText.IntToText | tests/test-failure-log.mjs:22 | `${exitCode}` prints '-' exactly for a negative integer, followed by a non-empty digit string without leading zeros |
| NumberText.NatTextRoundTrip | tests/test-failure-log.mjs:23 | reading back the printed digits gives the number printed |
| NumberText.IntTextRoundTrip | tests/test-failure-log.mjs:22 | reading back the printed integer gives the integer printed |
| NumberText.DigitsValueAppend | tests/test-failure-log.mjs:24 | the value of two digit strings placed side by side is the left value shifted by the length of the right, plus the right value |
| NumberText.RoundScaled | tests/test-failure-log.mjs:24 | the cost scaled by 10^4 is rounded to the nearest integer, with ties going up, and stays non-negative for a non-negative cost |
| NumberText.PadToFive | tests/test-failure-log.mjs:24 | toFixed's padding puts exactly 5 - n zeros in front of an n-digit string shorter than five, leaves a longer one unchanged, and keeps the value |
| NumberText.Fixed4 | tests/test-failure-log.mjs:24 | `toFixed(4)` output is digits, a '.', and exactly four digits, with a single '0' before the point when the whole part is zero and no leading zero otherwise |
| NumberText.Fixed4RoundTrip | tests/test-failure-log.mjs:24 | reading back `toFixed(4)` output gives the rounded amount in ten-thousandths |
| LogText.SummaryLines | tests/test-failure-log.mjs:19-28 | nine lines come before the stderr body |
| LogText.LogLines | tests/test-failure-log.mjs:19-30 | a failure log has ten entries, the last being the stderr body, which may span several lines |
| LogText.JoinLines | tests/test-failure-log.mjs:31 | `join("\n")` gives "" for no lines and otherwise starts with the first line, followed by a line break when more lines follow |
| LogText.RenderLog | tests/test-failure-log.mjs:31 | the written text starts with the Task line and a line break |
| LogText.JoinLinesCons | tests/test-failure-log.mjs:31 | `join("\n")` also takes lines from the front: the first line, one line break, then the rest joined |
| LogText.RenderedLogText | tests/test-failure-log.mjs:19-31 | the written text is the seven labelled lines, a blank line, the stderr header and the stderr body, separated by single line breaks, with none after the last |
| LogText.SplitLines | tests/test-failure-log.mjs:31 | splitting off n lines yields n lines, none of which contains a line break |
| LogText.SplitJoinedLines | tests/test-failure-log.mjs:31 | lines without line breaks, joined with "\n" and split again, come back unchanged; the last line may contain anything |
| LogText.Field | tests/test-failure-log.mjs:20-26 | a line has a field for a label exactly when it reads "<label>: <value>", and then the field is that value |
| LogText.FieldOfLine | tests/test-failure-log.mjs:20-26 | the field of a labelled line is the value it was written with |
| LogText.ParseLog | tests/test-failure-log.mjs:19-31 | a readable log yields task id, subject, worktree path and timestamp free of line breaks |
| LogText.CostTextReadsBack | tests/test-failure-log.mjs:24 | the Cost line contains no line break and reads back as the amount rounded to ten-thousandths, or as none for "n/a" |
| LogText.CostText | tests/test-failure-log.mjs:24 | the Cost text is "n/a" exactly when the cost is not positive, and otherwise '$' followed by exactly the `toFixed(4)` text |
| LogText.Fixed4SingleLine | tests/test-failure-log.mjs:24 | `toFixed(4)` output holds no line break |
| LogText.StderrBody | tests/test-failure-log.mjs:29 | the last entry is the captured stderr when there is any, and "(empty)" when it is empty |
| LogText.SummaryFields | tests/test-failure-log.mjs:20-28 | each summary line reads back as the field of the result it was written from |
| LogText.ParseRenderedLog | tests/test-failure-log.mjs:19-31 | reading back a written log recovers the task id, subject, exit code, turns, worktree path and timestamp exactly, the cost rounded to ten-thousandths (absent when not positive) and the stderr body, whenever the single-line fields hold no line break |
| LogText.EmptyPlaceholderAmbiguous | tests/test-failure-log.mjs:29 | an empty stderr and a stderr reading "(empty)" give the same last line |
| LogText.ExampleCosts | tests/test-failure-log.mjs:24 | a zero cost prints "n/a" and 0.0512 prints "$0.0512", as the scenarios expect at lines 73 and 105 |
| LogText.ExampleCostCent | tests/test-failure-log.mjs:24 | 0.01 prints "$0.0100", padded to four places |
| FailureLog.WithFailureLog | tests/test-failure-log.mjs:31 | after a write, the log path holds the written text, the set of paths gains only the log path, and every other file is unchanged |
| FailureLog.LogDirs | tests/test-failure-log.mjs:17 | `mkdirSync(dir, { recursive: true })` leaves the log root and the plan's log directory, each a prefix of the plan directory's path |
| FailureLog.FailureLogError | tests/test-failure-log.mjs:17-31 | the call throws when a file sits at the log root or the plan directory (mkdirSync), when a directory sits at the log path, or when the log file's directory does not exist (writeFileSync); when it does not throw, the log directories hold no file and the log path is no directory |
| FailureLog.FileSystem.constructor | tests/test-failure-log.mjs:15 | a file system starts with the given files and directories, no path being both |
| FailureLog.FileSystem.Read | tests/test-failure-log.mjs:68 | a read finds content exactly at the paths that hold a file, and returns that content |
| FailureLog.FileSystem.WriteFailureLog | tests/test-failure-log.mjs:15-33 | keeps no path both a file and a directory; when FailureLogError finds nothing, returns `<tmp>/rad-orchestrator/<short plan id>/<short task id>.log`, creates the log root and the plan directory, replaces the file there with the rendered log, leaves every other file as it was, and a read of the returned path gives the log; otherwise fails with that error, leaving the files unchanged, and the directories too when mkdirSync failed |
| FailureLog.WriteSucceeds | tests/test-failure-log.mjs:15-33 | a task whose short id holds no '/' gets its log written when no file sits at the log directories and no directory at the log path |
| FailureLog.RetrySucceeds | tests/test-failure-log.mjs:112-126 | after a successful write, a second failure of the same task does not throw |
| FailureLog.RetryOverwrites | tests/test-failure-log.mjs:112-126 | a second failure of the same task, by short id, writes the same path, and the two writes leave what the second alone would leave |
| FailureLog.RetryLogReadsSecond | tests/test-failure-log.mjs:112-131 | after a retry, the log reads back as the second failure's record: its exit code, cost and stderr, with nothing of the first |
| FailureLog.OtherLogUntouched | tests/test-failure-log.mjs:15-18 | a failure of another plan or another task, by short id, leaves an existing log intact, when no short id contains '/' and no plan short id is "." or ".." |
| FailureLog.CollidingTasksShareLog | tests/test-failure-log.mjs:11-18 | of two distinct tasks whose ids agree on their first seven characters, the later failure replaces the earlier task's log |

## Left out

- File system calls: `mkdirSync` with `recursive: true` is modelled by adding the log root and the plan directory to `dirs`. Creating the ancestors of the temporary directory, permission errors and a full disk are not modelled. `writeFileSync`'s UTF-8 encoding is left out, so text is stored as characters.
- `os.tmpdir()` and `new Date().toISOString()` are parameters. The model does not check that the timestamp is in ISO 8601 form.
- LogPaths.PathJoin: does not model `path.join`'s normalisation, which resolves "." and ".." segments, merges repeated separators and drops a trailing one. It does not model the Windows separator either. It returns "" where Node returns "." (every segment empty), a case that never arises for a log path since "rad-orchestrator" is always a segment. LogPaths.LogPathKeyedByShortIds and FailureLog.OtherLogUntouched therefore require short ids without '/' and plan short ids other than "." and ".."; for those ids Node's normalisation leaves the part of the path after the temporary directory unchanged.
- FailureLog.FileSystem.WriteFailureLog: mkdirSync's directories are the log root and the plan directory only. The intermediate directories it also creates when the plan's short id contains '/' are not added, and a file in the way at one of them, at the temporary directory or at its ancestors, is not modelled as an error.
- LogPaths.ShortId: counts characters, whereas JavaScript's `slice` counts UTF-16 code units. The two differ for ids that hold characters outside the Basic Multilingual Plane.
- NumberText.Fixed4: models a cost as an exact real number rather than an IEEE 754 double, with ties rounding up as `toFixed` specifies. It does not cover the exponent form `toFixed` uses from 10^21 upwards, and it does not cover NaN or infinities.
- NumberText.IntToText: covers integer exit codes only. A WorkerResult built by spawnWorker always has a numeric exit code: it starts as 1 (.pi/extensions/rad-orchestrator.ts:336) and is set to `code ?? 1` (.pi/extensions/rad-orchestrator.ts:429). Fractional and exponent-form numbers are not modelled. Turns are natural numbers.
- LogText.ParseLog: the reader exists only to state what the log preserves. It cannot tell an empty stderr from a stderr reading "(empty)" (LogText.EmptyPlaceholderAmbiguous). It cannot recover single-line fields that contain a line break, so LogText.ParseRenderedLog requires that they contain none.
- The `success` field of a result is carried but not written to the log, as in the source.
- The console reporting, the pass/fail counters and the clean-up with `rmSync` in tests/test-failure-log.mjs are not modelled. Their expectations appear as the example and retry lemmas.
- .pi/extensions/rad-orchestrator.ts and .pi/extensions/rad-context.ts are not part of this model. That covers how the orchestrator spawns workers and schedules tasks.
