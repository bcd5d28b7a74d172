# Scan orchestrator model

A Dafny model of the orchestration core of a small security-scanning tool. The tool
takes a target: a remote git URL or a local directory. It clones remote targets into
a `temp_repo` workspace and checks that the resolved path is a git repository. It then
runs up to three external scanners in a fixed order: `detect-secrets` on the resolved
path, and `nuclei` and `testssl.sh` on the original URL. Afterwards it removes the
workspace. It merges the raw `secrets_report.json` and `vulnerability_report.json` into
a two-key consolidated report, and it repeats the pipeline on a cadence
(`once`, `daily`, `weekly`, `monthly`).

Everything outside the process is an oracle in the model: the filesystem is a set of
existing directories plus a map of JSON files, and the `World` value fixes what each
external step does:
- whether `os.makedirs` works;
- whether `git clone` succeeds;
- what `git rev-parse` printed;
- how each scanner process ended and what it wrote;
- whether `shutil.rmtree` works.

The model records every tool process that was attempted, that is, every call that reached
`subprocess.run`, including one whose binary turned out to be missing. It also records the
value each `perform_scan` call returned (the source logs that value).

Layout, leaf first:
- `text.dfy` (`Text`): Python's `str.isspace`, `strip`, and substring `in`.
- `values.dfy` (`Values`): JSON values, the four states a raw file can be in (`Absent`, `Valid(doc)`, `Corrupt`, `Unreadable`), and the fixed file names.
- `resolver.dfy` (`Resolver`): the anchored URL test, `is_git_repository`, resolution, and workspace cleanup.
- `adapters.dfy` (`Adapters`): the three adapters' effects on the report files.
- `dispatch.dfy` (`Dispatch`): tool selection, the default list, the ordered `Plan` of tool processes, and their combined file effect.
- `consolidation.dfy` (`Consolidation`): `consolidate_reports` as a pure function.
- `pipeline.dfy` (`Pipeline`): the host `State`, plus `perform_scan`, the scheduled job, `schedule_scan` and the `scan` / `report` commands as state transformers, with the property lemmas.
- `orchestrator.dfy` (`Orchestrator`): class `Host`, whose fields the operations update step by step as the source does. `PerformScan`, `ScheduledJob`, `ScheduleScan` and the two commands are proved to leave `Snapshot()` equal to the corresponding `Pipeline` function of the old state. The adapter methods, `RunTools` and `ConsolidateReports` state their result and the new value of each field they modify.

Points of `main.py`'s behaviour that are easy to get wrong, and which the model follows:
- The placeholders are the literal strings of main.py:179, 188 and 191.
- A secrets file that cannot be read or parsed suppresses the whole consolidated write (main.py:176-177, 202-203). It does not become a placeholder. The same holds for a vulnerability file that cannot be opened or decoded as text, because main.py:186 catches only `JSONDecodeError`.
- `perform_scan` returns `True` only if the git check also passed (main.py:227-229), not merely if resolution succeeded.
- Skipped tools are not recorded as results, and the adapters' return values are discarded (main.py:236-250).

## Model

| member | source | states |
|---|---|---|
| Text.Contains | main.py:91-93 | `p in s` is true exactly when `p` occurs at some index of `s` |
| Text.Strip | main.py:55 | `strip()` returns a slice of the input with whitespace-only text cut from both ends, and the result has no whitespace at either end |
| Text.StripPadded | main.py:55 | whitespace padding around a trimmed string is exactly what `strip()` removes, so `"true\n"` strips to `"true"` |
| Resolver.IsUrlIffScheme | main.py:211 | a target is a URL exactly when it is `http://` or `https://` followed by anything |
| Resolver.UrlIgnoresSuffix | main.py:120 | the match is anchored at the start only: appending text to a URL keeps it a URL |
| Resolver.UrlIsAnchored | main.py:211 | a scheme preceded by non-empty text that is not itself a URL is not a URL (so `hhttp://x` fails), and an upper-case scheme is not a URL |
| Resolver.GitCheckMeaning | main.py:46-64 | without a runnable git, only a `.git` directory counts; a non-zero rev-parse exit, or exit 0 with output that does not strip to `true`, counts only with a `.git` directory; exit 0 with `true` and any whitespace on either side counts on its own |
| Resolver.Resolve | main.py:211-224 | a URL resolves to `temp_repo` exactly when makedirs and clone both work; a non-URL resolves to itself exactly when it is an existing directory, with the directories unchanged |
| Resolver.RemoveTreeFacts | main.py:264 | after `rmtree(root)` the root is gone, and so is every path joined below it when the root has no trailing `/`; no directory is created; paths not starting with the root survive, as do siblings that only share its prefix (`temp_repo2`); removing again changes nothing |
| Resolver.GitOutputAccepted | main.py:54-56 | git's own output `"true\n"` with exit 0 passes the check |
| Resolver.ClonedRepositoryIsGit | main.py:50-51 | a successful clone always passes the git check through its `.git` directory |
| Resolver.UrlWorkspaceRemoved | main.py:259-267 | after a URL scan whose removal succeeds, `temp_repo` is gone even if the clone failed, and nothing outside it changed |
| Resolver.LocalTargetKeepsDirs | main.py:218-221 | a local target creates and removes no directory |
| Adapters.SecretsAdapterFiles | main.py:88-97 | the marker in stderr makes the secrets file `{}` for any exit code; without it, or when `subprocess.run` raised, the file holds what the tool wrote; a missing tool changes nothing; other files are untouched |
| Adapters.MarkerOverridesCorruptOutput | main.py:93-97 | the `{}` write depends on stderr alone and replaces a corrupt tool output |
| Dispatch.PlanOrder | main.py:236-250 | tools are attempted in the order detect-secrets, nuclei, testssl.sh, each at most once |
| Dispatch.PlanRunsExactly | main.py:236-250 | a tool runs exactly when it is selected and applicable; nuclei and testssl.sh apply to URL targets only |
| Dispatch.PlanArguments | main.py:237-248 | detect-secrets scans the resolved path (`temp_repo` or the directory); the URL tools get the original target |
| Dispatch.DefaultSelectsAll | main.py:232-233 | an absent or empty tool list selects every applicable tool |
| Dispatch.LocalTargetPlan | main.py:239-250 | for a local target the `isdir` disjunct never enables nuclei: at most detect-secrets runs, on the target itself |
| Dispatch.RunAllInOrder | main.py:236-250 | the files after dispatch are those of the three adapters applied in the fixed order |
| Dispatch.SecretsFileIsDetectSecrets | main.py:88 | only detect-secrets affects the secrets file |
| Dispatch.TestsslWriteWins | main.py:124-148 | when both URL tools run and testssl.sh writes anything (a document, invalid JSON or undecodable bytes, whether the call then returned or raised), the shared vulnerability file holds that write and nuclei's is lost |
| Consolidation.ReportShape | main.py:172-196 | a report is written exactly when the secrets file is absent or valid and the vulnerability file is not unreadable; it has exactly the keys `secrets` and `vulnerabilities`; an absent file gets its placeholder, a vulnerability file that is not JSON the error placeholder; valid documents are embedded unchanged |
| Consolidation.EmptySecretsDistinguishable | main.py:175-179 | "the scan ran and found nothing" (`{}`) and "no secrets file" give different reports whenever one is written, which an unreadable vulnerability file prevents |
| Consolidation.ConsolidateReadOnly | main.py:175-196 | consolidation changes no file except its output |
| Consolidation.ConsolidateIdempotent | main.py:169-196 | a second consolidation on unchanged raw files leaves the files exactly as the first did |
| Consolidation.OutputOverRawFileNotIdempotent | main.py:195 | with the output named `vulnerability_report.json`, the second run differs, so idempotence needs a distinct output name |
| Pipeline.ScanVerdict | main.py:211-229 | a URL scan succeeds exactly when makedirs and clone work; a local scan exactly when the target is an existing directory that passes the git check |
| Pipeline.VerdictIgnoresAdapters | main.py:235-254 | the return value depends neither on the tool list, nor on the adapters' outcomes, nor on cleanup |
| Pipeline.InvalidTargetRejected | main.py:222-224 | a target that is neither URL nor directory fails; no tool is attempted, no file written and no `temp_repo` created |
| Pipeline.FailedScanRunsNothing | main.py:226-229 | a failed scan starts no tool process and writes no file |
| Pipeline.ScanCleansUp | main.py:259-267 | after any URL scan whose removal succeeds, `temp_repo` does not exist and other directories are unchanged; local scans leave directories as they were |
| Pipeline.RemovalFailureKeepsVerdict | main.py:259-267 | a failed removal never changes the return value, and leaves a created workspace in place |
| Pipeline.LocalRepositoryScannedInPlace | main.py:218-237 | a local git repository, recognised by its `.git` directory or by rev-parse alone, is scanned without cloning, and only detect-secrets runs, on the target |
| Pipeline.UrlScanPlan | main.py:211-250 | a cloned URL target runs detect-secrets on `temp_repo`, then nuclei and testssl.sh on the URL, each if selected |
| Pipeline.OnceRunsJobNow | main.py:286-288 | the `once` cadence runs the job exactly once and registers nothing |
| Pipeline.RecurringCadenceRegisters | main.py:280-285 | `daily`, `weekly` and `monthly` each register one job with their own cadence and run nothing yet |
| Pipeline.UnknownCadenceIgnored | main.py:289-291 | any other cadence leaves the state unchanged |
| Pipeline.JobConsolidatesOnlyOnSuccess | main.py:272-278 | a job writes the consolidated report only after a successful scan; otherwise no file changes |
| Pipeline.ScanCommandIsSchedule | main.py:305-313 | main's own `once` branch behaves as `schedule_scan(..., "once")`, for every schedule value |
| Pipeline.ReportCommandDefault | main.py:318 | `report` with no output or an empty one writes `consolidated_report.json` |
| Pipeline.LocalOnceWithNoSecrets | main.py:91-97 | local git repository, no raw files, detect-secrets says "No secrets found!": the report holds `{}` for secrets and the no-vulnerability-scan placeholder |
| Pipeline.LocalOnceWithoutSecretScan | main.py:236-250 | the same repo with only nuclei selected: no tool runs and both placeholders are reported |
| Orchestrator.Host.ScanSecrets | main.py:83-112 | returns True for every exit code and False only when the tool is missing or the call raises; writes the files of `SecretsFilesAfter`; records one detect-secrets attempt |
| Orchestrator.Host.RunNuclei | main.py:115-141 | refuses non-URL targets without an attempt; otherwise True exactly when the process exited, and the vulnerability file holds what nuclei wrote |
| Orchestrator.Host.RunTestssl | main.py:143-166 | True exactly when the process exited; the vulnerability file holds what testssl.sh wrote |
| Orchestrator.Host.ConsolidateReports | main.py:169-203 | builds the report member by member and leaves the files equal to `AfterConsolidate` |
| Orchestrator.Host.PerformScan | main.py:205-267 | returns `ScanSucceeds` and leaves the host in `AfterScan` of its old state |
| Orchestrator.Host.RunTools | main.py:231-250 | starts exactly the `Plan` processes and leaves the files equal to `RunAll` of them |
| Orchestrator.Host.ScheduledJob | main.py:272-278 | leaves the host in `AfterJob` of its old state |
| Orchestrator.Host.ScheduleScan | main.py:269-293 | leaves the host in `AfterSchedule` of its old state |
| Orchestrator.Host.ScanCommand | main.py:305-315 | leaves the host in `AfterScanCommand` of its old state |
| Orchestrator.Host.ReportCommand | main.py:317-318 | leaves the host in `AfterReportCommand` of its old state |

## Left out

- Argument parsing, help text, the `list-tools` print, logging setup and every log call (main.py:12-44, 300-324) are CLI and console plumbing. Argparse's restriction of `--tools` and `--schedule` to known values is not modelled, so the model accepts any strings there.
- The external processes (`git clone`, `git rev-parse`, `detect-secrets`, `nuclei`, `testssl.sh`) are oracle outcomes in `World`. What the scanners detect, and the exact command lines, are not modelled.
- JSON parsing and serialisation (`json.load`, `json.dump(..., indent=4)`) are not modelled: a file is `Absent`, `Valid(doc)`, `Corrupt` (not JSON) or `Unreadable` (it cannot be opened, or its bytes are not valid text), and a written report reads back as the document written. Byte-level output is not modelled.
- Consolidation's write failure is modelled only as "the output file could not be opened", which leaves it untouched. A failure part-way through `json.dump`, which would leave a truncated file, is not modelled.
- The `{}` write of `scan_secrets` (main.py:95-96) is taken to succeed. An `open` failure there would be caught by the generic handler and make the adapter return `False`; that case is not modelled.
- The `FileNotFoundError` handler of `consolidate_reports` (main.py:200-201) is reached when the output's directory is missing, as in `report --output missing/out.json`. The model covers that outcome with `writable = false`: nothing is written. The same handler also fires when a raw file disappears between the existence check and `open`. The model has no concurrent actors, so that race is not modelled.
- `Resolver.Resolve`: a successful clone records only the workspace and its `.git` directory. The rest of the checked-out tree is not tracked, because nothing in the core reads it.
- `Resolver.Cleanup`: a failed `rmtree` leaves the directories as they were. Partial removal is not modelled. The `os.path.exists` test is modelled over directories only, so a regular file named `temp_repo` is left out.
- The `schedule` library: which branch is taken is modelled as a registered `Job`. Its timing, the `while True: run_pending(); sleep(60)` loop (main.py:294-296), and whether `every().month` exists in that library are not modelled. The loop does not terminate and the library is not in view.
- Paths are compared as strings. `repo`, `./repo`, `repo/` and a path reached through a symlink count as different directories, although the filesystem that `os.path.isdir`, `os.path.exists` and `rmtree` consult resolves them to the same one. Path normalisation is not modelled.
- `clone_repository` (main.py:67-81) has no separate member. Its only effect on the core is "succeeded" or "raised", and that is the `clone` outcome.
