/** The orchestration pipeline as a function of the host's state and of what
    the outside world does: `perform_scan`, the scheduled job, the cadence
    dispatch of `schedule_scan` and the `scan` / `report` commands. */
module Pipeline {
  import opened Text
  import opened Values
  import opened Resolver
  import opened Adapters
  import opened Dispatch
  import opened Consolidation

  /** Everything outside the process that one scan consults, as oracle
      outcomes: `os.makedirs`, `git clone`, `git rev-parse`, the three tools'
      processes and `shutil.rmtree`. */
  datatype World = World(
    makedirsOk: bool,
    clone: CloneOutcome,
    revParse: RevParse,
    secrets: ToolRun,
    nuclei: ToolRun,
    testssl: ToolRun,
    rmtreeOk: bool)

  /** One `perform_scan` call and the value it returned (what main.py:275 and
      278 log for a scheduled job). */
  datatype Verdict = Verdict(target: string, succeeded: bool)

  /** The recurring cadences (main.py:280-285). */
  datatype Cadence = Daily | Weekly | Monthly

  /** A job registered with the scheduler: cadence, target and tool list. */
  datatype Job = Job(cadence: Cadence, target: string, tools: Option<seq<string>>)

  /** The host as the orchestrator sees it: existing directories, the JSON
      files of the working directory, the tool processes attempted so far, the
      scan verdicts and the registered jobs. */
  datatype State = State(
    dirs: set<string>,
    files: Files,
    trace: seq<Invocation>,
    verdicts: seq<Verdict>,
    jobs: seq<Job>)

  predicate Succeeds(s: State, target: string, w: World) {
    ScanSucceeds(s.dirs, target, w.makedirsOk, w.clone, w.revParse)
  }

  /** `perform_scan(target, tools)` (main.py:205-267): the tools of the plan run
      only when the scan gets past resolution and the git check; the
      workspace cleanup runs in every case. */
  function AfterScan(s: State, target: string, tools: Option<seq<string>>, w: World): State {
    var ok := Succeeds(s, target, w);
    var plan := if ok then Plan(target, tools) else [];
    State(
      FinalDirs(s.dirs, target, w.makedirsOk, w.clone, w.rmtreeOk),
      RunAll(s.files, plan, w.secrets, w.nuclei, w.testssl),
      s.trace + plan,
      s.verdicts + [Verdict(target, ok)],
      s.jobs)
  }

  /** `scheduled_job` (main.py:272-278): consolidate into the default report
      after a successful scan, and only then. */
  function AfterJob(s: State, target: string, tools: Option<seq<string>>, w: World, writable: bool): State {
    var scanned := AfterScan(s, target, tools, w);
    if Succeeds(s, target, w)
    then scanned.(files := AfterConsolidate(scanned.files, DefaultConsolidated, writable))
    else scanned
  }

  function CadenceOf(scheduleType: string): Option<Cadence> {
    if scheduleType == "daily" then Some(Daily)
    else if scheduleType == "weekly" then Some(Weekly)
    else if scheduleType == "monthly" then Some(Monthly)
    else None
  }

  /** `schedule_scan` up to its polling loop (main.py:280-293): a recurring
      cadence registers the job, `once` runs it right away, anything else does
      nothing. */
  function AfterSchedule(s: State, target: string, scheduleType: string, tools: Option<seq<string>>,
                         w: World, writable: bool): State {
    var cadence := CadenceOf(scheduleType);
    if cadence.Some? then s.(jobs := s.jobs + [Job(cadence.value, target, tools)])
    else if scheduleType == "once" then AfterJob(s, target, tools, w, writable)
    else s
  }

  /** The `scan` command (main.py:305-315): `once` scans and consolidates
      directly, every other schedule goes through `schedule_scan`. */
  function AfterScanCommand(s: State, target: string, schedule: string, tools: Option<seq<string>>,
                            w: World, writable: bool): State {
    if schedule == "once" then AfterJob(s, target, tools, w, writable)
    else AfterSchedule(s, target, schedule, tools, w, writable)
  }

  /** `args.output or "consolidated_report.json"` (main.py:318). */
  function OutputName(output: Option<string>): string {
    if output.None? || output.value == "" then DefaultConsolidated else output.value
  }

  /** The `report` command (main.py:317-318). */
  function AfterReportCommand(s: State, output: Option<string>, writable: bool): State {
    s.(files := AfterConsolidate(s.files, OutputName(output), writable))
  }

  // ---------------------------------------------------------------------------
  // Target resolution and the verdict

  /** The return value in the source's own terms: a URL scan succeeds exactly
      when the workspace was created and the clone did not raise (the clone's
      `.git` directory then passes the git check); a local scan exactly when
      the target is an existing directory that passes the git check. */
  lemma ScanVerdict(s: State, target: string, w: World)
    ensures IsUrl(target) ==> (Succeeds(s, target, w) <==> w.makedirsOk && w.clone.Cloned?)
    ensures !IsUrl(target) ==>
              (Succeeds(s, target, w) <==> target in s.dirs && IsGitRepository(s.dirs, target, w.revParse))
  {
  }

  /** The verdict depends on resolution and the git check only: neither the
      tool list, nor the adapters' outcomes, nor the cleanup change it. */
  lemma VerdictIgnoresAdapters(s: State, target: string, tools: Option<seq<string>>, other: Option<seq<string>>,
                               w: World, secrets: ToolRun, nuclei: ToolRun, testssl: ToolRun, rmtreeOk: bool)
    ensures var w' := w.(secrets := secrets, nuclei := nuclei, testssl := testssl, rmtreeOk := rmtreeOk);
            AfterScan(s, target, tools, w).verdicts == AfterScan(s, target, other, w').verdicts
  {
  }

  /** An invalid target (not a URL, not an existing directory) is rejected:
      no tool process is attempted, no file is written and no `temp_repo` is
      created; only the failed verdict is recorded. */
  lemma InvalidTargetRejected(s: State, target: string, tools: Option<seq<string>>, w: World)
    requires !IsUrl(target) && target !in s.dirs
    ensures !Succeeds(s, target, w)
    ensures AfterScan(s, target, tools, w) == s.(verdicts := s.verdicts + [Verdict(target, false)])
  {
  }

  /** A failed scan, for whatever reason, starts no tool and writes no file. */
  lemma FailedScanRunsNothing(s: State, target: string, tools: Option<seq<string>>, w: World)
    requires !Succeeds(s, target, w)
    ensures AfterScan(s, target, tools, w).trace == s.trace
    ensures AfterScan(s, target, tools, w).files == s.files
  {
  }

  /** Cleanup: after any scan of a URL whose removal succeeds, `temp_repo` and
      everything below it are gone, even when the clone or the git check
      failed, and the directories elsewhere are as before. A local target
      leaves the directories untouched. */
  lemma ScanCleansUp(s: State, target: string, tools: Option<seq<string>>, w: World)
    ensures var after := AfterScan(s, target, tools, w).dirs;
            IsUrl(target) && w.rmtreeOk ==>
              TempRepo !in after && RemoveTree(after, TempRepo) == RemoveTree(s.dirs, TempRepo)
    ensures !IsUrl(target) ==> AfterScan(s, target, tools, w).dirs == s.dirs
  {
  }

  /** A failed removal is only logged: the verdict is the same, and a
      workspace that was created is left in place. */
  lemma RemovalFailureKeepsVerdict(s: State, target: string, tools: Option<seq<string>>, w: World)
    ensures AfterScan(s, target, tools, w.(rmtreeOk := false)).verdicts == AfterScan(s, target, tools, w).verdicts
    ensures IsUrl(target) && w.makedirsOk ==> TempRepo in AfterScan(s, target, tools, w.(rmtreeOk := false)).dirs
  {
  }

  // ---------------------------------------------------------------------------
  // Tool dispatch

  /** A local git repository, recognised by its `.git` directory or by
      `git rev-parse` alone, is scanned in place: no clone, no directory
      created or removed, and `detect-secrets` (if selected) is the only tool
      attempted, on the target itself. */
  lemma LocalRepositoryScannedInPlace(s: State, target: string, tools: Option<seq<string>>, w: World)
    requires !IsUrl(target) && target in s.dirs && IsGitRepository(s.dirs, target, w.revParse)
    ensures Succeeds(s, target, w)
    ensures var after := AfterScan(s, target, tools, w);
            && after.dirs == s.dirs
            && after.trace == s.trace + (if Selected(tools, DetectSecrets) then [Invocation(DetectSecrets, target)] else [])
  {
  }

  /** A URL scan that cloned: `detect-secrets` reads the clone, `nuclei` and
      `testssl.sh` the original URL, in that order, each if selected. */
  lemma UrlScanPlan(s: State, target: string, tools: Option<seq<string>>, w: World)
    requires IsUrl(target) && w.makedirsOk && w.clone.Cloned?
    ensures AfterScan(s, target, tools, w).trace
            == s.trace
               + (if Selected(tools, DetectSecrets) then [Invocation(DetectSecrets, TempRepo)] else [])
               + (if Selected(tools, Nuclei) then [Invocation(Nuclei, target)] else [])
               + (if Selected(tools, TestSsl) then [Invocation(TestSsl, target)] else [])
  {
  }

  // ---------------------------------------------------------------------------
  // The scheduler and the commands

  /** `once` runs the job exactly once, right away, and registers nothing. */
  lemma OnceRunsJobNow(s: State, target: string, tools: Option<seq<string>>, w: World, writable: bool)
    ensures var after := AfterSchedule(s, target, "once", tools, w, writable);
            && after == AfterJob(s, target, tools, w, writable)
            && after.jobs == s.jobs
            && after.verdicts == s.verdicts + [Verdict(target, Succeeds(s, target, w))]
  {
  }

  /** Each recurring cadence string registers one job with its own cadence
      and runs nothing yet. */
  lemma RecurringCadenceRegisters(s: State, target: string, tools: Option<seq<string>>, w: World, writable: bool)
    ensures AfterSchedule(s, target, "daily", tools, w, writable) == s.(jobs := s.jobs + [Job(Daily, target, tools)])
    ensures AfterSchedule(s, target, "weekly", tools, w, writable) == s.(jobs := s.jobs + [Job(Weekly, target, tools)])
    ensures AfterSchedule(s, target, "monthly", tools, w, writable) == s.(jobs := s.jobs + [Job(Monthly, target, tools)])
  {
  }

  /** An unknown cadence is rejected before any job is registered or run. */
  lemma UnknownCadenceIgnored(s: State, target: string, scheduleType: string, tools: Option<seq<string>>,
                              w: World, writable: bool)
    requires scheduleType !in ["daily", "weekly", "monthly", "once"]
    ensures AfterSchedule(s, target, scheduleType, tools, w, writable) == s
  {
  }

  /** A job consolidates only after a successful scan; after a failed one the
      consolidated report (like every file) stays as it was. */
  lemma JobConsolidatesOnlyOnSuccess(s: State, target: string, tools: Option<seq<string>>, w: World, writable: bool)
    ensures var scanned := AfterScan(s, target, tools, w);
            AfterJob(s, target, tools, w, writable).files
            == if Succeeds(s, target, w) then AfterConsolidate(scanned.files, DefaultConsolidated, writable) else s.files
  {
  }

  /** The `once` branch of `main` does what `schedule_scan(..., "once")` would
      do, so for every schedule the command equals `schedule_scan`. */
  lemma ScanCommandIsSchedule(s: State, target: string, schedule: string, tools: Option<seq<string>>,
                              w: World, writable: bool)
    ensures AfterScanCommand(s, target, schedule, tools, w, writable) == AfterSchedule(s, target, schedule, tools, w, writable)
  {
  }

  /** `report` with no output name, or an empty one, writes the default file. */
  lemma ReportCommandDefault(s: State, output: Option<string>, writable: bool)
    requires output.None? || output == Some("")
    ensures AfterReportCommand(s, output, writable).files == AfterConsolidate(s.files, DefaultConsolidated, writable)
  {
  }

  // ---------------------------------------------------------------------------
  // End to end

  /** A local repository with no raw report files, scanned once with every
      tool by default, where `detect-secrets` reports "No secrets found!":
      the consolidated report holds the empty secrets document (the scan ran
      and found nothing), not the placeholder, and the "no vulnerability scan"
      placeholder, since no URL tool ran. */
  lemma LocalOnceWithNoSecrets(s: State, target: string, w: World, code: int, stderr: string)
    requires !IsUrl(target) && target in s.dirs && IsGitRepository(s.dirs, target, w.revParse)
    requires SecretsReport !in s.files && VulnReport !in s.files
    requires w.secrets == Exited(code, NoSecretsMarker + stderr, NoOutput)
    ensures var after := AfterScanCommand(s, target, "once", None, w, true);
            Read(after.files, DefaultConsolidated)
            == Valid(JObject([("secrets", EmptyObject), ("vulnerabilities", VulnNotRun)]))
  {
    LocalRepositoryScannedInPlace(s, target, None, w);
    DefaultSelectsAll(target, None);
    var scanned := AfterScan(s, target, None, w);
    RunAllInOrder(s.files, target, None, w.secrets, w.nuclei, w.testssl);
    assert Selected(None, DetectSecrets) by {
      assert Name(DetectSecrets) == AllTools[0];
    }
    assert OccursAt(NoSecretsMarker + stderr, NoSecretsMarker, 0) by {
      assert (NoSecretsMarker + stderr)[..|NoSecretsMarker|] == NoSecretsMarker;
    }
    assert Read(scanned.files, SecretsReport) == Valid(EmptyObject);
    assert Read(scanned.files, VulnReport) == Absent;
  }

  /** The same repository scanned with `nuclei` alone: nothing applicable
      runs, and the report holds the two "not performed" placeholders. */
  lemma LocalOnceWithoutSecretScan(s: State, target: string, w: World)
    requires !IsUrl(target) && target in s.dirs && IsGitRepository(s.dirs, target, w.revParse)
    requires SecretsReport !in s.files && VulnReport !in s.files
    ensures var after := AfterScanCommand(s, target, "once", Some(["nuclei"]), w, true);
            && after.trace == s.trace
            && Read(after.files, DefaultConsolidated)
               == Valid(JObject([("secrets", SecretsNotRun), ("vulnerabilities", VulnNotRun)]))
  {
  }
}
