/** The orchestrator as the source runs it: an environment object whose fields
    (directories, report files, attempted tool processes, verdicts, registered
    jobs) the operations update step by step. Each operation is proved to
    leave the host in the state the Pipeline functions describe. */
module Orchestrator {
  import opened Text
  import opened Values
  import opened Resolver
  import opened Adapters
  import opened Dispatch
  import opened Consolidation
  import opened Pipeline

  class Host {
    var dirs: set<string>
    var files: Files
    var trace: seq<Invocation>
    var verdicts: seq<Verdict>
    var jobs: seq<Job>

    function Snapshot(): State
      reads this
    {
      State(dirs, files, trace, verdicts, jobs)
    }

    /** A host with the given directories and files, before any scan. */
    constructor (initialDirs: set<string>, initialFiles: Files)
      ensures Snapshot() == State(initialDirs, initialFiles, [], [], [])
    {
      dirs := initialDirs;
      files := initialFiles;
      trace := [];
      verdicts := [];
      jobs := [];
    }

    /** `scan_secrets(path)` (main.py:83-112). */
    method ScanSecrets(path: string, run: ToolRun) returns (ok: bool)
      modifies this`files, this`trace
      ensures ok <==> run.Exited?
      ensures files == SecretsFilesAfter(old(files), run)
      ensures trace == old(trace) + [Invocation(DetectSecrets, path)]
    {
      trace := trace + [Invocation(DetectSecrets, path)];
      match run {
        case Exited(code, stderr, output) =>
          files := WriteOutput(files, SecretsReport, output);
          if code != 0 && !Contains(stderr, NoSecretsMarker) {
            // only a warning is logged
          } else if Contains(stderr, NoSecretsMarker) {
            files := files[SecretsReport := Valid(EmptyObject)];
          }
          ok := true;
        case NotInstalled =>
          ok := false;
        case Raised(output) =>
          files := WriteOutput(files, SecretsReport, output);
          ok := false;
      }
    }

    /** `run_nuclei(target)` (main.py:115-141): its own URL check comes first. */
    method RunNuclei(target: string, run: ToolRun) returns (ok: bool)
      modifies this`files, this`trace
      ensures ok <==> IsUrl(target) && run.Exited?
      ensures files == (if IsUrl(target) then VulnFilesAfter(old(files), run) else old(files))
      ensures trace == old(trace) + (if IsUrl(target) then [Invocation(Nuclei, target)] else [])
    {
      if !IsUrl(target) {
        return false;
      }
      trace := trace + [Invocation(Nuclei, target)];
      if run.Exited? {
        files := WriteOutput(files, VulnReport, run.output);
        ok := true;
      } else if run.Raised? {
        files := WriteOutput(files, VulnReport, run.output);
        ok := false;
      } else {
        ok := false;
      }
    }

    /** `run_testssl(target)` (main.py:143-166): no check of its own. */
    method RunTestssl(target: string, run: ToolRun) returns (ok: bool)
      modifies this`files, this`trace
      ensures ok <==> run.Exited?
      ensures files == VulnFilesAfter(old(files), run)
      ensures trace == old(trace) + [Invocation(TestSsl, target)]
    {
      trace := trace + [Invocation(TestSsl, target)];
      if run.Exited? {
        files := WriteOutput(files, VulnReport, run.output);
        ok := true;
      } else if run.Raised? {
        files := WriteOutput(files, VulnReport, run.output);
        ok := false;
      } else {
        ok := false;
      }
    }

    /** `consolidate_reports(out)` (main.py:169-203): the document is built
        member by member and written in one piece, or not at all. */
    method ConsolidateReports(out: string, writable: bool)
      modifies this`files
      ensures files == AfterConsolidate(old(files), out, writable)
    {
      var members: seq<(string, Json)> := [];
      var secrets := Read(files, SecretsReport);
      match secrets {
        case Corrupt =>
          return;  // json.load raised: logged, nothing written
        case Unreadable =>
          return;  // open or decoding raised: logged, nothing written
        case Valid(doc) =>
          members := members + [("secrets", doc)];
        case Absent =>
          members := members + [("secrets", SecretsNotRun)];
      }
      assert members == [("secrets", if secrets.Valid? then secrets.doc else SecretsNotRun)];
      var vuln := Read(files, VulnReport);
      if vuln.Unreadable? {
        return;  // not a JSONDecodeError: the outer handler skips the write
      } else if vuln.Absent? {
        members := members + [("vulnerabilities", VulnNotRun)];
      } else if vuln.Valid? {
        members := members + [("vulnerabilities", vuln.doc)];
      } else {
        members := members + [("vulnerabilities", VulnUndecodable)];
      }
      assert members == [("secrets", if secrets.Valid? then secrets.doc else SecretsNotRun),
                         ("vulnerabilities", if vuln.Absent? then VulnNotRun else if vuln.Valid? then vuln.doc else VulnUndecodable)];
      assert Report(secrets, vuln) == Some(JObject(members));
      if writable {
        files := files[out := Valid(JObject(members))];
      }
    }

    /** `perform_scan(target, tools)` (main.py:205-267). */
    method PerformScan(target: string, tools: Option<seq<string>>, w: World) returns (ok: bool)
      modifies this
      ensures ok == ScanSucceeds(old(dirs), target, w.makedirsOk, w.clone, w.revParse)
      ensures Snapshot() == AfterScan(old(Snapshot()), target, tools, w)
    {
      ghost var s0 := Snapshot();
      var tempDir: Option<string> := None;
      var scanTarget: Option<string> := None;
      if IsUrl(target) {
        tempDir := Some(TempRepo);
        if w.makedirsOk {
          dirs := dirs + {TempRepo};
          if w.clone.Cloned? {
            dirs := dirs + {GitDir(TempRepo)};
            scanTarget := Some(TempRepo);
          }
        }
      } else if target in dirs {
        scanTarget := Some(target);
      }
      assert dirs == Resolve(s0.dirs, target, w.makedirsOk, w.clone).dirs;

      ok := false;
      if scanTarget.Some? && IsGitRepository(dirs, scanTarget.value, w.revParse) {
        RunTools(target, scanTarget.value, tools, w);
        ok := true;
      }

      // finally: remove the workspace if it was created
      if tempDir.Some? && tempDir.value in dirs && w.rmtreeOk {
        dirs := RemoveTree(dirs, tempDir.value);
      }
      verdicts := verdicts + [Verdict(target, ok)];
    }

    /** The dispatch part of `perform_scan` (main.py:231-250), once the scan
        path has passed the git check; the adapters' return values are
        discarded. */
    method RunTools(target: string, scanPath: string, tools: Option<seq<string>>, w: World)
      requires scanPath == ScanPath(target)
      modifies this`files, this`trace
      ensures trace == old(trace) + Plan(target, tools)
      ensures files == RunAll(old(files), Plan(target, tools), w.secrets, w.nuclei, w.testssl)
    {
      var toolList: seq<string>;
      if tools.None? || tools.value == [] {
        toolList := ["detect-secrets", "nuclei", "testssl.sh"];
      } else {
        toolList := tools.value;
      }
      ghost var f0 := files;
      if "detect-secrets" in toolList {
        var _ := ScanSecrets(scanPath, w.secrets);
      }
      ghost var f1 := files;
      if "nuclei" in toolList && (IsUrl(target) || target in dirs) {
        if IsUrl(target) {
          var _ := RunNuclei(target, w.nuclei);
        }
      }
      ghost var f2 := files;
      if "testssl.sh" in toolList {
        if IsUrl(target) {
          var _ := RunTestssl(target, w.testssl);
        }
      }
      assert f1 == SecretsStep(f0, RunsSecrets(tools), w.secrets);
      assert f2 == VulnStep(f1, RunsNuclei(target, tools), w.nuclei);
      assert files == VulnStep(f2, RunsTestssl(target, tools), w.testssl);
      RunAllInOrder(f0, target, tools, w.secrets, w.nuclei, w.testssl);
    }

    /** `scheduled_job` (main.py:272-278). */
    method ScheduledJob(target: string, tools: Option<seq<string>>, w: World, writable: bool)
      modifies this
      ensures Snapshot() == AfterJob(old(Snapshot()), target, tools, w, writable)
    {
      var ok := PerformScan(target, tools, w);
      if ok {
        ConsolidateReports(DefaultConsolidated, writable);
      }
    }

    /** `schedule_scan(target, scheduleType, tools)` (main.py:269-296) up to
        the polling loop, which is not modelled. */
    method ScheduleScan(target: string, scheduleType: string, tools: Option<seq<string>>, w: World, writable: bool)
      modifies this
      ensures Snapshot() == AfterSchedule(old(Snapshot()), target, scheduleType, tools, w, writable)
    {
      if scheduleType == "daily" {
        jobs := jobs + [Job(Daily, target, tools)];
      } else if scheduleType == "weekly" {
        jobs := jobs + [Job(Weekly, target, tools)];
      } else if scheduleType == "monthly" {
        jobs := jobs + [Job(Monthly, target, tools)];
      } else if scheduleType == "once" {
        ScheduledJob(target, tools, w, writable);
      }
    }

    /** The `scan` command of `main` (main.py:305-315). */
    method ScanCommand(target: string, schedule: string, tools: Option<seq<string>>, w: World, writable: bool)
      modifies this
      ensures Snapshot() == AfterScanCommand(old(Snapshot()), target, schedule, tools, w, writable)
    {
      if schedule == "once" {
        var ok := PerformScan(target, tools, w);
        if ok {
          ConsolidateReports(DefaultConsolidated, writable);
        }
      } else {
        ScheduleScan(target, schedule, tools, w, writable);
      }
    }

    /** The `report` command of `main` (main.py:317-318). */
    method ReportCommand(output: Option<string>, writable: bool)
      modifies this`files
      ensures Snapshot() == AfterReportCommand(old(Snapshot()), output, writable)
    {
      var name := if output.Some? && output.value != "" then output.value else DefaultConsolidated;
      ConsolidateReports(name, writable);
    }
  }
}
