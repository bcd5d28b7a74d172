/** Tool dispatch in `perform_scan` (main.py:231-250): which adapters run, in
    which order, against which argument, and what they leave in the files. */
module Dispatch {
  import opened Values
  import opened Resolver
  import opened Adapters

  /** The default selection (main.py:233). */
  const AllTools: seq<string> := ["detect-secrets", "nuclei", "testssl.sh"]

  /** `if not tools: tools = [...]`: both `None` and the empty list mean all. */
  function Selection(tools: Option<seq<string>>): seq<string> {
    if tools.None? || tools.value == [] then AllTools else tools.value
  }

  predicate Selected(tools: Option<seq<string>>, tool: ToolId) {
    Name(tool) in Selection(tools)
  }

  /** The path `detect-secrets` scans: the clone for a URL, else the target. */
  function ScanPath(target: string): string {
    if IsUrl(target) then TempRepo else target
  }

  predicate Invokes(plan: seq<Invocation>, tool: ToolId) {
    exists k :: 0 <= k < |plan| && plan[k].tool == tool
  }

  /** The part of the plan one tool contributes: itself, or nothing. */
  function Step(planned: bool, tool: ToolId, arg: string): (p: seq<Invocation>)
    ensures forall t :: Invokes(p, t) <==> planned && t == tool
  {
    if planned then
      assert [Invocation(tool, arg)][0].tool == tool;
      [Invocation(tool, arg)]
    else []
  }

  lemma InvokesConcat(p: seq<Invocation>, q: seq<Invocation>)
    ensures forall t :: Invokes(p + q, t) <==> Invokes(p, t) || Invokes(q, t)
  {
    forall t ensures Invokes(p + q, t) <==> Invokes(p, t) || Invokes(q, t) {
      if Invokes(p + q, t) {
        var k :| 0 <= k < |p + q| && (p + q)[k].tool == t;
        if k >= |p| {
          assert q[k - |p|].tool == t;
        }
      }
      if Invokes(q, t) {
        var k :| 0 <= k < |q| && q[k].tool == t;
        assert (p + q)[|p| + k].tool == t;
      }
      if Invokes(p, t) {
        var k :| 0 <= k < |p| && p[k].tool == t;
        assert (p + q)[k].tool == t;
      }
    }
  }

  predicate RunsSecrets(tools: Option<seq<string>>) {
    Selected(tools, DetectSecrets)
  }

  predicate RunsNuclei(target: string, tools: Option<seq<string>>) {
    Selected(tools, Nuclei) && IsUrl(target)
  }

  predicate RunsTestssl(target: string, tools: Option<seq<string>>) {
    Selected(tools, TestSsl) && IsUrl(target)
  }

  /** The tool processes a scan that got past the git check attempts, in
      order. Line 240 also admits a local directory for `nuclei`, but the inner
      test at line 241 then skips it, so only URLs reach `run_nuclei`. */
  function Plan(target: string, tools: Option<seq<string>>): seq<Invocation> {
    Step(RunsSecrets(tools), DetectSecrets, ScanPath(target))
    + Step(RunsNuclei(target, tools), Nuclei, target)
    + Step(RunsTestssl(target, tools), TestSsl, target)
  }

  /** The order is fixed: `detect-secrets`, then `nuclei`, then `testssl.sh`,
      each at most once. */
  lemma PlanOrder(target: string, tools: Option<seq<string>>)
    ensures var plan := Plan(target, tools);
            forall i, j :: 0 <= i < j < |plan| ==> Rank(plan[i].tool) < Rank(plan[j].tool)
  {
  }

  /** A tool runs exactly when it was selected and applies to the target:
      `detect-secrets` always, the other two for URL targets only. */
  lemma PlanRunsExactly(target: string, tools: Option<seq<string>>)
    ensures forall tool :: Invokes(Plan(target, tools), tool) <==> Selected(tools, tool) && (tool == DetectSecrets || IsUrl(target))
  {
    var s := Step(RunsSecrets(tools), DetectSecrets, ScanPath(target));
    var n := Step(RunsNuclei(target, tools), Nuclei, target);
    var t := Step(RunsTestssl(target, tools), TestSsl, target);
    InvokesConcat(s, n);
    InvokesConcat(s + n, t);
  }

  /** `detect-secrets` scans the resolved path; the URL tools get the
      original target, never the clone. */
  lemma PlanArguments(target: string, tools: Option<seq<string>>)
    ensures var plan := Plan(target, tools);
            forall k :: 0 <= k < |plan| ==>
              plan[k].arg == (if plan[k].tool == DetectSecrets then ScanPath(target) else target)
  {
  }

  /** The outcome the world gives each tool's process. */
  function RunOf(tool: ToolId, secrets: ToolRun, nuclei: ToolRun, testssl: ToolRun): ToolRun {
    match tool
    case DetectSecrets => secrets
    case Nuclei => nuclei
    case TestSsl => testssl
  }

  /** The files after the planned processes ran one after another. */
  function RunAll(files: Files, plan: seq<Invocation>, secrets: ToolRun, nuclei: ToolRun, testssl: ToolRun): Files
    decreases |plan|
  {
    if plan == [] then files
    else RunAll(FilesAfter(files, plan[0], RunOf(plan[0].tool, secrets, nuclei, testssl)), plan[1..], secrets, nuclei, testssl)
  }

  /** With no selection, or an empty one, every tool applicable to the target
      runs: all three for a URL, only `detect-secrets` for a directory. */
  lemma DefaultSelectsAll(target: string, tools: Option<seq<string>>)
    requires tools.None? || tools.value == []
    ensures forall tool :: Invokes(Plan(target, tools), tool) <==> tool == DetectSecrets || IsUrl(target)
  {
    PlanRunsExactly(target, tools);
    forall tool ensures Selected(tools, tool) {
      assert Name(tool) == AllTools[Rank(tool)];
    }
  }

  /** A local target never reaches `nuclei` or `testssl.sh`, whatever was
      selected; at most `detect-secrets` runs, on the target itself. */
  lemma LocalTargetPlan(target: string, tools: Option<seq<string>>)
    requires !IsUrl(target)
    ensures Plan(target, tools) == (if Selected(tools, DetectSecrets) then [Invocation(DetectSecrets, target)] else [])
  {
  }

  /** The files after `detect-secrets`, if it ran. */
  function SecretsStep(files: Files, planned: bool, run: ToolRun): Files {
    if planned then SecretsFilesAfter(files, run) else files
  }

  /** The files after one of the two URL tools, if it ran. */
  function VulnStep(files: Files, planned: bool, run: ToolRun): Files {
    if planned then VulnFilesAfter(files, run) else files
  }

  /** The planned processes leave the files as the three adapters would one
      after another, in the fixed order. */
  lemma RunAllInOrder(files: Files, target: string, tools: Option<seq<string>>,
                       secrets: ToolRun, nuclei: ToolRun, testssl: ToolRun)
    ensures RunAll(files, Plan(target, tools), secrets, nuclei, testssl)
            == VulnStep(VulnStep(SecretsStep(files, RunsSecrets(tools), secrets), RunsNuclei(target, tools), nuclei),
                        RunsTestssl(target, tools), testssl)
  {
    var s := Step(RunsSecrets(tools), DetectSecrets, ScanPath(target));
    var n := Step(RunsNuclei(target, tools), Nuclei, target);
    var t := Step(RunsTestssl(target, tools), TestSsl, target);
    assert Plan(target, tools) == s + (n + t);
    RunAllSplit(files, s, n + t, secrets, nuclei, testssl);
    var f1 := RunAll(files, s, secrets, nuclei, testssl);
    RunAllSplit(f1, n, t, secrets, nuclei, testssl);
    var f2 := RunAll(f1, n, secrets, nuclei, testssl);
    assert f1 == SecretsStep(files, RunsSecrets(tools), secrets);
    assert f2 == VulnStep(f1, RunsNuclei(target, tools), nuclei);
    assert RunAll(f2, t, secrets, nuclei, testssl) == VulnStep(f2, RunsTestssl(target, tools), testssl);
  }

  /** The raw report files once the planned processes are done: the secrets
      file is `detect-secrets`' alone, and the URL tools never touch it. */
  lemma SecretsFileIsDetectSecrets(files: Files, target: string, tools: Option<seq<string>>,
                                   secrets: ToolRun, nuclei: ToolRun, testssl: ToolRun)
    ensures Read(RunAll(files, Plan(target, tools), secrets, nuclei, testssl), SecretsReport)
            == Read(SecretsStep(files, RunsSecrets(tools), secrets), SecretsReport)
  {
    RunAllInOrder(files, target, tools, secrets, nuclei, testssl);
  }

  /** When both URL tools run, testssl's output is the last write to the
      shared vulnerability file (main.py:124, 148): whatever nuclei wrote is
      lost once testssl writes anything, a document, invalid JSON or bytes
      that are not text, whether its call then returned or raised. */
  lemma TestsslWriteWins(files: Files, target: string, tools: Option<seq<string>>,
                         secrets: ToolRun, nuclei: ToolRun, testssl: ToolRun)
    requires RunsNuclei(target, tools) && RunsTestssl(target, tools)
    requires !testssl.NotInstalled? && !testssl.output.NoOutput?
    ensures Read(RunAll(files, Plan(target, tools), secrets, nuclei, testssl), VulnReport)
            == Read(WriteOutput(files, VulnReport, testssl.output), VulnReport)
  {
    RunAllInOrder(files, target, tools, secrets, nuclei, testssl);
  }

  lemma {:induction false} RunAllSplit(files: Files, p: seq<Invocation>, q: seq<Invocation>,
                                       secrets: ToolRun, nuclei: ToolRun, testssl: ToolRun)
    ensures RunAll(files, p + q, secrets, nuclei, testssl)
            == RunAll(RunAll(files, p, secrets, nuclei, testssl), q, secrets, nuclei, testssl)
    decreases |p|
  {
    if p == [] {
      assert p + q == q;
    } else {
      assert (p + q)[0] == p[0];
      assert (p + q)[1..] == p[1..] + q;
      RunAllSplit(FilesAfter(files, p[0], RunOf(p[0].tool, secrets, nuclei, testssl)), p[1..], q, secrets, nuclei, testssl);
    }
  }
}
