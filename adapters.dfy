/** The three tool adapters (main.py:83-166) with the external processes as
    oracle outcomes: what each adapter does to the raw report files and what
    it returns. What the tools themselves detect is not modelled. */
module Adapters {
  import opened Text
  import opened Values

  datatype ToolId = DetectSecrets | Nuclei | TestSsl

  /** The names the CLI and `perform_scan` use for the tools (main.py:32, 233). */
  function Name(tool: ToolId): string {
    match tool
    case DetectSecrets => "detect-secrets"
    case Nuclei => "nuclei"
    case TestSsl => "testssl.sh"
  }

  /** Position in `perform_scan`'s fixed order (main.py:236-250). */
  function Rank(tool: ToolId): nat {
    match tool
    case DetectSecrets => 0
    case Nuclei => 1
    case TestSsl => 2
  }

  /** One attempted tool process: the tool and the argument it scans. */
  datatype Invocation = Invocation(tool: ToolId, arg: string)

  /** What a tool process left in its output file: nothing, a JSON document,
      text that is not JSON, or bytes that are not valid text. */
  datatype ToolWrite = NoOutput | WroteJson(doc: Json) | WroteInvalid | WroteUndecodable

  /** What `subprocess.run` did: the process ran and exited (any code), the
      binary was missing (`FileNotFoundError`), or another exception was
      raised, before the process could start (`output` is then `NoOutput`) or
      after it had written its file (decoding its console output under
      `text=True`, say). */
  datatype ToolRun = Exited(code: int, stderr: string, output: ToolWrite) | NotInstalled | Raised(output: ToolWrite)

  /** The output file after the process wrote (or did not write) to it. */
  function WriteOutput(files: Files, name: string, output: ToolWrite): Files {
    match output
    case NoOutput => files
    case WroteJson(doc) => files[name := Valid(doc)]
    case WroteInvalid => files[name := Corrupt]
    case WroteUndecodable => files[name := Unreadable]
  }

  /** The message `detect-secrets` is taken to print when it finds nothing. */
  const NoSecretsMarker := "No secrets found!"

  /** The files after `scan_secrets` (main.py:88-97): the tool's own output,
      then `{}` over it whenever the marker occurs in stderr, whatever the
      exit code. When `subprocess.run` raises, the marker test is never
      reached and only what the tool wrote remains. */
  function SecretsFilesAfter(files: Files, run: ToolRun): Files {
    match run
    case Exited(_, stderr, output) =>
      var written := WriteOutput(files, SecretsReport, output);
      if Contains(stderr, NoSecretsMarker) then written[SecretsReport := Valid(EmptyObject)] else written
    case Raised(output) => WriteOutput(files, SecretsReport, output)
    case NotInstalled => files
  }

  /** The files after `run_nuclei` or `run_testssl` got as far as the process:
      both name the vulnerability report as output (main.py:124, 148). */
  function VulnFilesAfter(files: Files, run: ToolRun): Files {
    if run.NotInstalled? then files else WriteOutput(files, VulnReport, run.output)
  }

  /** What any adapter is up to with the files once its process is attempted. */
  function FilesAfter(files: Files, inv: Invocation, run: ToolRun): Files {
    if inv.tool == DetectSecrets then SecretsFilesAfter(files, run) else VulnFilesAfter(files, run)
  }

  /** `scan_secrets` writes `{}` exactly when the marker is in stderr, over
      anything the tool wrote, for a zero and a non-zero exit alike; without
      the marker, or when the call raised, the file holds what the tool left;
      a missing tool changes nothing. Only the secrets file is touched. */
  lemma SecretsAdapterFiles(files: Files, run: ToolRun, name: string)
    ensures run.Exited? && Contains(run.stderr, NoSecretsMarker) ==>
              Read(SecretsFilesAfter(files, run), SecretsReport) == Valid(EmptyObject)
    ensures (run.Exited? && !Contains(run.stderr, NoSecretsMarker)) || run.Raised? ==>
              Read(SecretsFilesAfter(files, run), SecretsReport) == Read(WriteOutput(files, SecretsReport, run.output), SecretsReport)
    ensures run.NotInstalled? ==> SecretsFilesAfter(files, run) == files
    ensures name != SecretsReport ==> Read(SecretsFilesAfter(files, run), name) == Read(files, name)
  {
  }

  /** The `{}` document is written from stderr alone: a tool that printed the
      marker but wrote a corrupt file still leaves a readable empty report. */
  lemma MarkerOverridesCorruptOutput(files: Files, code: int, pre: string, post: string)
    ensures Read(SecretsFilesAfter(files, Exited(code, pre + NoSecretsMarker + post, WroteInvalid)), SecretsReport)
            == Valid(EmptyObject)
  {
    var stderr := pre + NoSecretsMarker + post;
    assert stderr[|pre|..|pre| + |NoSecretsMarker|] == NoSecretsMarker;
    assert OccursAt(stderr, NoSecretsMarker, |pre|);
  }
}
