/** Report consolidation (`consolidate_reports`, main.py:169-203): the two raw
    report files are read and merged into one two-key document, or nothing is
    written at all. */
module Consolidation {
  import opened Values

  /** The placeholders, with the exact strings of main.py:179, 188 and 191. */
  const SecretsNotRun: Json := JObject([("status", JString("No secrets scan performed or no secrets found."))])
  const VulnNotRun: Json := JObject([("status", JString("No vulnerability scans performed."))])
  const VulnUndecodable: Json :=
    JObject([("error", JString("Failed to decode vulnerability report.  Check logs for details."))])

  /** The document consolidation writes, given what the two raw files hold;
      `None` when reading raises an error the code does not catch on the spot
      and the handlers at main.py:200-203 skip the write. That is any failure
      on the secrets file (main.py:176-177), and a vulnerability file that
      cannot be opened or decoded as text; only `JSONDecodeError` on the
      vulnerability file is caught, at main.py:186. */
  function Report(secrets: RawFile, vuln: RawFile): Option<Json> {
    if secrets.Corrupt? || secrets.Unreadable? || vuln.Unreadable? then None
    else
      var s := if secrets.Valid? then secrets.doc else SecretsNotRun;
      var v := if vuln.Absent? then VulnNotRun else if vuln.Corrupt? then VulnUndecodable else vuln.doc;
      Some(JObject([("secrets", s), ("vulnerabilities", v)]))
  }

  /** The shape of a written report and the placeholder rules: exactly the keys
      `secrets` and `vulnerabilities`, in that order; a report is written
      exactly when the secrets file is absent or valid and the vulnerability
      file is not unreadable, so a vulnerability file that is not JSON only
      becomes the error placeholder; present documents are embedded as they
      are. */
  lemma ReportShape(secrets: RawFile, vuln: RawFile)
    ensures Report(secrets, vuln).Some? <==> (secrets.Absent? || secrets.Valid?) && !vuln.Unreadable?
    ensures Report(secrets, vuln).Some? ==>
              var doc := Report(secrets, vuln).value;
              && doc.JObject?
              && Keys(doc.members) == ["secrets", "vulnerabilities"]
              && Field(doc, "secrets") == Some(if secrets.Valid? then secrets.doc else SecretsNotRun)
              && (vuln.Absent? ==> Field(doc, "vulnerabilities") == Some(VulnNotRun))
              && (vuln.Corrupt? ==> Field(doc, "vulnerabilities") == Some(VulnUndecodable))
              && (vuln.Valid? ==> Field(doc, "vulnerabilities") == Some(vuln.doc))
  {
  }

  /** A reader can tell "the secret scan ran and found nothing" (`{}`) from
      "there was no secrets file": the two reports differ whenever a report
      is written at all, which an unreadable vulnerability file prevents. */
  lemma EmptySecretsDistinguishable(vuln: RawFile)
    ensures !vuln.Unreadable? ==> Report(Valid(EmptyObject), vuln) != Report(Absent, vuln)
    ensures Report(Valid(EmptyObject), vuln).Some? <==> !vuln.Unreadable?
  {
  }

  /** The files after `consolidate_reports(out)`: the report replaces `out`
      when there is one and the output file could be opened for writing. */
  function AfterConsolidate(files: Files, out: string, writable: bool): Files {
    var r := Report(Read(files, SecretsReport), Read(files, VulnReport));
    if r.Some? && writable then files[out := Valid(r.value)] else files
  }

  /** Read-only on the raw files: with an output name other than theirs,
      nothing but the output file changes. */
  lemma ConsolidateReadOnly(files: Files, out: string, writable: bool, name: string)
    requires name != out
    ensures Read(AfterConsolidate(files, out, writable), name) == Read(files, name)
  {
  }

  /** Idempotence: run a second time on unchanged raw files, consolidation
      leaves the files exactly as the first run did. */
  lemma ConsolidateIdempotent(files: Files, out: string, writable: bool)
    requires out != SecretsReport && out != VulnReport
    ensures AfterConsolidate(AfterConsolidate(files, out, writable), out, writable) == AfterConsolidate(files, out, writable)
  {
  }

  /** Why idempotence needs the output name to differ from the raw files:
      `report --output vulnerability_report.json` feeds each report into the
      next one. */
  lemma OutputOverRawFileNotIdempotent()
    ensures var once := AfterConsolidate(map[], VulnReport, true);
            AfterConsolidate(once, VulnReport, true) != once
  {
  }
}
