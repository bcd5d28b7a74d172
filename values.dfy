/** The values the orchestrator passes around: JSON documents (abstractly),
    the state of a raw report file on disk, and the fixed file names. */
module Values {

  datatype Option<+T> = None | Some(value: T)

  /** A JSON document as `json.load` returns it. Objects keep their members in
      insertion order, as a Python dict does and as `json.dump` writes them. */
  datatype Json =
    | JNull
    | JBool(b: bool)
    | JNumber(n: real)
    | JString(s: string)
    | JArray(items: seq<Json>)
    | JObject(members: seq<(string, Json)>)

  /** `{}` */
  const EmptyObject: Json := JObject([])

  /** What a JSON file on disk looks like to a reader: missing, parsable into
      a document, present but not valid JSON (`json.load` raises
      `JSONDecodeError`), or present but unreadable in another way (`open`
      or the text decoding raises, e.g. `PermissionError`,
      `IsADirectoryError`, `UnicodeDecodeError`). */
  datatype RawFile = Absent | Valid(doc: Json) | Corrupt | Unreadable

  /** Files at fixed names relative to the working directory (main.py:18-19,
      and the default of `consolidate_reports` at main.py:169). */
  const SecretsReport := "secrets_report.json"
  const VulnReport := "vulnerability_report.json"
  const DefaultConsolidated := "consolidated_report.json"

  /** The files of the working directory the model tracks; a name that is not
      a key does not exist. */
  type Files = map<string, RawFile>

  function Read(files: Files, name: string): RawFile {
    if name in files then files[name] else Absent
  }

  /** The member names of a JSON object, in order. */
  function Keys(members: seq<(string, Json)>): (ks: seq<string>)
    ensures |ks| == |members|
    ensures forall k :: 0 <= k < |members| ==> ks[k] == members[k].0
  {
    if members == [] then [] else [members[0].0] + Keys(members[1..])
  }

  /** `d[key]` for a JSON object `d` (first member with that name). */
  function Field(doc: Json, key: string): Option<Json> {
    if doc.JObject? then Lookup(doc.members, key) else None
  }

  function Lookup(members: seq<(string, Json)>, key: string): (r: Option<Json>)
    ensures r.Some? <==> exists k :: 0 <= k < |members| && members[k].0 == key
    ensures r.Some? ==> exists k :: 0 <= k < |members| && members[k] == (key, r.value)
  {
    if members == [] then None
    else if members[0].0 == key then Some(members[0].1)
    else
      var r := Lookup(members[1..], key);
      assert forall k :: 1 <= k < |members| ==> members[k] == members[1..][k - 1];
      r
  }
}
