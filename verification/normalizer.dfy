/** The advisory normaliser: `Notus.__to_ospd` turns one raw advisory of a
    feed file, together with the file's path and its file-level metadata,
    into the canonical record the scanner queries. */
module Normalizer {
  import opened Text

  /** A scalar JSON value as found in the date fields of an advisory. */
  datatype Scalar = Num(n: int) | Chars(s: string)

  /** The `severity` object of an advisory; an absent key is `None`. */
  datatype Severity = Severity(cvssV3: Option<string>, cvssV2: Option<string>)

  /** One entry of a feed file's `advisories` list; an absent key is `None`. */
  datatype RawAdvisory = RawAdvisory(
    oid: Option<string>,
    title: Option<string>,
    creationDate: Option<Scalar>,
    lastModification: Option<Scalar>,
    summary: Option<string>,
    impact: Option<string>,
    affected: Option<string>,
    insight: Option<string>,
    severity: Option<Severity>,
    cves: Option<seq<string>>,
    xrefs: Option<seq<string>>,
    advisoryXref: Option<string>,
    advisoryId: Option<string>)

  /** The file-level keys left in a feed file once `advisories` is popped. */
  datatype FileMeta = FileMeta(family: Option<string>, qodType: Option<string>)

  /** The canonical record stored for an advisory. */
  datatype Record = Record(
    vtParams: seq<string>,
    creationDate: string,
    lastModification: string,
    modificationTime: string,
    summary: Option<string>,
    impact: Option<string>,
    affected: Option<string>,
    insight: Option<string>,
    solution: string,
    solutionType: string,
    vuldetect: string,
    qodType: string,
    severityVector: Option<string>,
    filename: string,
    refs: map<string, seq<string>>,
    family: string,
    name: string,
    category: string)

  const PackageCategory := "3"
  const VendorFix := "VendorFix"
  const SolutionText := "Please install the updated package(s)."
  const VuldetectText := "Checks if a vulnerable package version is present on the target host."
  const DefaultQodType := "package"

  /** Python's `str()` of a scalar. */
  function Str(v: Scalar): string {
    match v
    case Num(n) => IntToDecimal(n)
    case Chars(s) => s
  }

  /** Python truthiness of an optional string: present and non-empty. */
  predicate TruthyText(v: Option<string>) {
    v.Some? && v.value != ""
  }

  /** Python truthiness of an optional list: present and non-empty. */
  predicate TruthyList(v: Option<seq<string>>) {
    v.Some? && v.value != []
  }

  /** The `severity_vector`: the CVSS v3 vector when it is truthy, else
      whatever `cvss_v2` holds; a missing `severity` object reads as `{}`. */
  function SeverityVector(severity: Option<Severity>): (r: Option<string>)
    ensures severity.Some? && TruthyText(severity.value.cvssV3) ==> r == severity.value.cvssV3
    ensures severity.Some? && !TruthyText(severity.value.cvssV3) ==> r == severity.value.cvssV2
    ensures severity.None? ==> r.None?
    ensures r.Some? ==> exists sev :: severity == Some(sev) && r in {sev.cvssV3, sev.cvssV2}
  {
    var sev := severity.GetOr(Severity(None, None));
    if TruthyText(sev.cvssV3) then sev.cvssV3 else sev.cvssV2
  }

  /** The `refs` map of a record. */
  function BuildRefs(cves: Option<seq<string>>, xrefs: Option<seq<string>>,
                     advisoryXref: Option<string>, advisoryId: Option<string>): (r: map<string, seq<string>>)
    ensures "url" in r && |r["url"]| >= 1
    ensures r["url"][0] == advisoryXref.GetOr("")
    ensures r["url"][1..] == xrefs.GetOr([])
    ensures "cve" in r <==> TruthyList(cves)
    ensures "cve" in r ==> r["cve"] == cves.value
    ensures "advisory_id" in r <==> TruthyText(advisoryId)
    ensures "advisory_id" in r ==> r["advisory_id"] == [advisoryId.value]
    ensures r.Keys <= {"url", "cve", "advisory_id"}
  {
    var url := [advisoryXref.GetOr("")] + (if TruthyList(xrefs) then xrefs.value else []);
    var withCve := if TruthyList(cves) then map["url" := url, "cve" := cves.value] else map["url" := url];
    if TruthyText(advisoryId) then withCve["advisory_id" := [advisoryId.value]] else withCve
  }

  /** `__to_ospd(path, advisory, meta_data)`: a straight-line build of the
      record; what it guarantees is stated by the lemmas that follow. */
  function ToOspd(path: string, advisory: RawAdvisory, meta: FileMeta): Record
  {
    var name := LastSegment(path);
    var lastModification := Str(advisory.lastModification.GetOr(Num(0)));
    Record(
      vtParams := [],
      creationDate := Str(advisory.creationDate.GetOr(Num(0))),
      lastModification := lastModification,
      modificationTime := lastModification,
      summary := advisory.summary,
      impact := advisory.impact,
      affected := advisory.affected,
      insight := advisory.insight,
      solution := SolutionText,
      solutionType := VendorFix,
      vuldetect := VuldetectText,
      qodType := meta.qodType.GetOr(DefaultQodType),
      severityVector := SeverityVector(advisory.severity),
      filename := name,
      refs := BuildRefs(advisory.cves, advisory.xrefs, advisory.advisoryXref, advisory.advisoryId),
      family := meta.family.GetOr(Stem(name)),
      name := advisory.title.GetOr(""),
      category := PackageCategory)
  }

  /** Every record carries the fixed package-advisory fields, and each
      field the advisory or the file may omit takes its default. */
  lemma ToOspdFields(path: string, advisory: RawAdvisory, meta: FileMeta)
    ensures var r := ToOspd(path, advisory, meta);
      && r.category == PackageCategory && r.solutionType == VendorFix
      && r.solution == SolutionText && r.vuldetect == VuldetectText && r.vtParams == []
      && r.filename == LastSegment(path) && '/' !in r.filename
      && r.family == meta.family.GetOr(Stem(r.filename))
      && r.name == advisory.title.GetOr("")
      && r.qodType == meta.qodType.GetOr(DefaultQodType)
      && r.creationDate == Str(advisory.creationDate.GetOr(Num(0)))
      && r.lastModification == Str(advisory.lastModification.GetOr(Num(0)))
      && (advisory.creationDate.None? ==> r.creationDate == "0")
      && (advisory.lastModification.None? ==> r.lastModification == "0")
      && r.modificationTime == r.lastModification
      && r.summary == advisory.summary && r.impact == advisory.impact
      && r.affected == advisory.affected && r.insight == advisory.insight
      && r.severityVector == SeverityVector(advisory.severity)
      && r.refs == BuildRefs(advisory.cves, advisory.xrefs, advisory.advisoryXref, advisory.advisoryId)
  {
  }

  /** The CVE list a consumer reads back from a record: `refs.get("cve", [])`. */
  function CvesOf(r: Record): seq<string> {
    if "cve" in r.refs then r.refs["cve"] else []
  }

  /** The normaliser loses no CVE, cross-reference or advisory id: each is
      read back from the refs map as the advisory gave it. */
  lemma RefsRoundTrip(path: string, advisory: RawAdvisory, meta: FileMeta)
    ensures var r := ToOspd(path, advisory, meta);
      && CvesOf(r) == advisory.cves.GetOr([])
      && r.refs["url"] == [advisory.advisoryXref.GetOr("")] + advisory.xrefs.GetOr([])
      && (TruthyText(advisory.advisoryId) <==> "advisory_id" in r.refs && r.refs["advisory_id"] == [advisory.advisoryId.value])
  {
    var refs := BuildRefs(advisory.cves, advisory.xrefs, advisory.advisoryXref, advisory.advisoryId);
    assert ToOspd(path, advisory, meta).refs == refs;
    var url := refs["url"];
    assert url == [url[0]] + url[1..];
  }

  /** A feed file `<family>.notus` whose metadata has no `family` gives its
      records the file's stem as family, and the file's base name; the
      family may itself hold dots, as in `ubuntu-20.04.notus`. */
  lemma FamilyDefaultsToStem(dir: string, base: string, advisory: RawAdvisory, qod: Option<string>)
    requires base != [] && '/' !in base
    ensures var r := ToOspd(dir + "/" + base + ".notus", advisory, FileMeta(None, qod));
      r.filename == base + ".notus" && r.family == base
  {
    assert dir + "/" + base + ".notus" == dir + "/" + (base + ".notus");
    LastSegmentOfJoin(dir, base + ".notus");
    StemOfFeedFile(base);
  }

  /** An advisory with an oid, both CVSS vectors and one CVE, and no other
      key, read from a file whose metadata names the family "Debian" and no
      QoD type. */
  function DebianAdvisory(): RawAdvisory {
    RawAdvisory(Some("1.2.3.4"), None, None, None, None, None, None, None,
                Some(Severity(Some("AV:N/v3"), Some("AV:N/v2"))),
                Some(["CVE-2021-0001"]), None, None, None)
  }

  /** Its record takes the v3 vector, lists the CVE and has the empty
      advisory xref as its only URL. */
  lemma DebianExample()
    ensures var r := ToOspd("d.notus", DebianAdvisory(), FileMeta(Some("Debian"), None));
      && r.severityVector == Some("AV:N/v3")
      && r.refs["cve"] == ["CVE-2021-0001"]
      && r.refs["url"] == [""]
  {
  }

  /** Its record takes the family of the file and the defaults for what the
      advisory and the file leave out. */
  lemma DebianExampleDefaults()
    ensures var r := ToOspd("d.notus", DebianAdvisory(), FileMeta(Some("Debian"), None));
      && r.family == "Debian" && r.category == "3" && r.qodType == "package"
      && r.creationDate == "0" && r.name == ""
  {
  }
}
