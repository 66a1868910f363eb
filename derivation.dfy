/** What the header module's `run` derives from a configuration, stated as
    functions of the configuration as the author gave it: the defaults it
    fills in, the flags, the version URLs, and the ordered diagnostics it
    publishes. The imperative run in module Headers is proved to compute
    exactly these. Line numbers in the comments refer to js/w3c/headers.js. */
module Derivation {
  import opened JsValues
  import opened StatusTables
  import opened People

  /** An alternate format of the document. */
  datatype Alternate = Alternate(uri: Option<string>, text: Option<string>)  // the `label` property

  /** `wg`, `wgURI` and `wgPatentURI`: undefined, one string, or an array. */
  datatype GroupField = Unset | Single(text: string) | Several(items: seq<string>)

  /** A date as the date helpers present it: its year, `concatDate(d)` and
      `concatDate(d, "-")`. */
  datatype DateInfo = DateInfo(year: int, compact: string, dashed: string)

  /** What `"..." + f` inserts: an array is joined with commas. */
  function GroupText(f: GroupField): string
  {
    match f
    case Unset => "undefined"
    case Single(s) => s
    case Several(xs) => Join(xs, ",")
  }

  /** The configuration fields the author sets and `run` reads. */
  datatype Input = Input(
    doRDFa: Rdfa,
    license: Option<string>,
    specStatus: Option<string>,
    shortName: Option<string>,
    subtitle: Option<string>,
    previousPublishDate: Option<DateInfo>,
    previousMaturity: Option<string>,
    noRecTrack: bool,
    edDraftURI: Option<string>,
    thisVersion: Option<string>,
    latestVersion: Option<string>,
    prevVersion: Option<string>,
    prevRecShortname: Option<string>,
    prevRecURI: Option<string>,
    editors: seq<Person>,
    authors: seq<Person>,
    alternateFormats: seq<Alternate>,
    copyrightStart: Option<string>,
    rdfStatus: Option<string>,
    wg: GroupField,
    wgURI: GroupField,
    wgPatentURI: GroupField,
    lcEnd: Option<string>,
    crEnd: Option<string>,
    prEnd: Option<string>,
    charterDisclosureURI: Option<string>,
    implementationReportURI: Option<string>)

  // ---------------------------------------------------------------------
  // Diagnostics

  datatype Severity = Error | Warn

  /** Every message `run` can publish. */
  datatype Message =
    | MissingSpecStatus
    | MissingShortName
    | EdDraftURIMissing
    | PreviousMaturityMissing
    | NoPreviousVersion
    | NoEditor
    | UnnamedPerson
    | IncompleteAlternate
    | SotdRequired
    | LcEndMissing
    | PrLcEndMissing
    | CrEndMissing
    | PrEndMissing
    | CharterDisclosureMissing
    | ImplementationReportMissing
    | TagFindingSotd

  /** The words the source publishes for each message; the bus records the
      message itself. */
  function Text(m: Message): string
  {
    match m
    case MissingSpecStatus => "Missing required configuration: specStatus"
    case MissingShortName => "Missing required configuration: shortName"
    case EdDraftURIMissing => "Editor's Drafts should set edDraftURI."
    case PreviousMaturityMissing => "previousPublishDate is set, but not previousMaturity"
    case NoPreviousVersion => "Document on track but no previous version."
    case NoEditor => "At least one editor is required"
    case UnnamedPerson => "All authors and editors must have a name."
    case IncompleteAlternate => "All alternate formats must have a uri and a label."
    case SotdRequired => "A custom SotD paragraph is required for your type of document."
    case LcEndMissing => "Status is LC but no lcEnd is specified"
    case PrLcEndMissing => "Status is PR but no lcEnd is specified (needed to indicate end of previous LC)"
    case CrEndMissing => "Status is CR but no crEnd is specified"
    case PrEndMissing => "Status is PR but no prEnd is specified"
    case CharterDisclosureMissing =>
      "IG-NOTEs must link to charter's disclosure section using charterDisclosureURI"
    case ImplementationReportMissing =>
      "CR, PR, and REC documents need to have an implementationReportURI defined."
    case TagFindingSotd =>
      "ReSpec does not support automated SotD generation for TAG findings, " +
      "please specify one using a <code><section></code> element with ID=sotd."
  }

  datatype Diagnostic = Diagnostic(severity: Severity, message: Message)

  function Emit(condition: bool, severity: Severity, m: Message): seq<Diagnostic>
  {
    if condition then [Diagnostic(severity, m)] else []
  }

  // ---------------------------------------------------------------------
  // Status flags

  predicate IsCGBG(status: Option<string>)
  {
    InList(status, Cgbg)
  }

  /** `isCGBG && /G-FINAL$/.test(specStatus)` */
  predicate IsCGFinal(status: Option<string>)
  {
    IsCGBG(status) && EndsWith(status.value, "G-FINAL")
  }

  predicate IsNoTrack(status: Option<string>)
  {
    InList(status, NoTrackStatus)
  }

  predicate IsRecTrack(i: Input)
  {
    if i.noRecTrack then false else InList(i.specStatus, RecTrackStatus)
  }

  function AnOrA(status: Option<string>): string
  {
    if InList(status, PrecededByAn) then "an" else "a"
  }

  predicate IsTagFinding(status: Option<string>)
  {
    status == Some("finding") || status == Some("draft-finding")
  }

  /** Not one of the statuses that have no previous version by nature. */
  predicate NotFirstDraft(status: Option<string>)
  {
    status != Some("FPWD") && status != Some("FPLC") && status != Some("ED")
  }

  predicate IsLC(status: Option<string>)
  {
    status == Some("LC") || status == Some("FPLC")
  }

  predicate NotYetRec(i: Input)
  {
    IsRecTrack(i) && i.specStatus != Some("REC")
  }

  predicate IsRec(i: Input)
  {
    IsRecTrack(i) && i.specStatus == Some("REC")
  }

  predicate ShowThisVersion(status: Option<string>)
  {
    !IsNoTrack(status) || IsTagFinding(status)
  }

  predicate ShowPreviousVersion(i: Input)
  {
    if IsTagFinding(i.specStatus) then i.previousPublishDate.Some?
    else NotFirstDraft(i.specStatus) && !IsNoTrack(i.specStatus)
  }

  predicate RecNotExpected(i: Input)
  {
    !IsRecTrack(i) && Maturity(i.specStatus) == Some("WD") && i.specStatus != Some("FPWD-NOTE")
  }

  // ---------------------------------------------------------------------
  // Defaults and derived values

  function DoRdfa(d: Rdfa): Rdfa
  {
    if d == RdfaUnset then RdfaOn("1.1") else d
  }

  function License(i: Input): string
  {
    OrElse(i.license, "w3c")
  }

  /** The patent policy page of the one group allowed to use the cc-by licence. */
  const CcByPatentPolicy := "http://www.w3.org/2004/01/pp-impl/40318/status"

  predicate IsCCBY(i: Input)
  {
    License(i) == "cc-by" && i.wgPatentURI == Single(CcByPatentPolicy)
  }

  function Title(docTitle: string): string
  {
    if docTitle != "" then docTitle else "No Title"
  }

  function EdDraftURI(i: Input): string
  {
    OrElse(i.edDraftURI, "")
  }

  /** The maturity code of a status: its entry in Status2Maturity, or the status itself. */
  function Maturity(status: Option<string>): Option<string>
  {
    var m := Lookup(Status2Maturity, status);
    if Truthy(m) then m else status
  }

  function PublishSpace(status: Option<string>): string
  {
    if status == Some("Member-SUBM") then "Submission"
    else if status == Some("Team-SUBM") then "TeamSubmission"
    else "TR"
  }

  /** The undated URL of a TAG finding. */
  function TagLatestVersion(i: Input): string
  {
    "http://www.w3.org/2001/tag/doc/" + Str(i.shortName)
  }

  /** The dated URL under /TR/ (or the submission spaces) of this publication. */
  function DatedVersion(i: Input, publish: DateInfo): string
  {
    "http://www.w3.org/" + PublishSpace(i.specStatus) + "/" + IntToDecimal(publish.year) + "/" +
    Str(Maturity(i.specStatus)) + "-" + Str(i.shortName) + "-" + publish.compact + "/"
  }

  /** The undated URL under /TR/ (or the submission spaces). */
  function UndatedVersion(i: Input): string
  {
    "http://www.w3.org/" + PublishSpace(i.specStatus) + "/" + Str(i.shortName) + "/"
  }

  /** `thisVersion` after the run; a Community or Business Group keeps its own. */
  function ThisVersion(i: Input, publish: DateInfo): Option<string>
  {
    if IsTagFinding(i.specStatus) then Some(TagLatestVersion(i) + "-" + publish.dashed)
    else if i.specStatus == Some("ED") then Some(EdDraftURI(i))
    else if IsCGBG(i.specStatus) then i.thisVersion
    else Some(DatedVersion(i, publish))
  }

  function LatestVersion(i: Input): Option<string>
  {
    if IsTagFinding(i.specStatus) then Some(TagLatestVersion(i))
    else if IsCGBG(i.specStatus) then i.latestVersion
    else Some(UndatedVersion(i))
  }

  function PrevVersion(i: Input): string
  {
    match i.previousPublishDate
    case None => OrElse(i.prevVersion, "")
    case Some(d) =>
      if IsTagFinding(i.specStatus) then TagLatestVersion(i) + "-" + d.dashed
      else if IsCGBG(i.specStatus) then OrElse(i.prevVersion, "")
      else
        "http://www.w3.org/TR/" + IntToDecimal(d.year) + "/" + Str(Maturity(i.previousMaturity)) + "-" +
        Str(i.shortName) + "-" + d.compact + "/"
  }

  function PrevRecURI(i: Input): Option<string>
  {
    if Truthy(i.prevRecShortname) && !Truthy(i.prevRecURI) then
      Some("http://www.w3.org/TR/" + i.prevRecShortname.value)
    else i.prevRecURI
  }

  /** The copyright start is erased when it is the publication year. */
  function CopyrightStart(i: Input, year: int): Option<string>
  {
    if Truthy(i.copyrightStart) && i.copyrightStart.value == IntToDecimal(year) then Some("")
    else i.copyrightStart
  }

  function RdfStatus(i: Input): Option<string>
  {
    var r := Lookup(Status2Rdf, i.specStatus);
    if Truthy(r) then r else i.rdfStatus
  }

  /** The settings once the defaults of lines 198-229 are filled in. */
  function Defaulted(i: Input): Input
  {
    i.(doRDFa := DoRdfa(i.doRDFa),
       license := Some(License(i)),
       subtitle := Some(OrElse(i.subtitle, "")),
       edDraftURI := Some(EdDraftURI(i)))
  }

  /** The settings after lines 198-285: the defaults, the version URLs, the
      previous version and Recommendation and the copyright start, in the
      order `run` sets them. */
  function Prepared(i: Input, publish: DateInfo): Input
  {
    Defaulted(i)
      .(thisVersion := ThisVersion(i, publish), latestVersion := LatestVersion(i))
      .(prevVersion := Some(PrevVersion(i)))
      .(prevRecURI := PrevRecURI(i))
      .(copyrightStart := CopyrightStart(i, publish.year))
  }

  /** The author-settable fields after `run`: the above, and the RDF class
      of the status; every other field is left as the author set it. */
  function Configured(i: Input, publish: DateInfo): Input
  {
    Prepared(i, publish).(rdfStatus := RdfStatus(i))
  }

  // ---------------------------------------------------------------------
  // The keys `run` adds to the configuration, grouped by the part of `run`
  // that sets them

  /** Lines 207-230: what the status says about the document. */
  datatype StatusKeys = StatusKeys(
    isCCBY: bool,
    isCGBG: bool,
    isCGFinal: bool,
    title: string,
    publishYear: int,
    isNoTrack: bool,
    isRecTrack: bool,
    anOrA: string,
    isTagFinding: bool,
    maturity: Option<string>)

  function StatusKeysOf(i: Input, docTitle: string, publish: DateInfo): StatusKeys
  {
    StatusKeys(IsCCBY(i), IsCGBG(i.specStatus), IsCGFinal(i.specStatus), Title(docTitle), publish.year,
               IsNoTrack(i.specStatus), IsRecTrack(i), AnOrA(i.specStatus), IsTagFinding(i.specStatus),
               Maturity(i.specStatus))
  }

  /** Lines 273-279: whether the lists have more than one entry. */
  datatype ListKeys = ListKeys(multipleEditors: bool, multipleAuthors: bool, multipleAlternates: bool)

  function ListKeysOf(i: Input): ListKeys
  {
    ListKeys(|i.editors| > 1, |i.authors| > 1, |i.alternateFormats| > 1)
  }

  /** Lines 290-311: the names of the status and the tests the templates make. */
  datatype NameKeys = NameKeys(
    longStatus: Option<string>,
    textStatus: Option<string>,
    showThisVersion: bool,
    showPreviousVersion: bool,
    notYetRec: bool,
    isRec: bool,
    notRec: bool,
    isUnofficial: bool,
    prependW3C: bool,
    isED: bool,
    isLC: bool,
    isCR: bool,
    isPR: bool,
    isMO: bool,
    isIGNote: bool,
    dashDate: string)

  /** `long` and `text` are the module's long-name table, as `run` has
      completed it, and its short-name table. */
  function NameKeysOf(i: Input, long: map<string, string>, text: map<string, string>, publish: DateInfo): NameKeys
  {
    var s := i.specStatus;
    NameKeys(Lookup(long, s), Lookup(text, s), ShowThisVersion(s), ShowPreviousVersion(i),
             NotYetRec(i), IsRec(i), s != Some("REC"), s == Some("unofficial"), s != Some("unofficial"),
             s == Some("ED"), IsLC(s), s == Some("CR"), s == Some("PR"), s == Some("MO"), s == Some("IG-NOTE"),
             publish.dashed)
  }

  /** Lines 337-362: the status section and the groups behind the document. */
  datatype SectionKeys = SectionKeys(
    sotdCustomParagraph: Option<string>,
    multipleWGs: bool,
    wgHTML: string,
    wgPatentHTML: Option<string>,
    recNotExpected: bool)

  /** `joinAnd` is the helper that joins links into an English list; the
      patent links are only made when `wg` is an array. */
  function SectionKeysOf(i: Input, sotd: Option<string>, joinAnd: seq<string> -> string): SectionKeys
    requires GroupsIndexable(i)
  {
    if i.wg.Several? then
      SectionKeys(sotd, MultipleWGs(i), joinAnd(GroupLinks(i.wg.items, i.wgURI)),
                  Some(Join(PatentLinks(i.wg.items, i.wgPatentURI), ", ")), RecNotExpected(i))
    else
      SectionKeys(sotd, false, WgHtml(i), None, RecNotExpected(i))
  }

  /** The long-name table after the fill loop: every entry of `text` whose
      long name is missing or empty takes its short name. */
  function Filled(long: map<string, string>, text: map<string, string>): map<string, string>
  {
    map k | k in long.Keys + text.Keys ::
      if k in text && !(k in long && long[k] != "") then text[k] else long[k]
  }

  predicate MultipleWGs(i: Input)
  {
    i.wg.Several? && |i.wg.items| > 1
  }

  /** The group link for one group (`wg` not an array). */
  function WgHtml(i: Input): string
  {
    GroupLink(GroupText(i.wg), GroupText(i.wgURI))
  }

  function GroupLink(group: string, uri: string): string
  {
    "<a href='" + uri + "'>" + group + "</a>"
  }

  /** `f[k]` for a set field: an array's entry or a string's character,
      undefined past the end. Indexing an undefined field throws. */
  function ItemAt(f: GroupField, k: nat): string
    requires !f.Unset?
  {
    match f
    case Single(s) => if k < |s| then [s[k]] else "undefined"
    case Several(xs) => if k < |xs| then xs[k] else "undefined"
  }

  /** A non-empty array `wg` indexes `wgURI` and `wgPatentURI`, which must
      then be set; an empty one indexes nothing. */
  predicate GroupsIndexable(i: Input)
  {
    i.wg.Several? && |i.wg.items| > 0 ==> !i.wgURI.Unset? && !i.wgPatentURI.Unset?
  }

  /** The link to every group's page, in order: what the callback given to
      `joinAnd` makes of each group. */
  function GroupLinks(groups: seq<string>, uris: GroupField): seq<string>
    requires |groups| > 0 ==> !uris.Unset?
  {
    seq(|groups|, k requires 0 <= k < |groups| => GroupLink(groups[k], ItemAt(uris, k)))
  }

  function PatentLink(group: string, uri: string): string
  {
    "<a href='" + uri + "' rel='disclosure'>" + group + "</a>"
  }

  /** The patent disclosure link of every group, in order. */
  function PatentLinks(groups: seq<string>, uris: GroupField): seq<string>
    requires |groups| > 0 ==> !uris.Unset?
  {
    seq(|groups|, k requires 0 <= k < |groups| => PatentLink(groups[k], ItemAt(uris, k)))
  }

  // ---------------------------------------------------------------------
  // The ordered diagnostics

  /** One error per person without a name. */
  function NameErrors(people: seq<Person>): seq<Diagnostic>
  {
    if |people| == 0 then []
    else Emit(!Truthy(people[0].name), Error, UnnamedPerson) + NameErrors(people[1..])
  }

  /** One error per alternate format without a uri or a label. */
  function AlternateErrors(alts: seq<Alternate>): seq<Diagnostic>
  {
    if |alts| == 0 then []
    else Emit(!Truthy(alts[0].uri) || !Truthy(alts[0].text), Error, IncompleteAlternate) +
         AlternateErrors(alts[1..])
  }

  function PreviousVersionDiagnostics(i: Input): seq<Diagnostic>
  {
    if i.previousPublishDate.Some? then
      Emit(!Truthy(i.previousMaturity) && !IsTagFinding(i.specStatus), Error, PreviousMaturityMissing)
    else
      Emit(NotFirstDraft(i.specStatus) && !i.noRecTrack && !IsNoTrack(i.specStatus), Error, NoPreviousVersion)
  }

  /** The checks of the two required fields and of the Editor's Draft link. */
  function SettingDiagnostics(i: Input): seq<Diagnostic>
  {
    Emit(!Truthy(i.specStatus), Error, MissingSpecStatus)
    + Emit(!IsCGBG(i.specStatus) && !Truthy(i.shortName), Error, MissingShortName)
    + Emit(!Truthy(i.edDraftURI) && i.specStatus == Some("ED"), Warn, EdDraftURIMissing)
  }

  /** The checks of the configuration fields, before the people. */
  function FieldDiagnostics(i: Input): seq<Diagnostic>
  {
    SettingDiagnostics(i) + PreviousVersionDiagnostics(i)
  }

  /** The editor count, then the checks of every editor, author and alternate format. */
  function ListDiagnostics(i: Input): seq<Diagnostic>
  {
    Emit(|i.editors| == 0, Error, NoEditor)
    + (NameErrors(i.editors) + NameErrors(i.authors))
    + AlternateErrors(i.alternateFormats)
  }

  /** The end dates that last-call, candidate and proposed recommendations must give. */
  function DeadlineDiagnostics(i: Input): seq<Diagnostic>
  {
    var s := i.specStatus;
    Emit(IsLC(s) && !Truthy(i.lcEnd), Error, LcEndMissing)
    + Emit(s == Some("PR") && !Truthy(i.lcEnd), Error, PrLcEndMissing)
    + Emit(s == Some("CR") && !Truthy(i.crEnd), Error, CrEndMissing)
    + Emit(s == Some("PR") && !Truthy(i.prEnd), Error, PrEndMissing)
  }

  /** The links that Interest Group Notes and the later Recommendation
      stages must give, and the status section of TAG findings. */
  function LinkDiagnostics(i: Input, sotd: Option<string>): seq<Diagnostic>
  {
    var s := i.specStatus;
    Emit(s == Some("IG-NOTE") && !Truthy(i.charterDisclosureURI), Error, CharterDisclosureMissing)
    + Emit(!Truthy(i.implementationReportURI) && (s == Some("CR") || s == Some("PR") || IsRec(i)),
           Error, ImplementationReportMissing)
    + Emit(IsTagFinding(s) && !Truthy(sotd), Error, TagFindingSotd)
  }

  /** The checks that depend on the status and on the status section. */
  function StatusDiagnostics(i: Input, sotd: Option<string>): seq<Diagnostic>
  {
    var s := i.specStatus;
    Emit((IsCGBG(s) || !IsNoTrack(s) || IsTagFinding(s)) && sotd.None?, Error, SotdRequired)
    + DeadlineDiagnostics(i)
    + LinkDiagnostics(i, sotd)
  }

  /** Everything `run` publishes, in order; `sotd` is the content of the
      document's status section if it has one. */
  function Diagnostics(i: Input, sotd: Option<string>): seq<Diagnostic>
  {
    FieldDiagnostics(i) + ListDiagnostics(i) + StatusDiagnostics(i, sotd)
  }

  predicate IsFieldMessage(m: Message)
  {
    m.MissingSpecStatus? || m.MissingShortName? || m.EdDraftURIMissing? || m.PreviousMaturityMissing? ||
    m.NoPreviousVersion?
  }

  predicate IsListMessage(m: Message)
  {
    m.NoEditor? || m.UnnamedPerson? || m.IncompleteAlternate?
  }

  predicate IsDeadlineMessage(m: Message)
  {
    m.LcEndMissing? || m.PrLcEndMissing? || m.CrEndMissing? || m.PrEndMissing?
  }

  predicate IsLinkMessage(m: Message)
  {
    m.CharterDisclosureMissing? || m.ImplementationReportMissing? || m.TagFindingSotd?
  }

  predicate HasUnnamed(people: seq<Person>)
  {
    exists p :: p in people && !Truthy(p.name)
  }

  predicate HasIncomplete(alts: seq<Alternate>)
  {
    exists a :: a in alts && (!Truthy(a.uri) || !Truthy(a.text))
  }

  /** When each message is raised, message by message: the rule table the
      ordered list must agree with. */
  predicate Raised(i: Input, sotd: Option<string>, d: Diagnostic)
  {
    var s := i.specStatus;
    match d.message
    case MissingSpecStatus => d.severity == Error && !Truthy(s)
    case MissingShortName => d.severity == Error && !IsCGBG(s) && !Truthy(i.shortName)
    case EdDraftURIMissing => d.severity == Warn && s == Some("ED") && !Truthy(i.edDraftURI)
    case PreviousMaturityMissing =>
      d.severity == Error && i.previousPublishDate.Some? && !Truthy(i.previousMaturity) && !IsTagFinding(s)
    case NoPreviousVersion =>
      d.severity == Error && i.previousPublishDate.None? && NotFirstDraft(s) && !i.noRecTrack && !IsNoTrack(s)
    case NoEditor => d.severity == Error && |i.editors| == 0
    case UnnamedPerson => d.severity == Error && (HasUnnamed(i.editors) || HasUnnamed(i.authors))
    case IncompleteAlternate => d.severity == Error && HasIncomplete(i.alternateFormats)
    case SotdRequired => d.severity == Error && sotd.None? && (IsCGBG(s) || !IsNoTrack(s) || IsTagFinding(s))
    case LcEndMissing => d.severity == Error && IsLC(s) && !Truthy(i.lcEnd)
    case PrLcEndMissing => d.severity == Error && s == Some("PR") && !Truthy(i.lcEnd)
    case CrEndMissing => d.severity == Error && s == Some("CR") && !Truthy(i.crEnd)
    case PrEndMissing => d.severity == Error && s == Some("PR") && !Truthy(i.prEnd)
    case CharterDisclosureMissing => d.severity == Error && s == Some("IG-NOTE") && !Truthy(i.charterDisclosureURI)
    case ImplementationReportMissing =>
      d.severity == Error && !Truthy(i.implementationReportURI) && (s == Some("CR") || s == Some("PR") || IsRec(i))
    case TagFindingSotd => d.severity == Error && IsTagFinding(s) && !Truthy(sotd)
  }
}
