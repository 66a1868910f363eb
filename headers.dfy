/** The header module's `run` as it is written: it updates the configuration
    object field by field, fills the module's long-status table in place and
    publishes its diagnostics on the message bus one at a time. Each step is
    proved to leave exactly the values module Derivation specifies. Line
    numbers in the comments refer to js/w3c/headers.js. */
module Headers {
  import opened JsValues
  import opened StatusTables
  import opened People
  import opened Derivation
  import opened DerivationFacts

  /** The message bus `run` reports on. */
  class MessageBus {
    var published: seq<Diagnostic>

    constructor()
      ensures published == []
    {
      published := [];
    }

    /** `msg.pub(severity, text)` */
    method Pub(severity: Severity, m: Message)
      modifies this
      ensures published == old(published) + [Diagnostic(severity, m)]
    {
      published := published + [Diagnostic(severity, m)];
    }

    /** `if (condition) msg.pub(severity, text)` */
    method Report(condition: bool, severity: Severity, m: Message)
      modifies this
      ensures published == old(published) + Emit(condition, severity, m)
    {
      if condition {
        Pub(severity, m);
      }
    }
  }

  /** The configuration object. The keys the author sets are one record,
      which `run` rewrites as it fills in defaults; the keys `run` adds are
      grouped by the part of `run` that sets them, each undefined (`None`)
      until that part has run. */
  class Conf {
    var settings: Input
    var status: Option<StatusKeys>
    var lists: Option<ListKeys>
    var names: Option<NameKeys>
    var section: Option<SectionKeys>

    /** A configuration as the author wrote it, before `run`. */
    constructor(i: Input)
      ensures settings == i
      ensures status == None && lists == None && names == None && section == None
    {
      settings := i;
      status, lists, names, section := None, None, None, None;
    }
  }

  /** `peopCheck`, applied to every person of a list. */
  method CheckNames(people: seq<Person>, msg: MessageBus)
    modifies msg
    ensures msg.published == old(msg.published) + NameErrors(people)
  {
    var k := 0;
    while k < |people|
      invariant 0 <= k <= |people|
      invariant old(msg.published) + NameErrors(people) == msg.published + NameErrors(people[k..])
    {
      assert people[k..][1..] == people[k + 1..];
      ghost var before := msg.published;
      if !Truthy(people[k].name) {
        msg.Pub(Error, UnnamedPerson);
      }
      assert msg.published == before + Emit(!Truthy(people[k].name), Error, UnnamedPerson);
      k := k + 1;
    }
    assert people[k..] == [];
  }

  /** The check of every alternate format. */
  method CheckAlternates(alts: seq<Alternate>, msg: MessageBus)
    modifies msg
    ensures msg.published == old(msg.published) + AlternateErrors(alts)
  {
    var k := 0;
    while k < |alts|
      invariant 0 <= k <= |alts|
      invariant old(msg.published) + AlternateErrors(alts) == msg.published + AlternateErrors(alts[k..])
    {
      assert alts[k..][1..] == alts[k + 1..];
      ghost var before := msg.published;
      if !Truthy(alts[k].uri) || !Truthy(alts[k].text) {
        msg.Pub(Error, IncompleteAlternate);
      }
      assert msg.published == before + Emit(!Truthy(alts[k].uri) || !Truthy(alts[k].text), Error, IncompleteAlternate);
      k := k + 1;
    }
    assert alts[k..] == [];
  }

  /** The loop that collects one patent disclosure link per group, joined with ", ". */
  method PatentLinksHtml(groups: seq<string>, uris: GroupField) returns (html: string)
    requires |groups| > 0 ==> !uris.Unset?
    ensures html == Join(PatentLinks(groups, uris), ", ")
  {
    var pats: seq<string> := [];
    var k := 0;
    ghost var links := PatentLinks(groups, uris);
    while k < |groups|
      invariant 0 <= k <= |groups|
      invariant pats == links[..k]
    {
      assert links[..k + 1] == links[..k] + [links[k]];
      pats := pats + ["<a href='" + ItemAt(uris, k) + "' rel='disclosure'>" + groups[k] + "</a>"];
      k := k + 1;
    }
    assert links[..k] == links;
    html := Join(pats, ", ");
  }

  lemma AppendThree<T>(p: seq<T>, a: seq<T>, b: seq<T>, c: seq<T>)
    ensures p + a + b + c == p + (a + b + c)
  {
    Associative(p, a, b);
    Associative(p, a + b, c);
  }

  lemma AppendFour<T>(p: seq<T>, a: seq<T>, b: seq<T>, c: seq<T>, d: seq<T>)
    ensures p + a + b + c + d == p + (a + b + c + d)
  {
    AppendThree(p, a, b, c);
    Associative(p, a + b + c, d);
  }

  // ---------------------------------------------------------------------
  // The parts of `run`, in the order of the source. Each takes the
  // configuration as the author wrote it (`i`) and requires that the keys it
  // reads hold the values the earlier parts leave.

  /** Lines 198-204: the RDFa version and the licence default. */
  method SetDefaults(conf: Conf)
    modifies conf`settings
    ensures conf.settings ==
      old(conf.settings).(doRDFa := DoRdfa(old(conf.settings).doRDFa), license := Some(License(old(conf.settings))))
  {
    if conf.settings.doRDFa != RdfaOff {
      if conf.settings.doRDFa == RdfaUnset {
        conf.settings := conf.settings.(doRDFa := RdfaOn("1.1"));
      }
    }
    if !Truthy(conf.settings.license) {
      conf.settings := conf.settings.(license := Some("w3c"));
    }
  }

  /** Line 213: the subtitle default. */
  method SetSubtitle(conf: Conf)
    modifies conf`settings
    ensures conf.settings == old(conf.settings).(subtitle := Some(OrElse(old(conf.settings).subtitle, "")))
  {
    if !Truthy(conf.settings.subtitle) {
      conf.settings := conf.settings.(subtitle := Some(""));
    }
  }

  /** Lines 225-228: the Editor's Draft link default, with a warning for an
      Editor's Draft that has none. */
  method SetEdDraftURI(conf: Conf, msg: MessageBus)
    modifies conf`settings, msg
    ensures conf.settings == old(conf.settings).(edDraftURI := Some(EdDraftURI(old(conf.settings))))
    ensures msg.published == old(msg.published) +
      Emit(!Truthy(old(conf.settings).edDraftURI) && old(conf.settings).specStatus == Some("ED"),
           Warn, EdDraftURIMissing)
  {
    if !Truthy(conf.settings.edDraftURI) {
      conf.settings := conf.settings.(edDraftURI := Some(""));
      if conf.settings.specStatus == Some("ED") {
        msg.Pub(Warn, EdDraftURIMissing);
      }
    }
  }

  /** Lines 207-230: the flags and the maturity the status implies, assigned
      in the source's order from the settings once the licence default is in
      (`s`); the author's own settings are `i`. */
  method StatusKeysFor(ghost i: Input, s: Input, isCGBG: bool, docTitle: string, publish: DateInfo)
    returns (keys: StatusKeys)
    requires s.specStatus == i.specStatus && s.noRecTrack == i.noRecTrack
    requires s.license == Some(License(i)) && s.wgPatentURI == i.wgPatentURI
    requires isCGBG == IsCGBG(i.specStatus)
    ensures keys == StatusKeysOf(i, docTitle, publish)
  {
    var status := s.specStatus;
    var isCCBY := s.license == Some("cc-by") && s.wgPatentURI == Single(CcByPatentPolicy);
    var isCGFinal := isCGBG && EndsWith(status.value, "G-FINAL");
    var title := if docTitle != "" then docTitle else "No Title";
    var isNoTrack := InList(status, NoTrackStatus);
    var isRecTrack := if s.noRecTrack then false else InList(status, RecTrackStatus);
    var anOrA := if InList(status, PrecededByAn) then "an" else "a";
    var isTagFinding := status == Some("finding") || status == Some("draft-finding");
    var maturity := if Truthy(Lookup(Status2Maturity, status)) then Lookup(Status2Maturity, status) else status;
    assert maturity == Maturity(i.specStatus) && isCGFinal == IsCGFinal(i.specStatus);
    keys := StatusKeys(isCCBY, isCGBG, isCGFinal, title, publish.year, isNoTrack, isRecTrack, anOrA, isTagFinding,
                       maturity);
  }

  /** Lines 198-230: the defaults, the status flags, the maturity and the
      checks of the required fields. */
  method DeriveStatus(conf: Conf, docTitle: string, publish: DateInfo, msg: MessageBus)
    modifies conf`settings, conf`status, msg
    ensures conf.settings == Defaulted(old(conf.settings))
    ensures conf.status == Some(StatusKeysOf(old(conf.settings), docTitle, publish))
    ensures msg.published == old(msg.published) + SettingDiagnostics(old(conf.settings))
  {
    ghost var i := conf.settings;
    ghost var p0 := msg.published;
    SetDefaults(conf);
    var isCGBG := InList(conf.settings.specStatus, Cgbg);
    msg.Report(!Truthy(conf.settings.specStatus), Error, MissingSpecStatus);
    msg.Report(!isCGBG && !Truthy(conf.settings.shortName), Error, MissingShortName);
    SetSubtitle(conf);
    SetEdDraftURI(conf, msg);
    var keys := StatusKeysFor(i, conf.settings, isCGBG, docTitle, publish);
    conf.status := Some(keys);
    AppendThree(p0, Emit(!Truthy(i.specStatus), Error, MissingSpecStatus),
                Emit(!IsCGBG(i.specStatus) && !Truthy(i.shortName), Error, MissingShortName),
                Emit(!Truthy(i.edDraftURI) && i.specStatus == Some("ED"), Warn, EdDraftURIMissing));
  }

  /** Lines 231-243: this version's and the latest version's URLs. */
  method SetVersionURLs(conf: Conf, ghost i: Input, ghost docTitle: string, publish: DateInfo)
    requires conf.settings == Defaulted(i)
    requires conf.status == Some(StatusKeysOf(i, docTitle, publish))
    modifies conf`settings
    ensures conf.settings == Defaulted(i).(thisVersion := ThisVersion(i, publish), latestVersion := LatestVersion(i))
  {
    var keys := conf.status.value;
    var status := conf.settings.specStatus;
    var shortName := conf.settings.shortName;
    var publishSpace := "TR";
    if status == Some("Member-SUBM") {
      publishSpace := "Submission";
    } else if status == Some("Team-SUBM") {
      publishSpace := "TeamSubmission";
    }
    if !keys.isCGBG {
      conf.settings := conf.settings.(thisVersion :=
        Some("http://www.w3.org/" + publishSpace + "/" + IntToDecimal(publish.year) + "/" +
             Str(keys.maturity) + "-" + Str(shortName) + "-" + publish.compact + "/"));
    }
    if status == Some("ED") {
      conf.settings := conf.settings.(thisVersion := conf.settings.edDraftURI);
    }
    if !keys.isCGBG {
      conf.settings := conf.settings.(latestVersion := Some("http://www.w3.org/" + publishSpace + "/" + Str(shortName) + "/"));
    }
    if keys.isTagFinding {
      conf.settings := conf.settings.(latestVersion := Some("http://www.w3.org/2001/tag/doc/" + Str(shortName)));
      conf.settings := conf.settings.(thisVersion := Some(Str(conf.settings.latestVersion) + "-" + publish.dashed));
    }
  }

  /** Lines 244-266: the previous version, dated after the previous
      publication when there is one, and its two checks. */
  method SetPrevVersion(conf: Conf, ghost i: Input, ghost docTitle: string, publish: DateInfo, msg: MessageBus)
    requires conf.settings.previousPublishDate == i.previousPublishDate
    requires conf.settings.previousMaturity == i.previousMaturity && conf.settings.shortName == i.shortName
    requires conf.settings.prevVersion == i.prevVersion && conf.settings.specStatus == i.specStatus
    requires conf.settings.noRecTrack == i.noRecTrack && conf.settings.latestVersion == LatestVersion(i)
    requires conf.status == Some(StatusKeysOf(i, docTitle, publish))
    modifies conf`settings, msg
    ensures conf.settings == old(conf.settings).(prevVersion := Some(PrevVersion(i)))
    ensures msg.published == old(msg.published) + PreviousVersionDiagnostics(i)
  {
    var keys := conf.status.value;
    var s := conf.settings;
    if s.previousPublishDate.Some? {
      msg.Report(!Truthy(s.previousMaturity) && !keys.isTagFinding, Error, PreviousMaturityMissing);
      var pmat := Maturity(s.previousMaturity);
      var d := s.previousPublishDate.value;
      if keys.isTagFinding {
        conf.settings := conf.settings.(prevVersion := Some(Str(s.latestVersion) + "-" + d.dashed));
      } else if keys.isCGBG {
        conf.settings := conf.settings.(prevVersion := Some(OrElse(s.prevVersion, "")));
      } else {
        conf.settings := conf.settings.(prevVersion :=
          Some("http://www.w3.org/TR/" + IntToDecimal(d.year) + "/" + Str(pmat) + "-" + Str(s.shortName) + "-" +
               d.compact + "/"));
      }
    } else {
      msg.Report(NotFirstDraft(s.specStatus) && !s.noRecTrack && !keys.isNoTrack, Error, NoPreviousVersion);
      if !Truthy(s.prevVersion) {
        conf.settings := conf.settings.(prevVersion := Some(""));
      }
    }
  }

  /** Line 267: the previous Recommendation's URL, from its short name. */
  method SetPrevRecURI(conf: Conf, ghost i: Input)
    requires conf.settings.prevRecShortname == i.prevRecShortname && conf.settings.prevRecURI == i.prevRecURI
    modifies conf`settings
    ensures conf.settings == old(conf.settings).(prevRecURI := PrevRecURI(i))
  {
    var s := conf.settings;
    if Truthy(s.prevRecShortname) && !Truthy(s.prevRecURI) {
      conf.settings := conf.settings.(prevRecURI := Some("http://www.w3.org/TR/" + s.prevRecShortname.value));
    }
  }

  /** Lines 268-279: the editors, authors and alternate formats. */
  method CheckLists(conf: Conf, ghost i: Input, msg: MessageBus)
    requires conf.settings.editors == i.editors && conf.settings.authors == i.authors
    requires conf.settings.alternateFormats == i.alternateFormats
    modifies conf`lists, msg
    ensures conf.lists == Some(ListKeysOf(i))
    ensures msg.published == old(msg.published) + ListDiagnostics(i)
  {
    ghost var p0 := msg.published;
    var s := conf.settings;
    msg.Report(|s.editors| == 0, Error, NoEditor);
    CheckNames(s.editors, msg);
    CheckNames(s.authors, msg);
    CheckAlternates(s.alternateFormats, msg);
    conf.lists := Some(ListKeys(|s.editors| > 1, |s.authors| > 1, |s.alternateFormats| > 1));
    ghost var noEditor := Emit(|i.editors| == 0, Error, NoEditor);
    AppendFour(p0, noEditor, NameErrors(i.editors), NameErrors(i.authors), AlternateErrors(i.alternateFormats));
    Associative(noEditor, NameErrors(i.editors), NameErrors(i.authors));
  }

  /** Line 285: a copyright start equal to the publication year is dropped. */
  method SetCopyrightStart(conf: Conf, ghost i: Input, ghost docTitle: string, publish: DateInfo)
    requires conf.settings.copyrightStart == i.copyrightStart
    requires conf.status == Some(StatusKeysOf(i, docTitle, publish))
    modifies conf`settings
    ensures conf.settings == old(conf.settings).(copyrightStart := CopyrightStart(i, publish.year))
  {
    var start := conf.settings.copyrightStart;
    if Truthy(start) && start.value == IntToDecimal(conf.status.value.publishYear) {
      conf.settings := conf.settings.(copyrightStart := Some(""));
    }
  }

  /** Lines 292-294: the RDF class of the status, when it has one. */
  method SetRdfStatus(conf: Conf, ghost i: Input)
    requires conf.settings.specStatus == i.specStatus && conf.settings.rdfStatus == i.rdfStatus
    modifies conf`settings
    ensures conf.settings == old(conf.settings).(rdfStatus := RdfStatus(i))
  {
    var r := Lookup(Status2Rdf, conf.settings.specStatus);
    if Truthy(r) {
      conf.settings := conf.settings.(rdfStatus := r);
    }
  }

  /** Lines 290-311: the names of the status and the tests the templates
      make, from the status keys set earlier. */
  method NameKeysFor(ghost i: Input, status: Option<string>, previousPublishDate: Option<DateInfo>, keys: StatusKeys,
                     long: map<string, string>, text: map<string, string>, publish: DateInfo)
    returns (names: NameKeys)
    requires status == i.specStatus && previousPublishDate == i.previousPublishDate
    requires keys.isNoTrack == IsNoTrack(i.specStatus) && keys.isTagFinding == IsTagFinding(i.specStatus)
    requires keys.isRecTrack == IsRecTrack(i)
    ensures names == NameKeysOf(i, long, text, publish)
  {
    var longStatus := Lookup(long, status);
    var textStatus := Lookup(text, status);
    var showThisVersion := !keys.isNoTrack || keys.isTagFinding;
    var showPreviousVersion := NotFirstDraft(status) && !keys.isNoTrack;
    if keys.isTagFinding {
      showPreviousVersion := if previousPublishDate.Some? then true else false;
    }
    var notYetRec := keys.isRecTrack && status != Some("REC");
    var isRec := keys.isRecTrack && status == Some("REC");
    var notRec := status != Some("REC");
    var isUnofficial := status == Some("unofficial");
    var prependW3C := !isUnofficial;
    var isED := status == Some("ED");
    var isLC := IsLC(status);
    var isCR := status == Some("CR");
    var isPR := status == Some("PR");
    var isMO := status == Some("MO");
    var isIGNote := status == Some("IG-NOTE");
    names := NameKeys(longStatus, textStatus, showThisVersion, showPreviousVersion, notYetRec, isRec, notRec,
                      isUnofficial, prependW3C, isED, isLC, isCR, isPR, isMO, isIGNote, publish.dashed);
  }

  /** Lines 198-285: the configuration proper, up to the copyright start. */
  method Configure(conf: Conf, docTitle: string, publish: DateInfo, msg: MessageBus)
    modifies conf`settings, conf`status, conf`lists, msg
    ensures conf.settings == Prepared(old(conf.settings), publish)
    ensures conf.status == Some(StatusKeysOf(old(conf.settings), docTitle, publish))
    ensures conf.lists == Some(ListKeysOf(old(conf.settings)))
    ensures msg.published == old(msg.published) + (FieldDiagnostics(old(conf.settings)) + ListDiagnostics(old(conf.settings)))
  {
    ghost var i := conf.settings;
    ghost var p0 := msg.published;
    DeriveStatus(conf, docTitle, publish, msg);
    SetVersionURLs(conf, i, docTitle, publish);
    SetPrevVersion(conf, i, docTitle, publish, msg);
    SetPrevRecURI(conf, i);
    CheckLists(conf, i, msg);
    SetCopyrightStart(conf, i, docTitle, publish);
    AppendThree(p0, SettingDiagnostics(i), PreviousVersionDiagnostics(i), ListDiagnostics(i));
  }

  /** Lines 290-311: the names and the RDF class of the status, and the
      tests the templates make; `long` is the long-name table as the fill
      loop has left it. */
  method SetStatusNames(conf: Conf, ghost i: Input, ghost docTitle: string, long: map<string, string>,
                        text: map<string, string>, publish: DateInfo)
    requires conf.settings == Prepared(i, publish)
    requires conf.status == Some(StatusKeysOf(i, docTitle, publish))
    modifies conf`settings, conf`names
    ensures conf.settings == Configured(i, publish)
    ensures conf.names == Some(NameKeysOf(i, long, text, publish))
  {
    var names := NameKeysFor(i, conf.settings.specStatus, conf.settings.previousPublishDate, conf.status.value,
                             long, text, publish);
    conf.names := Some(names);
    SetRdfStatus(conf, i);
  }

  /** Lines 340-354: the group links and the patent disclosure links;
      `joinAnd` is the helper that joins the links into a sentence. */
  method GroupsHtml(s: Input, joinAnd: seq<string> -> string) returns (multipleWGs: bool, wgHTML: string,
                                                                     wgPatentHTML: Option<string>)
    requires GroupsIndexable(s)
    ensures multipleWGs == MultipleWGs(s)
    ensures wgHTML == if s.wg.Several? then joinAnd(GroupLinks(s.wg.items, s.wgURI)) else WgHtml(s)
    ensures wgPatentHTML == if s.wg.Several? then Some(Join(PatentLinks(s.wg.items, s.wgPatentURI), ", "))
                            else None
  {
    if s.wg.Several? {
      multipleWGs := |s.wg.items| > 1;
      wgHTML := joinAnd(GroupLinks(s.wg.items, s.wgURI));
      var html := PatentLinksHtml(s.wg.items, s.wgPatentURI);
      wgPatentHTML := Some(html);
    } else {
      multipleWGs := false;
      wgHTML := "<a href='" + GroupText(s.wgURI) + "'>" + GroupText(s.wg) + "</a>";
      wgPatentHTML := None;
    }
  }

  /** Lines 337-364: the keys of the status section, which the source sets
      between its checks and which none of them but the last reads. */
  method SectionKeysFor(ghost i: Input, s: Input, isRecTrack: bool, maturity: Option<string>, sotd: Option<string>,
                        joinAnd: seq<string> -> string)
    returns (section: SectionKeys)
    requires s.specStatus == i.specStatus && s.wg == i.wg && s.wgURI == i.wgURI && s.wgPatentURI == i.wgPatentURI
    requires GroupsIndexable(i)
    requires isRecTrack == IsRecTrack(i) && maturity == Maturity(i.specStatus)
    ensures section == SectionKeysOf(i, sotd, joinAnd)
  {
    var multipleWGs, wgHTML, wgPatentHTML := GroupsHtml(s, joinAnd);
    var recNotExpected := !isRecTrack && maturity == Some("WD") && s.specStatus != Some("FPWD-NOTE");
    section := SectionKeys(sotd, multipleWGs, wgHTML, wgPatentHTML, recNotExpected);
  }

  /** Lines 356-362: the end dates of the review periods. */
  method CheckDeadlines(ghost i: Input, s: Input, isLC: bool, msg: MessageBus)
    requires s.specStatus == i.specStatus && s.lcEnd == i.lcEnd && s.crEnd == i.crEnd && s.prEnd == i.prEnd
    requires isLC == IsLC(i.specStatus)
    modifies msg
    ensures msg.published == old(msg.published) + DeadlineDiagnostics(i)
  {
    ghost var p0 := msg.published;
    msg.Report(isLC && !Truthy(s.lcEnd), Error, LcEndMissing);
    msg.Report(s.specStatus == Some("PR") && !Truthy(s.lcEnd), Error, PrLcEndMissing);
    msg.Report(s.specStatus == Some("CR") && !Truthy(s.crEnd), Error, CrEndMissing);
    msg.Report(s.specStatus == Some("PR") && !Truthy(s.prEnd), Error, PrEndMissing);
    AppendFour(p0, Emit(IsLC(i.specStatus) && !Truthy(i.lcEnd), Error, LcEndMissing),
               Emit(i.specStatus == Some("PR") && !Truthy(i.lcEnd), Error, PrLcEndMissing),
               Emit(i.specStatus == Some("CR") && !Truthy(i.crEnd), Error, CrEndMissing),
               Emit(i.specStatus == Some("PR") && !Truthy(i.prEnd), Error, PrEndMissing));
  }

  /** Lines 365-375: the links Interest Group Notes and the later
      Recommendation stages must give, and the status section of a TAG
      finding. */
  method CheckLinks(ghost i: Input, s: Input, flags: NameKeys, isTagFinding: bool, sotdCustomParagraph: Option<string>,
                    msg: MessageBus)
    requires s.charterDisclosureURI == i.charterDisclosureURI
    requires s.implementationReportURI == i.implementationReportURI
    requires flags.isIGNote == (i.specStatus == Some("IG-NOTE"))
    requires flags.isCR == (i.specStatus == Some("CR")) && flags.isPR == (i.specStatus == Some("PR"))
    requires flags.isRec == IsRec(i) && isTagFinding == IsTagFinding(i.specStatus)
    modifies msg
    ensures msg.published == old(msg.published) + LinkDiagnostics(i, sotdCustomParagraph)
  {
    ghost var p0 := msg.published;
    msg.Report(flags.isIGNote && !Truthy(s.charterDisclosureURI), Error, CharterDisclosureMissing);
    msg.Report(!Truthy(s.implementationReportURI) && (flags.isCR || flags.isPR || flags.isRec),
               Error, ImplementationReportMissing);
    msg.Report(isTagFinding && !Truthy(sotdCustomParagraph), Error, TagFindingSotd);
    AppendThree(p0, Emit(i.specStatus == Some("IG-NOTE") && !Truthy(i.charterDisclosureURI),
                         Error, CharterDisclosureMissing),
                Emit(!Truthy(i.implementationReportURI) &&
                     (i.specStatus == Some("CR") || i.specStatus == Some("PR") || IsRec(i)),
                     Error, ImplementationReportMissing),
                Emit(IsTagFinding(i.specStatus) && !Truthy(sotdCustomParagraph), Error, TagFindingSotd));
  }

  /** Lines 334-375, the checks: the status section a document needs, the
      review periods and the links; the TAG finding check reads the status
      section's content, which is `sotd`. */
  method CheckStatusSection(conf: Conf, ghost i: Input, ghost docTitle: string, ghost long: map<string, string>,
                            ghost text: map<string, string>, publish: DateInfo, sotd: Option<string>, msg: MessageBus)
    requires conf.settings.specStatus == i.specStatus
    requires conf.settings.lcEnd == i.lcEnd && conf.settings.crEnd == i.crEnd && conf.settings.prEnd == i.prEnd
    requires conf.settings.charterDisclosureURI == i.charterDisclosureURI
    requires conf.settings.implementationReportURI == i.implementationReportURI
    requires conf.status == Some(StatusKeysOf(i, docTitle, publish))
    requires conf.names == Some(NameKeysOf(i, long, text, publish))
    modifies msg
    ensures msg.published == old(msg.published) + StatusDiagnostics(i, sotd)
  {
    ghost var p0 := msg.published;
    var keys := conf.status.value;
    var flags := conf.names.value;
    var s := conf.settings;
    msg.Report((keys.isCGBG || !keys.isNoTrack || keys.isTagFinding) && sotd.None?, Error, SotdRequired);
    CheckDeadlines(i, s, flags.isLC, msg);
    CheckLinks(i, s, flags, keys.isTagFinding, sotd, msg);
    AppendThree(p0, Emit((IsCGBG(i.specStatus) || !IsNoTrack(i.specStatus) || IsTagFinding(i.specStatus)) &&
                         sotd.None?, Error, SotdRequired),
                DeadlineDiagnostics(i), LinkDiagnostics(i, sotd));
  }

  /** Lines 337-364, the keys: the status section's content, the groups and
      whether a Recommendation is expected. */
  method SetSectionKeys(conf: Conf, ghost i: Input, ghost docTitle: string, publish: DateInfo, sotd: Option<string>,
                        joinAnd: seq<string> -> string)
    requires conf.settings.specStatus == i.specStatus && conf.settings.wg == i.wg
    requires conf.settings.wgURI == i.wgURI && conf.settings.wgPatentURI == i.wgPatentURI
    requires GroupsIndexable(i)
    requires conf.status == Some(StatusKeysOf(i, docTitle, publish))
    modifies conf`section
    ensures conf.section == Some(SectionKeysOf(i, sotd, joinAnd))
  {
    var keys := conf.status.value;
    var section := SectionKeysFor(i, conf.settings, keys.isRecTrack, keys.maturity, sotd, joinAnd);
    conf.section := Some(section);
  }

  /** Lines 290-375: everything `run` does once the long-name table is
      complete; the keys of the status section are set before its checks,
      which read none of them. */
  method Describe(conf: Conf, ghost i: Input, ghost docTitle: string, long: map<string, string>,
                  text: map<string, string>, publish: DateInfo, sotd: Option<string>, joinAnd: seq<string> -> string,
                  msg: MessageBus)
    requires conf.settings == Prepared(i, publish)
    requires conf.status == Some(StatusKeysOf(i, docTitle, publish))
    requires GroupsIndexable(i)
    modifies conf`settings, conf`names, conf`section, msg
    ensures conf.settings == Configured(i, publish)
    ensures conf.names == Some(NameKeysOf(i, long, text, publish))
    ensures conf.section == Some(SectionKeysOf(i, sotd, joinAnd))
    ensures msg.published == old(msg.published) + StatusDiagnostics(i, sotd)
  {
    SetStatusNames(conf, i, docTitle, long, text, publish);
    ConfiguredKeepsAuthorFields(i, publish);
    SetSectionKeys(conf, i, docTitle, publish, sotd, joinAnd);
    CheckStatusSection(conf, i, docTitle, long, text, publish, sotd, msg);
  }

  /** The module object: its long-status table, which `run` completes in place. */
  class HeadersModule {
    const status2text: map<string, string>
    var status2long: map<string, string>

    constructor()
      ensures status2text == Status2Text
      ensures status2long == Status2LongInitial
    {
      status2text := Status2Text;
      status2long := Status2LongInitial;
    }

    /** Lines 286-289: every status without a long name takes its short one. */
    method FillLongStatus()
      modifies this
      ensures status2long == Filled(old(status2long), status2text)
    {
      ghost var start := status2long;
      var remaining := status2text.Keys;
      while remaining != {}
        invariant remaining <= status2text.Keys
        invariant status2long.Keys == start.Keys + (status2text.Keys - remaining)
        invariant forall k :: k in status2long ==>
          status2long[k] == if k in status2text.Keys - remaining then Filled(start, status2text)[k] else start[k]
        decreases remaining
      {
        var k :| k in remaining;
        if !(k in status2long && status2long[k] != "") {
          status2long := status2long[k := status2text[k]];
        }
        remaining := remaining - {k};
      }
    }

    /** `run(conf, doc, cb, msg)` without the templates and the document
        edits: the document's title, the publication date and the content of
        its status section (`sotd`, undefined when there is none) are given
        as values, and `joinAnd` is the helper that joins links into a
        sentence. */
    method Run(conf: Conf, docTitle: string, publish: DateInfo, sotd: Option<string>,
               joinAnd: seq<string> -> string, msg: MessageBus)
      requires GroupsIndexable(conf.settings)
      modifies this, conf, msg
      ensures status2long == Filled(old(status2long), status2text)
      ensures conf.settings == Configured(old(conf.settings), publish)
      ensures conf.status == Some(StatusKeysOf(old(conf.settings), docTitle, publish))
      ensures conf.lists == Some(ListKeysOf(old(conf.settings)))
      ensures conf.names == Some(NameKeysOf(old(conf.settings), status2long, status2text, publish))
      ensures conf.section == Some(SectionKeysOf(old(conf.settings), sotd, joinAnd))
      ensures msg.published == old(msg.published) + Diagnostics(old(conf.settings), sotd)
    {
      ghost var i := conf.settings;
      ghost var p0 := msg.published;
      Configure(conf, docTitle, publish, msg);
      FillLongStatus();
      Describe(conf, i, docTitle, status2long, status2text, publish, sotd, joinAnd, msg);
      Associative(p0, FieldDiagnostics(i) + ListDiagnostics(i), StatusDiagnostics(i, sotd));
    }
  }

}
