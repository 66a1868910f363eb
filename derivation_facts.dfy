/** Properties of what `run` derives: the maturity rule, the version URLs,
    the status flags, the long-name fill, and when each diagnostic is
    published. */
module DerivationFacts {
  import opened JsValues
  import opened StatusTables
  import opened People
  import opened Derivation

  // ---------------------------------------------------------------------
  // Maturity and URLs

  /** The maturity is the status's Status2Maturity entry when it has one,
      and the status itself otherwise; the first and last-call drafts
      publish as working drafts. */
  lemma MaturityRule(s: string)
    ensures s in Status2Maturity ==> Maturity(Some(s)) == Some(Status2Maturity[s])
    ensures s !in Status2Maturity ==> Maturity(Some(s)) == Some(s)
    ensures Maturity(None) == None
    ensures s == "FPWD" || s == "LC" || s == "FPLC" ==> Maturity(Some(s)) == Some("WD")
  {
    TablesHaveTruthyValues();
  }

  /** The submission statuses publish in their own spaces, everything else under /TR/. */
  lemma PublishSpaceRule(s: Option<string>)
    ensures PublishSpace(s) == "Submission" <==> s == Some("Member-SUBM")
    ensures PublishSpace(s) == "TeamSubmission" <==> s == Some("Team-SUBM")
    ensures PublishSpace(s) == "TR" <==> s != Some("Member-SUBM") && s != Some("Team-SUBM")
  {
  }

  /** The dated URL of a W3C document other than an Editor's Draft, a TAG
      finding or a Community or Business Group report. */
  lemma DatedVersionURLs(i: Input, publish: DateInfo)
    requires !IsCGBG(i.specStatus) && !IsTagFinding(i.specStatus) && i.specStatus != Some("ED")
    ensures ThisVersion(i, publish) ==
      Some("http://www.w3.org/" + PublishSpace(i.specStatus) + "/" + IntToDecimal(publish.year) + "/" +
           Str(Maturity(i.specStatus)) + "-" + Str(i.shortName) + "-" + publish.compact + "/")
  {
  }

  /** The undated URL of every document other than a TAG finding or a
      Community or Business Group report, Editor's Drafts included; a group
      report keeps the latest version its author gave. */
  lemma LatestVersionURL(i: Input)
    ensures !IsCGBG(i.specStatus) && !IsTagFinding(i.specStatus) ==>
      LatestVersion(i) == Some("http://www.w3.org/" + PublishSpace(i.specStatus) + "/" + Str(i.shortName) + "/")
    ensures IsCGBG(i.specStatus) ==> LatestVersion(i) == i.latestVersion
  {
  }

  /** An Editor's Draft's own URL is its edDraftURI, "" when it has none,
      which is a warning and never an error. */
  lemma EditorsDraft(i: Input, publish: DateInfo, sotd: Option<string>)
    requires i.specStatus == Some("ED")
    ensures ThisVersion(i, publish) == Some(if Truthy(i.edDraftURI) then i.edDraftURI.value else "")
    ensures Diagnostic(Warn, EdDraftURIMissing) in Diagnostics(i, sotd) <==> !Truthy(i.edDraftURI)
    ensures Diagnostic(Error, EdDraftURIMissing) !in Diagnostics(i, sotd)
  {
    Published(i, sotd, Diagnostic(Warn, EdDraftURIMissing));
    Published(i, sotd, Diagnostic(Error, EdDraftURIMissing));
  }

  /** TAG findings live under /2001/tag/doc/, dated with dashes, and their
      previous version is dated the same way. */
  lemma TagFindingURLs(i: Input, publish: DateInfo)
    requires IsTagFinding(i.specStatus)
    ensures LatestVersion(i) == Some("http://www.w3.org/2001/tag/doc/" + Str(i.shortName))
    ensures ThisVersion(i, publish) == Some(LatestVersion(i).value + "-" + publish.dashed)
    ensures i.previousPublishDate.Some? ==>
      PrevVersion(i) == LatestVersion(i).value + "-" + i.previousPublishDate.value.dashed
    ensures ShowPreviousVersion(i) <==> i.previousPublishDate.Some?
  {
  }

  // ---------------------------------------------------------------------
  // Status flags

  /** The Recommendation-track flag: off whenever noRecTrack is set,
      otherwise membership in RecTrackStatus. */
  lemma RecTrackRule(i: Input)
    ensures i.noRecTrack ==> !IsRecTrack(i)
    ensures !i.noRecTrack ==> (IsRecTrack(i) <==> i.specStatus.Some? && i.specStatus.value in RecTrackStatus)
  {
  }

  /** The final Community and Business Group reports are exactly the two
      `G-FINAL` statuses, and both are Community or Business Group statuses. */
  lemma CGFinalExactly(s: Option<string>)
    ensures IsCGFinal(s) ==> IsCGBG(s)
    ensures IsCGFinal(s) <==> s == Some("CG-FINAL") || s == Some("BG-FINAL")
  {
    if IsCGBG(s) {
      var v := s.value;
      assert v == "CG-DRAFT" || v == "CG-FINAL" || v == "BG-DRAFT" || v == "BG-FINAL";
      if v == "CG-DRAFT" || v == "BG-DRAFT" {
        assert v[|v| - 7..] == "G-DRAFT";
        assert v[|v| - 7..][2] != "G-FINAL"[2];
      } else {
        assert v[|v| - 7..] == "G-FINAL";
      }
    }
  }

  /** "an" exactly for an Editor's Draft and an Interest Group Note. */
  lemma AnOrARule(s: Option<string>)
    ensures AnOrA(s) == "an" <==> s == Some("ED") || s == Some("IG-NOTE")
    ensures AnOrA(s) == "an" || AnOrA(s) == "a"
  {
  }

  /** On-track documents are never no-track ones, so their dated URL is
      always shown; a community document is a no-track one; NotYetRec and
      IsRec split the Recommendation track. */
  lemma TrackFlagsAgree(i: Input)
    ensures IsRecTrack(i) ==> !IsNoTrack(i.specStatus) && ShowThisVersion(i.specStatus)
    ensures IsCGBG(i.specStatus) ==> IsNoTrack(i.specStatus)
    ensures IsRecTrack(i) <==> NotYetRec(i) || IsRec(i)
    ensures !(NotYetRec(i) && IsRec(i))
  {
    TracksAreDisjoint();
  }

  /** The previous version is shown for on-track statuses other than the
      first drafts and Editor's Drafts; TAG findings show it exactly when
      they have a previous publication date. */
  lemma ShowPreviousVersionRule(i: Input)
    ensures !IsTagFinding(i.specStatus) ==>
      (ShowPreviousVersion(i) <==> NotFirstDraft(i.specStatus) && !IsNoTrack(i.specStatus))
    ensures IsTagFinding(i.specStatus) ==> (ShowPreviousVersion(i) <==> i.previousPublishDate.Some?)
    ensures !NotFirstDraft(i.specStatus) ==> !ShowPreviousVersion(i)
  {
  }

  /** A Recommendation is not expected exactly for a Working Draft Note, and
      for the working-draft statuses of a document marked noRecTrack. So the
      exclusion of FPWD-NOTE never matters: its maturity is NOTE. */
  lemma RecNotExpectedExactly(i: Input)
    ensures RecNotExpected(i) <==>
      i.specStatus == Some("WD-NOTE") ||
      (i.noRecTrack && i.specStatus.Some? && i.specStatus.value in ["FPWD", "LC", "FPLC", "WD"])
    ensures RecNotExpected(i) <==> !IsRecTrack(i) && Maturity(i.specStatus) == Some("WD")
  {
    TablesHaveTruthyValues();
    if i.specStatus.Some? {
      MaturityRule(i.specStatus.value);
    }
  }

  // ---------------------------------------------------------------------
  // The configuration as a whole

  /** `run` only fills in the derived fields: what the author set for the
      status, the names, the dates, the people and the groups is kept. */
  lemma ConfiguredKeepsAuthorFields(i: Input, publish: DateInfo)
    ensures Configured(i, publish).specStatus == i.specStatus
    ensures Configured(i, publish).shortName == i.shortName
    ensures Configured(i, publish).previousPublishDate == i.previousPublishDate
    ensures Configured(i, publish).previousMaturity == i.previousMaturity
    ensures Configured(i, publish).noRecTrack == i.noRecTrack
    ensures Configured(i, publish).prevRecShortname == i.prevRecShortname
    ensures Configured(i, publish).editors == i.editors && Configured(i, publish).authors == i.authors
    ensures Configured(i, publish).alternateFormats == i.alternateFormats
    ensures Configured(i, publish).wg == i.wg && Configured(i, publish).wgURI == i.wgURI
    ensures Configured(i, publish).wgPatentURI == i.wgPatentURI
    ensures Configured(i, publish).lcEnd == i.lcEnd && Configured(i, publish).crEnd == i.crEnd
    ensures Configured(i, publish).prEnd == i.prEnd
    ensures Configured(i, publish).charterDisclosureURI == i.charterDisclosureURI
    ensures Configured(i, publish).implementationReportURI == i.implementationReportURI
  {
  }

  /** The defaults: RDFa 1.1 when RDFa is not configured, the W3C licence,
      and an empty subtitle and Editor's Draft link; a value the author set
      is kept. */
  lemma ConfiguredDefaults(i: Input, publish: DateInfo)
    ensures Configured(i, publish).doRDFa == if i.doRDFa == RdfaUnset then RdfaOn("1.1") else i.doRDFa
    ensures Configured(i, publish).license == if Truthy(i.license) then i.license else Some("w3c")
    ensures Configured(i, publish).subtitle == if Truthy(i.subtitle) then i.subtitle else Some("")
    ensures Configured(i, publish).edDraftURI == if Truthy(i.edDraftURI) then i.edDraftURI else Some("")
  {
  }

  /** Configuring an already configured document changes nothing: every
      default `run` fills in is one it would keep. */
  lemma ConfiguredIdempotent(i: Input, publish: DateInfo)
    ensures Configured(Configured(i, publish), publish) == Configured(i, publish)
  {
    ConfiguredDefaultsStable(i, publish);
    ConfiguredLinksStable(i, publish);
  }

  /** The defaults and the version URLs of a configured document are the ones it has. */
  lemma ConfiguredDefaultsStable(i: Input, publish: DateInfo)
    ensures var c := Configured(i, publish);
      License(c) == License(i) && EdDraftURI(c) == EdDraftURI(i) &&
      ThisVersion(c, publish) == c.thisVersion && LatestVersion(c) == c.latestVersion
  {
    var c := Configured(i, publish);
    ConfiguredKeepsAuthorFields(i, publish);
    assert License(c) == License(i);
    assert EdDraftURI(c) == EdDraftURI(i);
  }

  /** The previous versions, the copyright start and the RDF class of a
      configured document are the ones it has. */
  lemma ConfiguredLinksStable(i: Input, publish: DateInfo)
    ensures var c := Configured(i, publish);
      PrevVersion(c) == PrevVersion(i) && PrevRecURI(c) == c.prevRecURI &&
      CopyrightStart(c, publish.year) == c.copyrightStart && RdfStatus(c) == c.rdfStatus
  {
    ConfiguredKeepsAuthorFields(i, publish);
  }

  // ---------------------------------------------------------------------
  // The long-name fill

  /** After the fill every short name has a long name, a non-empty long
      name is kept, and an entry of neither table does not appear. */
  lemma FilledCoversText(long: map<string, string>, text: map<string, string>)
    ensures Filled(long, text).Keys == long.Keys + text.Keys
    ensures forall k :: k in long && long[k] != "" ==> Filled(long, text)[k] == long[k]
    ensures forall k :: k in text && !(k in long && long[k] != "") ==> Filled(long, text)[k] == text[k]
  {
  }

  /** Running the fill a second time changes nothing. */
  lemma FilledIdempotent(long: map<string, string>, text: map<string, string>)
    ensures Filled(Filled(long, text), text) == Filled(long, text)
  {
    var once := Filled(long, text);
    var twice := Filled(once, text);
    assert twice.Keys == once.Keys;
    forall k | k in once
      ensures twice[k] == once[k]
    {
    }
  }

  /** The module's own tables: FPWD-NOTE and LC-NOTE keep their long names,
      every other status's long name is its short name. */
  lemma LongStatusTable()
    ensures Filled(Status2LongInitial, Status2Text).Keys == Status2Text.Keys
    ensures Filled(Status2LongInitial, Status2Text)["FPWD-NOTE"] == "First Public Working Group Note"
    ensures Filled(Status2LongInitial, Status2Text)["LC-NOTE"] == "Last Call Working Draft"
    ensures forall k :: k in Status2Text && k != "FPWD-NOTE" && k != "LC-NOTE" ==>
      Filled(Status2LongInitial, Status2Text)[k] == Status2Text[k]
  {
    FilledCoversText(Status2LongInitial, Status2Text);
    assert Status2LongInitial.Keys <= Status2Text.Keys;
  }

  // ---------------------------------------------------------------------
  // Diagnostics

  /** Whether each person has a name, in list order. */
  function Named(people: seq<Person>): seq<bool>
  {
    seq(|people|, k requires 0 <= k < |people| => Truthy(people[k].name))
  }

  /** Whether each alternate format has both a uri and a label, in list order. */
  function Complete(alts: seq<Alternate>): seq<bool>
  {
    seq(|alts|, k requires 0 <= k < |alts| => Truthy(alts[k].uri) && Truthy(alts[k].text))
  }

  /** The person checks publish only the unnamed-person error, and nothing
      exactly when everyone has a name. */
  lemma {:induction false} NameErrorsCount(people: seq<Person>)
    ensures forall d :: d in NameErrors(people) ==> d == Diagnostic(Error, UnnamedPerson)
    ensures NameErrors(people) == [] <==> forall p :: p in people ==> Truthy(p.name)
    ensures |NameErrors(people)| <= |people|
  {
    if |people| > 0 {
      NameErrorsCount(people[1..]);
      assert forall p :: p in people[1..] ==> p in people;
      assert forall p :: p in people ==> p == people[0] || p in people[1..];
    }
  }

  /** The format checks publish only the incomplete-format error, and
      nothing exactly when every format is complete. */
  lemma {:induction false} AlternateErrorsCount(alts: seq<Alternate>)
    ensures forall d :: d in AlternateErrors(alts) ==> d == Diagnostic(Error, IncompleteAlternate)
    ensures AlternateErrors(alts) == [] <==> forall a :: a in alts ==> Truthy(a.uri) && Truthy(a.text)
    ensures |AlternateErrors(alts)| <= |alts|
  {
    if |alts| > 0 {
      AlternateErrorsCount(alts[1..]);
      assert forall a :: a in alts[1..] ==> a in alts;
      assert forall a :: a in alts ==> a == alts[0] || a in alts[1..];
    }
  }

  /** One unnamed-person error for each person without a name. */
  lemma {:induction false} NameErrorsExact(people: seq<Person>)
    ensures |NameErrors(people)| == multiset(Named(people))[false]
  {
    if |people| > 0 {
      NameErrorsExact(people[1..]);
      var c := Named(people);
      assert c == [c[0]] + Named(people[1..]);
    }
  }

  /** One incomplete-format error for each format without a uri or a label. */
  lemma {:induction false} AlternateErrorsExact(alts: seq<Alternate>)
    ensures |AlternateErrors(alts)| == multiset(Complete(alts))[false]
  {
    if |alts| > 0 {
      AlternateErrorsExact(alts[1..]);
      var c := Complete(alts);
      assert c == [c[0]] + Complete(alts[1..]);
    }
  }

  lemma NameErrorsWitness(people: seq<Person>)
    ensures HasUnnamed(people) <==> Diagnostic(Error, UnnamedPerson) in NameErrors(people)
  {
    NameErrorsCount(people);
    var r := NameErrors(people);
    if r != [] {
      assert r[0] in r;
    }
  }

  lemma AlternateErrorsWitness(alts: seq<Alternate>)
    ensures HasIncomplete(alts) <==> Diagnostic(Error, IncompleteAlternate) in AlternateErrors(alts)
  {
    AlternateErrorsCount(alts);
    var r := AlternateErrors(alts);
    if r != [] {
      assert r[0] in r;
    }
  }

  lemma FieldDiagnosticsPublished(i: Input, sotd: Option<string>, d: Diagnostic)
    ensures d in FieldDiagnostics(i) <==> IsFieldMessage(d.message) && Raised(i, sotd, d)
  {
  }

  lemma ListDiagnosticsPublished(i: Input, sotd: Option<string>, d: Diagnostic)
    ensures d in ListDiagnostics(i) <==> IsListMessage(d.message) && Raised(i, sotd, d)
  {
    NameErrorsCount(i.editors);
    NameErrorsCount(i.authors);
    AlternateErrorsCount(i.alternateFormats);
    NameErrorsWitness(i.editors);
    NameErrorsWitness(i.authors);
    AlternateErrorsWitness(i.alternateFormats);
  }

  lemma DeadlineDiagnosticsPublished(i: Input, sotd: Option<string>, d: Diagnostic)
    ensures d in DeadlineDiagnostics(i) <==> IsDeadlineMessage(d.message) && Raised(i, sotd, d)
  {
  }

  lemma LinkDiagnosticsPublished(i: Input, sotd: Option<string>, d: Diagnostic)
    ensures d in LinkDiagnostics(i, sotd) <==> IsLinkMessage(d.message) && Raised(i, sotd, d)
  {
  }

  lemma StatusDiagnosticsPublished(i: Input, sotd: Option<string>, d: Diagnostic)
    ensures d in StatusDiagnostics(i, sotd) <==>
      !IsFieldMessage(d.message) && !IsListMessage(d.message) && Raised(i, sotd, d)
  {
    DeadlineDiagnosticsPublished(i, sotd, d);
    LinkDiagnosticsPublished(i, sotd, d);
  }

  /** A diagnostic is in the published list exactly when its rule in the
      message table fires. */
  lemma Published(i: Input, sotd: Option<string>, d: Diagnostic)
    ensures d in Diagnostics(i, sotd) <==> Raised(i, sotd, d)
  {
    FieldDiagnosticsPublished(i, sotd, d);
    ListDiagnosticsPublished(i, sotd, d);
    StatusDiagnosticsPublished(i, sotd, d);
  }

  /** The required fields: a missing specStatus is always an error, a
      missing shortName is one unless the document is a Community or
      Business Group report, and at least one editor is needed. */
  lemma RequiredFields(i: Input, sotd: Option<string>)
    ensures Diagnostic(Error, MissingSpecStatus) in Diagnostics(i, sotd) <==> !Truthy(i.specStatus)
    ensures Diagnostic(Error, MissingShortName) in Diagnostics(i, sotd) <==>
      !IsCGBG(i.specStatus) && !Truthy(i.shortName)
    ensures Diagnostic(Error, NoEditor) in Diagnostics(i, sotd) <==> |i.editors| == 0
    ensures !Truthy(i.specStatus) ==> Diagnostics(i, sotd)[0] == Diagnostic(Error, MissingSpecStatus)
  {
    assert Raised(i, sotd, Diagnostic(Error, MissingSpecStatus)) <==> !Truthy(i.specStatus);
    assert Raised(i, sotd, Diagnostic(Error, MissingShortName)) <==> !IsCGBG(i.specStatus) && !Truthy(i.shortName);
    assert Raised(i, sotd, Diagnostic(Error, NoEditor)) <==> |i.editors| == 0;
    Published(i, sotd, Diagnostic(Error, MissingSpecStatus));
    Published(i, sotd, Diagnostic(Error, MissingShortName));
    Published(i, sotd, Diagnostic(Error, NoEditor));
  }

  /** Without a previous publication date, an on-track document other than
      a first draft or Editor's Draft is reported, and prevVersion falls
      back to the author's value or "". */
  lemma NoPreviousVersionRule(i: Input, sotd: Option<string>)
    requires i.previousPublishDate.None?
    ensures Diagnostic(Error, NoPreviousVersion) in Diagnostics(i, sotd) <==>
      NotFirstDraft(i.specStatus) && !i.noRecTrack && !IsNoTrack(i.specStatus)
    ensures Diagnostic(Error, PreviousMaturityMissing) !in Diagnostics(i, sotd)
    ensures PrevVersion(i) == if Truthy(i.prevVersion) then i.prevVersion.value else ""
  {
    assert Raised(i, sotd, Diagnostic(Error, NoPreviousVersion)) <==> NotFirstDraft(i.specStatus) && !i.noRecTrack && !IsNoTrack(i.specStatus);
    Published(i, sotd, Diagnostic(Error, NoPreviousVersion));
    Published(i, sotd, Diagnostic(Error, PreviousMaturityMissing));
  }

  /** A last-call draft must give the end of its review period. */
  lemma LastCallNeedsEnd(i: Input, sotd: Option<string>)
    ensures Diagnostic(Error, LcEndMissing) in Diagnostics(i, sotd) <==>
      (i.specStatus == Some("LC") || i.specStatus == Some("FPLC")) && !Truthy(i.lcEnd)
  {
    assert Raised(i, sotd, Diagnostic(Error, LcEndMissing)) <==> (i.specStatus == Some("LC") || i.specStatus == Some("FPLC")) && !Truthy(i.lcEnd);
    Published(i, sotd, Diagnostic(Error, LcEndMissing));
  }

  /** A proposed recommendation must give both the end of its last call
      and the end of its own review, each reported on its own. */
  lemma ProposedRecNeedsEnds(i: Input, sotd: Option<string>)
    ensures Diagnostic(Error, PrLcEndMissing) in Diagnostics(i, sotd) <==>
      i.specStatus == Some("PR") && !Truthy(i.lcEnd)
    ensures Diagnostic(Error, PrEndMissing) in Diagnostics(i, sotd) <==>
      i.specStatus == Some("PR") && !Truthy(i.prEnd)
  {
    assert Raised(i, sotd, Diagnostic(Error, PrLcEndMissing)) <==> i.specStatus == Some("PR") && !Truthy(i.lcEnd);
    assert Raised(i, sotd, Diagnostic(Error, PrEndMissing)) <==> i.specStatus == Some("PR") && !Truthy(i.prEnd);
    Published(i, sotd, Diagnostic(Error, PrLcEndMissing));
    Published(i, sotd, Diagnostic(Error, PrEndMissing));
  }

  /** A candidate recommendation must give the end of its call for implementations. */
  lemma CandidateRecNeedsEnd(i: Input, sotd: Option<string>)
    ensures Diagnostic(Error, CrEndMissing) in Diagnostics(i, sotd) <==>
      i.specStatus == Some("CR") && !Truthy(i.crEnd)
  {
    assert Raised(i, sotd, Diagnostic(Error, CrEndMissing)) <==> i.specStatus == Some("CR") && !Truthy(i.crEnd);
    Published(i, sotd, Diagnostic(Error, CrEndMissing));
  }

  /** An Interest Group Note must link to its charter's disclosure section. */
  lemma InterestGroupNoteNeedsCharter(i: Input, sotd: Option<string>)
    ensures Diagnostic(Error, CharterDisclosureMissing) in Diagnostics(i, sotd) <==>
      i.specStatus == Some("IG-NOTE") && !Truthy(i.charterDisclosureURI)
  {
    assert Raised(i, sotd, Diagnostic(Error, CharterDisclosureMissing)) <==> i.specStatus == Some("IG-NOTE") && !Truthy(i.charterDisclosureURI);
    Published(i, sotd, Diagnostic(Error, CharterDisclosureMissing));
  }

  /** CR, PR and (on-track) REC documents must link an implementation report. */
  lemma ImplementationReportNeeded(i: Input, sotd: Option<string>)
    ensures Diagnostic(Error, ImplementationReportMissing) in Diagnostics(i, sotd) <==>
      !Truthy(i.implementationReportURI) &&
      (i.specStatus == Some("CR") || i.specStatus == Some("PR") || (i.specStatus == Some("REC") && !i.noRecTrack))
  {
    assert Raised(i, sotd, Diagnostic(Error, ImplementationReportMissing)) <==> !Truthy(i.implementationReportURI) && (i.specStatus == Some("CR") || i.specStatus == Some("PR") || (i.specStatus == Some("REC") && !i.noRecTrack));
    Published(i, sotd, Diagnostic(Error, ImplementationReportMissing));
  }

  /** A document that needs a custom status section and has none is
      reported, and a TAG finding must have a non-empty one. */
  lemma StatusSectionNeeded(i: Input, sotd: Option<string>)
    ensures Diagnostic(Error, SotdRequired) in Diagnostics(i, sotd) <==>
      sotd.None? && (IsCGBG(i.specStatus) || !IsNoTrack(i.specStatus) || IsTagFinding(i.specStatus))
    ensures Diagnostic(Error, TagFindingSotd) in Diagnostics(i, sotd) <==>
      IsTagFinding(i.specStatus) && !Truthy(sotd)
  {
    assert Raised(i, sotd, Diagnostic(Error, SotdRequired)) <==> sotd.None? && (IsCGBG(i.specStatus) || !IsNoTrack(i.specStatus) || IsTagFinding(i.specStatus));
    assert Raised(i, sotd, Diagnostic(Error, TagFindingSotd)) <==> IsTagFinding(i.specStatus) && !Truthy(sotd);
    Published(i, sotd, Diagnostic(Error, SotdRequired));
    Published(i, sotd, Diagnostic(Error, TagFindingSotd));
  }

  /** One error per editor or author without a name, one per incomplete
      alternate format. */
  lemma PeopleAndFormatChecks(i: Input, sotd: Option<string>)
    ensures Diagnostic(Error, UnnamedPerson) in Diagnostics(i, sotd) <==>
      (exists p :: p in i.editors && !Truthy(p.name)) || (exists p :: p in i.authors && !Truthy(p.name))
    ensures Diagnostic(Error, IncompleteAlternate) in Diagnostics(i, sotd) <==>
      exists a :: a in i.alternateFormats && (!Truthy(a.uri) || !Truthy(a.text))
  {
    assert Raised(i, sotd, Diagnostic(Error, UnnamedPerson)) <==> (exists p :: p in i.editors && !Truthy(p.name)) || (exists p :: p in i.authors && !Truthy(p.name));
    assert Raised(i, sotd, Diagnostic(Error, IncompleteAlternate)) <==> exists a :: a in i.alternateFormats && (!Truthy(a.uri) || !Truthy(a.text));
    Published(i, sotd, Diagnostic(Error, UnnamedPerson));
    Published(i, sotd, Diagnostic(Error, IncompleteAlternate));
  }

  /** Every published diagnostic is an error except the Editor's Draft
      warning. */
  lemma OnlyOneWarning(i: Input, sotd: Option<string>, d: Diagnostic)
    requires d in Diagnostics(i, sotd)
    ensures d.severity == Warn <==> d.message == EdDraftURIMissing
  {
    Published(i, sotd, d);
  }
}
