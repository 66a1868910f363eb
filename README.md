# W3C document headers: configuration derivation and validation

This project models the core of ReSpec's W3C header module, `js/w3c/headers.js`.
It covers three parts:

- **The status tables.** These are the constant maps from a W3C document status code (`FPWD`, `CR`,
  `IG-NOTE`, `CG-FINAL`, …) to a maturity level, an RDF class, a short name and a long name. They
  also hold the lists of Recommendation-track, no-track, Community/Business Group and "an" statuses.
- **`run`.** It takes the author's configuration object and changes it step by step:
  - it fills in defaults (RDFa 1.1, the W3C licence, an empty subtitle and Editor's Draft link);
  - it derives the status flags and the maturity;
  - it builds the URLs of this, the latest and the previous version;
  - it completes the module's long-status table in place;
  - it derives the names and tests the templates use, and the group and patent-disclosure links;
  - it publishes an ordered list of errors and warnings on a message bus.
- **The `showPeople` template helper.** It builds the `<dd>` markup of the editors or authors, with
  RDFa attributes unless RDFa is switched off.

The modules follow the source:

- **`JsValues`** gives the JavaScript semantics the code relies on: truthiness, `x || y`, a possibly
  undefined value spliced into a string, number-to-decimal conversion of the year, and `join`.
- **`StatusTables`** holds the constant tables.
- **`People`** is `showPeople`. `ShowPeople` is the loop that accumulates `ret`. It is proved to
  return `PeopleHtml`: one `Entry` per person, in order.
- **`Derivation`** is the specification of `run`. Each value `run` derives is a function of the
  configuration as the author wrote it. `Configured` is the whole new configuration, and `Diagnostics`
  is the ordered list of published messages.
- **`DerivationFacts`** proves what the source promises about those functions: the maturity and
  URL rules, the flags, the defaults, idempotence, and for every message exactly when it is published.
- **`Headers`** is `run` as it is written:
  - a `Conf` object whose fields the methods reassign;
  - a `MessageBus` whose `published` list grows;
  - a `HeadersModule` object whose `status2long` map is filled by the `for … in` loop;
  - the `peopCheck` loops and the `pats` loop as `while` loops.

  Each step is proved against the `Derivation` functions. `HeadersModule.Run` states the whole new
  state: the configuration, the long-status table and the published messages.

## Model

| member | source | states |
|---|---|---|
| JsValues.NatToDecimal | js/w3c/headers.js:234-235 | the year's text in a URL is a non-empty run of digits with no leading zero |
| JsValues.DecimalRoundTrip | js/w3c/headers.js:235 | reading the decimal text of a year back gives the year |
| JsValues.NatToDecimalInjective | js/w3c/headers.js:285 | distinct years have distinct texts, so comparing a copyright start with the year's text is comparing years |
| StatusTables.Lookup | js/w3c/headers.js:230 | a table lookup is defined exactly for a defined status that is a key of the table, and then gives that entry |
| StatusTables.TablesHaveTruthyValues | js/w3c/headers.js:136-189 | every entry of the four status tables is a non-empty string, so the source's truthiness tests on a lookup test presence |
| StatusTables.TracksAreDisjoint | js/w3c/headers.js:190-192 | no status is both on and off the Recommendation track; every Community/Business Group status is a no-track status |
| People.AppendName | js/w3c/headers.js:108-118 | appends the name markup: a link with the RDFa name attributes, a plain link, or a span |
| People.AppendCompany | js/w3c/headers.js:119-123 | appends ", " and the company, linked when it has a URL, and nothing without a company |
| People.BuildEntry | js/w3c/headers.js:106-129 | one loop iteration builds exactly the person's `Entry` |
| People.ShowPeople | js/w3c/headers.js:86-132 | the loop returns the concatenation of every person's entry, in list order, with the attributes the role and doRDFa select |
| People.ConcatAppend | js/w3c/headers.js:104-130 | accumulating the parts of two lists gives the two accumulations one after the other |
| People.PeopleHtmlAppend | js/w3c/headers.js:104-130 | the markup of a joined list of people is the markup of the first list followed by the second's: nothing comes between the entries |
| People.EntryIsDdElement | js/w3c/headers.js:106-129 | every entry starts with `<dd class='p-author h-card vcard'` and ends with `</dd>` and a line break |
| People.NameLinkedExactlyWithUrl | js/w3c/headers.js:108-118 | the name is an `<a>` ending in the name exactly when the person has a URL, and a `<span>` ending in the name otherwise |
| People.NameLinksToUrl | js/w3c/headers.js:108-114 | a linked name's link goes to the person's own URL: it ends with `href='url'>name</a>` |
| People.NoteClosesContent | js/w3c/headers.js:127-129 | a note is the last content of the entry, as " (note)" just before the closing tags |
| People.RdfaOffGivesPlainMarkup | js/w3c/headers.js:88-129 | with doRDFa false every RDFa fragment is empty and the entry equals the RDFa-free reference markup |
| People.PlainNameWhenRdfaOff | js/w3c/headers.js:108-118 | without RDFa the name markup equals the RDFa-free name |
| People.PlainCompanyWhenRdfaOff | js/w3c/headers.js:119-123 | without RDFa the company markup equals the RDFa-free company |
| People.PlainMailWhenRdfaOff | js/w3c/headers.js:124-126 | without RDFa the mail markup equals the RDFa-free mail link |
| People.RdfaRoles | js/w3c/headers.js:89-101 | with RDFa on: editors are `bibo:editor`, in a list unless RDFa 1.0; authors are `dcterms:contributor`; other roles have no rel; every person is a `foaf:Person` |
| DerivationFacts.MaturityRule | js/w3c/headers.js:136-230 | the maturity is the Status2Maturity entry when there is one, the status itself otherwise, and undefined for no status; FPWD, LC and FPLC give WD |
| DerivationFacts.PublishSpaceRule | js/w3c/headers.js:231-233 | Member and Team submissions publish under Submission and TeamSubmission, everything else under TR |
| DerivationFacts.DatedVersionURLs | js/w3c/headers.js:234-239 | a W3C document other than an ED or a TAG finding is dated `http://www.w3.org/<space>/<year>/<maturity>-<shortName>-<date>/` |
| DerivationFacts.LatestVersionURL | js/w3c/headers.js:239-241 | every document other than a TAG finding or a group report, Editor's Drafts included, has the latest version `http://www.w3.org/<space>/<shortName>/`; a group report keeps the author's |
| DerivationFacts.EditorsDraft | js/w3c/headers.js:225-238 | an ED's own URL is its edDraftURI, "" when missing; the warning is published exactly when it is missing, and never as an error |
| DerivationFacts.TagFindingURLs | js/w3c/headers.js:240-298 | TAG findings are under /2001/tag/doc/ and dated with dashes, for this and the previous version; the previous version is shown exactly when it has a date |
| DerivationFacts.RecTrackRule | js/w3c/headers.js:223 | noRecTrack turns the Recommendation-track flag off; otherwise the flag is membership of the track list |
| DerivationFacts.CGFinalExactly | js/w3c/headers.js:208-209 | the final group reports are exactly CG-FINAL and BG-FINAL, both group statuses |
| DerivationFacts.AnOrARule | js/w3c/headers.js:224 | the article is "an" exactly for ED and IG-NOTE, "a" for anything else |
| DerivationFacts.TrackFlagsAgree | js/w3c/headers.js:190-300 | on-track documents are not no-track and show their version; group statuses are no-track; notYetRec and isRec split the track |
| DerivationFacts.ShowPreviousVersionRule | js/w3c/headers.js:296-298 | the previous version is shown for tracked statuses other than FPWD, FPLC and ED, and for a TAG finding exactly when it has a previous date |
| DerivationFacts.RecNotExpectedExactly | js/w3c/headers.js:364 | "no Recommendation expected" holds exactly for off-track WD-maturity statuses other than FPWD-NOTE |
| DerivationFacts.ConfiguredKeepsAuthorFields | js/w3c/headers.js:198-294 | `run` changes none of the fields the author sets that it only reads (status, names, people, groups, dates, links) |
| DerivationFacts.ConfiguredDefaults | js/w3c/headers.js:198-227 | an unset doRDFa becomes "1.1"; a falsy licence becomes "w3c"; a falsy subtitle and edDraftURI become ""; set values are kept |
| DerivationFacts.ConfiguredIdempotent | js/w3c/headers.js:198-294 | configuring a configured document again changes nothing |
| DerivationFacts.FilledCoversText | js/w3c/headers.js:286-289 | after the fill the long table has the keys of both tables, keeps every non-empty long name and takes the short name elsewhere |
| DerivationFacts.FilledIdempotent | js/w3c/headers.js:286-289 | filling twice is filling once |
| DerivationFacts.LongStatusTable | js/w3c/headers.js:155-289 | the filled table covers exactly Status2Text's statuses; FPWD-NOTE and LC-NOTE keep their own long names and every other status's long name is its short name |
| DerivationFacts.NameErrorsCount | js/w3c/headers.js:269-273 | the person check publishes only the unnamed-person error, never more errors than people, and nothing exactly when everyone has a name |
| DerivationFacts.NameErrorsExact | js/w3c/headers.js:269-273 | the person check publishes exactly as many errors as there are people without a name |
| DerivationFacts.AlternateErrorsCount | js/w3c/headers.js:276-278 | the format check publishes only the incomplete-format error, never more errors than formats, and nothing exactly when every format has a uri and a label |
| DerivationFacts.AlternateErrorsExact | js/w3c/headers.js:276-278 | the format check publishes exactly as many errors as there are formats without a uri or a label |
| DerivationFacts.NameErrorsWitness | js/w3c/headers.js:269-273 | the unnamed-person error is published exactly when some person has no name |
| DerivationFacts.AlternateErrorsWitness | js/w3c/headers.js:276-278 | the incomplete-format error is published exactly when some format lacks a uri or a label |
| DerivationFacts.FieldDiagnosticsPublished | js/w3c/headers.js:210-266 | the field checks publish a field message exactly when its rule raises it |
| DerivationFacts.ListDiagnosticsPublished | js/w3c/headers.js:268-278 | the list checks publish a list message exactly when its rule raises it |
| DerivationFacts.DeadlineDiagnosticsPublished | js/w3c/headers.js:356-361 | the deadline checks publish a deadline message exactly when its rule raises it |
| DerivationFacts.LinkDiagnosticsPublished | js/w3c/headers.js:365-375 | the link checks publish a link message exactly when its rule raises it |
| DerivationFacts.StatusDiagnosticsPublished | js/w3c/headers.js:337-375 | the status-section checks publish exactly the raised status-section, deadline and link messages |
| DerivationFacts.Published | js/w3c/headers.js:210-375 | a diagnostic is published exactly when its rule is raised by the configuration and the status section |
| DerivationFacts.RequiredFields | js/w3c/headers.js:210-268 | a missing specStatus is always an error, and the first one published; a missing shortName is an error except for group documents; no editors is an error |
| DerivationFacts.NoPreviousVersionRule | js/w3c/headers.js:244-265 | without a previous date the "no previous version" error is published exactly for tracked statuses other than FPWD, FPLC and ED; no previous-maturity error is published; prevVersion defaults to "" |
| DerivationFacts.LastCallNeedsEnd | js/w3c/headers.js:356 | LC and FPLC documents without lcEnd get the error, and only they |
| DerivationFacts.ProposedRecNeedsEnds | js/w3c/headers.js:357-361 | a PR needs both lcEnd and prEnd, each with its own error |
| DerivationFacts.CandidateRecNeedsEnd | js/w3c/headers.js:359 | a CR without crEnd gets the error, and only it |
| DerivationFacts.InterestGroupNoteNeedsCharter | js/w3c/headers.js:365-366 | an IG-NOTE without charterDisclosureURI gets the error, and only it |
| DerivationFacts.ImplementationReportNeeded | js/w3c/headers.js:369-371 | CR, PR and on-track REC documents without implementationReportURI get the error, and only they |
| DerivationFacts.StatusSectionNeeded | js/w3c/headers.js:337-374 | group, tracked and TAG documents need a status section; a TAG finding without one gets its own error as well |
| DerivationFacts.PeopleAndFormatChecks | js/w3c/headers.js:268-278 | the unnamed-person error is published exactly when an editor or author has no name, the format error exactly when a format is incomplete |
| DerivationFacts.OnlyOneWarning | js/w3c/headers.js:210-375 | every published diagnostic is an error except the Editor's Draft link warning |
| Headers.MessageBus.Pub | js/w3c/headers.js:210 | publishing appends one diagnostic to the bus |
| Headers.MessageBus.Report | js/w3c/headers.js:210-211 | a guarded publish appends the diagnostic exactly when its condition holds |
| Headers.CheckNames | js/w3c/headers.js:269-273 | the loop over a list of people publishes the list's `NameErrors` |
| Headers.CheckAlternates | js/w3c/headers.js:276-278 | the loop over the alternate formats publishes their `AlternateErrors` |
| Headers.PatentLinksHtml | js/w3c/headers.js:346-350 | the `pats` loop's joined result is the patent links of the groups, in order, joined with ", " |
| Headers.SetDefaults | js/w3c/headers.js:198-204 | sets the RDFa and licence defaults and nothing else |
| Headers.SetSubtitle | js/w3c/headers.js:213 | sets the subtitle default and nothing else |
| Headers.SetEdDraftURI | js/w3c/headers.js:225-229 | sets the Editor's Draft link default and publishes the ED warning when it was missing |
| Headers.StatusKeysFor | js/w3c/headers.js:207-230 | the flags, title and maturity, assigned as the source assigns them, are the status keys `StatusKeysOf` specifies |
| Headers.DeriveStatus | js/w3c/headers.js:198-230 | leaves the defaulted configuration and the status keys, and publishes the required-field and ED diagnostics |
| Headers.SetVersionURLs | js/w3c/headers.js:231-243 | sets this and the latest version as specified, and nothing else |
| Headers.SetPrevVersion | js/w3c/headers.js:244-266 | sets the previous version and publishes the previous-version diagnostics |
| Headers.SetPrevRecURI | js/w3c/headers.js:267 | sets the previous Recommendation's URL when only its short name is given |
| Headers.CheckLists | js/w3c/headers.js:268-279 | publishes the list diagnostics in order and sets the multiple-entries keys |
| Headers.SetCopyrightStart | js/w3c/headers.js:285 | drops a copyright start equal to the publication year |
| Headers.SetRdfStatus | js/w3c/headers.js:292-294 | sets the RDF class when the status has one |
| Headers.NameKeysFor | js/w3c/headers.js:290-311 | computes exactly the name keys the specification derives |
| Headers.Configure | js/w3c/headers.js:198-285 | leaves the prepared configuration, the status and list keys, and publishes the field diagnostics then the list diagnostics |
| Headers.SetStatusNames | js/w3c/headers.js:290-311 | completes the configuration and sets the name keys |
| Headers.GroupsHtml | js/w3c/headers.js:340-354 | an array of groups gives the joined group links and the patent links; a single group gives one link and no patent links |
| Headers.SectionKeysFor | js/w3c/headers.js:337-364 | computes exactly the section keys the specification derives |
| Headers.CheckDeadlines | js/w3c/headers.js:356-361 | publishes the deadline diagnostics in order |
| Headers.CheckLinks | js/w3c/headers.js:365-375 | publishes the charter, implementation-report and TAG status-section diagnostics in order |
| Headers.CheckStatusSection | js/w3c/headers.js:334-375 | publishes the status-section diagnostics in order |
| Headers.SetSectionKeys | js/w3c/headers.js:337-364 | sets the section keys |
| Headers.Describe | js/w3c/headers.js:290-375 | leaves the configured document, the name and section keys, and publishes the status-section diagnostics |
| Headers.HeadersModule.constructor | js/w3c/headers.js:155-189 | the module starts with its short-name table and the two initial long names |
| Headers.HeadersModule.FillLongStatus | js/w3c/headers.js:286-289 | the `for … in` loop leaves the filled long-name table |
| Headers.HeadersModule.Run | js/w3c/headers.js:195-375 | the whole new state: the configured document, all derived keys, the filled long-name table, and exactly `Diagnostics` published in order |

## Left out

- The templates (`headersTmpl`, `sotdTmpl` and the CG/BG variants), the insertion of the header into the document, and the `SafeString` wrapper are not modelled. `showPeople` returns the plain string.
- The RDFa attributes set on the `html` element (lines 315-330) are left out. They are jQuery DOM writes with no value of their own.
- The `#sotd` section is a parameter. It is the custom paragraph's content, or `None` when the section is absent. Its removal from the document is not modelled.
- The date helpers (`parseLastModified`, `parseSimpleDate`, `humanDate`, `isoDate`, `concatDate`) are not part of this model. The publication date is a parameter that already carries its year and both `concatDate` forms. `previousPublishDate` is given already parsed. The human-readable and ISO date keys (`publishHumanDate`, `humanLCEnd`, `humanCREnd`, `humanPREnd`, `publishISODate`) are not modelled.
- `utils.joinAnd` is a parameter, since that helper is not part of this model.
- `alternatesHTML` (lines 280-284) is left out. It is markup assembly: each format's link with its optional hreflang and type, joined by `joinAnd`.
- The `start`/`end` messages and the callback `cb` are left out. They carry no information about the configuration.
- The configuration's keys are grouped: the author's fields form one record, and each phase's derived keys form another. The status and section keys are computed together instead of interleaved, and no step reads a key before the source sets it.
- An absent `editors` or `authors` list is modelled as an empty list. For editors the source publishes the error and then throws at `conf.editors.length`; the throw is not modelled.
- Headers.HeadersModule.Run requires `GroupsIndexable`: when `wg` is a non-empty array, `wgURI` and `wgPatentURI` must be set. Otherwise the source throws while indexing them. An empty array indexes nothing and is modelled.
- `copyrightStart` is compared with the year's canonical decimal text. JavaScript's loose `==` also equates other texts of the same number, such as "02013", "2013.0", "0x7DD" or " 2013"; the model keeps those.
- `wgPatentHTML` is `None` when `wg` is not an array. The source then keeps whatever value the author gave.
- Every status-table lookup is an own-key lookup. JavaScript's `table[specStatus]` (lines 230 and 290-293) also finds inherited `Object.prototype` members: a status such as "toString" or "constructor" would give a function as maturity, long and short name and RDF class. The model treats such a status as absent from the tables.
- The test `/G-FINAL$/` is modelled as "ends with G-FINAL". It matters only for group statuses, where that is the same test.

