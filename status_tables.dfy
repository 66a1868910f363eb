/** The constant vocabulary of W3C document statuses the header module
    works with: maps from a status code to its maturity level, its RDF
    class and its human-readable names, and the status sets used to derive
    the configuration's flags. */
module StatusTables {
  import opened JsValues

  /** Statuses whose dated URL uses another maturity code than the status itself. */
  const Status2Maturity: map<string, string> := map[
    "FPWD" := "WD",
    "LC" := "WD",
    "FPLC" := "WD",
    "FPWD-NOTE" := "NOTE",
    "WD-NOTE" := "WD",
    "LC-NOTE" := "LC",
    "IG-NOTE" := "NOTE",
    "WG-NOTE" := "NOTE"
  ]

  /** The RDFa class of a status, for the statuses that have one. */
  const Status2Rdf: map<string, string> := map[
    "NOTE" := "w3p:NOTE",
    "WD" := "w3p:WD",
    "LC" := "w3p:LastCall",
    "CR" := "w3p:CR",
    "PR" := "w3p:PR",
    "REC" := "w3p:REC",
    "PER" := "w3p:PER",
    "RSCND" := "w3p:RSCND"
  ]

  /** The short human-readable name of every known status. */
  const Status2Text: map<string, string> := map[
    "NOTE" := "Note",
    "WG-NOTE" := "Working Group Note",
    "CG-NOTE" := "Co-ordination Group Note",
    "IG-NOTE" := "Interest Group Note",
    "Member-SUBM" := "Member Submission",
    "Team-SUBM" := "Team Submission",
    "MO" := "Member-Only Document",
    "ED" := "Editor's Draft",
    "FPWD" := "First Public Working Draft",
    "WD" := "Working Draft",
    "FPWD-NOTE" := "Working Group Note",
    "WD-NOTE" := "Working Draft",
    "LC-NOTE" := "Working Draft",
    "FPLC" := "First Public and Last Call Working Draft",
    "LC" := "Last Call Working Draft",
    "CR" := "Candidate Recommendation",
    "PR" := "Proposed Recommendation",
    "PER" := "Proposed Edited Recommendation",
    "REC" := "Recommendation",
    "RSCND" := "Rescinded Recommendation",
    "unofficial" := "Unofficial Draft",
    "base" := "Document",
    "finding" := "TAG Finding",
    "draft-finding" := "Draft TAG Finding",
    "CG-DRAFT" := "Draft Community Group Specification",
    "CG-FINAL" := "Final Community Group Specification",
    "BG-DRAFT" := "Draft Business Group Specification",
    "BG-FINAL" := "Final Business Group Specification"
  ]

  /** The long names the module starts with; the rest are filled in from Status2Text. */
  const Status2LongInitial: map<string, string> := map[
    "FPWD-NOTE" := "First Public Working Group Note",
    "LC-NOTE" := "Last Call Working Draft"
  ]

  const RecTrackStatus: seq<string> := ["FPWD", "WD", "FPLC", "LC", "CR", "PR", "PER", "REC"]

  const NoTrackStatus: seq<string> :=
    ["MO", "unofficial", "base", "finding", "draft-finding", "CG-DRAFT", "CG-FINAL", "BG-DRAFT", "BG-FINAL"]

  /** Community and Business Group statuses. */
  const Cgbg: seq<string> := ["CG-DRAFT", "CG-FINAL", "BG-DRAFT", "BG-FINAL"]

  /** Statuses whose name takes the article "an". */
  const PrecededByAn: seq<string> := ["ED", "IG-NOTE"]

  /** `$.inArray(status, list) >= 0`: an undefined status is in no list. */
  predicate InList(status: Option<string>, list: seq<string>)
  {
    status.Some? && status.value in list
  }

  /** `table[key]`: undefined for an undefined or unknown key. */
  function Lookup(table: map<string, string>, key: Option<string>): (r: Option<string>)
    ensures r.Some? <==> key.Some? && key.value in table
    ensures r.Some? ==> r.value == table[key.value]
  {
    if key.Some? && key.value in table then Some(table[key.value]) else None
  }

  /** Every entry of the constant tables is a non-empty string, so that
      the source's truthiness tests on a lookup are tests for presence. */
  lemma TablesHaveTruthyValues()
    ensures forall k :: k in Status2Maturity ==> Status2Maturity[k] != ""
    ensures forall k :: k in Status2Rdf ==> Status2Rdf[k] != ""
    ensures forall k :: k in Status2Text ==> Status2Text[k] != ""
    ensures forall k :: k in Status2LongInitial ==> Status2LongInitial[k] != ""
  {
  }

  /** No status is both on and off the Recommendation track, and every
      Community or Business Group status is off it. */
  lemma TracksAreDisjoint()
    ensures forall s :: s in RecTrackStatus ==> s !in NoTrackStatus
    ensures forall s :: s in Cgbg ==> s in NoTrackStatus
  {
  }
}
