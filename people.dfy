/** The `showPeople` template helper: the `<dd>` list of editors or authors
    in the document header, with RDFa attributes unless RDFa is switched off. */
module People {
  import opened JsValues

  /** An editor or author record of the configuration. */
  datatype Person = Person(
    name: Option<string>,
    url: Option<string>,
    company: Option<string>,
    companyURL: Option<string>,
    mailto: Option<string>,
    note: Option<string>)

  /** The `doRDFa` setting: `false`, left undefined, or any other value
      (the run fills an undefined one in with "1.1"). */
  datatype Rdfa = RdfaOff | RdfaUnset | RdfaOn(version: string)

  /** `doRDFa !== false` */
  predicate RdfaEnabled(d: Rdfa)
  {
    !d.RdfaOff?
  }

  /** The six RDFa attribute fragments the helper splices into its markup. */
  datatype RdfaAttrs = RdfaAttrs(
    role: string,        // rel of the <dd>: bibo:editor or dcterms:contributor
    person: string,      // typeof of the inner <span>
    mbox: string,        // rel of the mailto link
    name: string,        // property of the name
    workplace: string,   // rel of the company link
    homepage: string)    // rel of the personal link

  const NoAttrs := RdfaAttrs("", "", "", "", "", "")

  function Attributes(role: string, d: Rdfa): RdfaAttrs
  {
    if !RdfaEnabled(d) then NoAttrs
    else
      var re :=
        if role == "Editor" then
          " rel='bibo:editor'" + (if d != RdfaOn("1.0") then " inlist=''" else "")
        else if role == "Author" then " rel='dcterms:contributor'"
        else "";
      RdfaAttrs(re, " typeof='foaf:Person'", " rel='foaf:mbox'", " property='foaf:name'",
                " rel='foaf:workplaceHomepage'", " rel='foaf:homepage'")
  }

  /** The person's name, linked to their home page when they have one. */
  function NameHtml(p: Person, a: RdfaAttrs, rdfa: bool): string
  {
    if Truthy(p.url) then
      if rdfa then
        "<a class='u-url url p-name fn' " + a.homepage + a.name + " content='" + Str(p.name) +
        "' href='" + p.url.value + "'>" + Str(p.name) + "</a>"
      else
        "<a class='u-url url p-name fn' href='" + p.url.value + "'>" + Str(p.name) + "</a>"
    else
      "<span" + a.name + " class='p-name fn'>" + Str(p.name) + "</span>"
  }

  function CompanyHtml(p: Person, a: RdfaAttrs): string
  {
    if Truthy(p.company) then
      ", " +
      if Truthy(p.companyURL) then
        "<a" + a.workplace + " class='p-org org h-org h-card' href='" + p.companyURL.value + "'>" +
        p.company.value + "</a>"
      else p.company.value
    else ""
  }

  function MailHtml(p: Person, a: RdfaAttrs): string
  {
    if Truthy(p.mailto) then
      ", <span class='ed_mailto'><a class='u-email email' " + a.mbox + " href='mailto:" +
      p.mailto.value + "'>" + p.mailto.value + "</a></span>"
    else ""
  }

  function NoteHtml(p: Person): string
  {
    if Truthy(p.note) then " (" + p.note.value + ")" else ""
  }

  const DdOpen := "<dd class='p-author h-card vcard'"
  const DdClose := "</dd>\n"

  function OpenHtml(a: RdfaAttrs, rdfa: bool): string
  {
    if rdfa then DdOpen + " " + a.role + "><span" + a.person + ">" else DdOpen + ">"
  }

  function CloseHtml(rdfa: bool): string
  {
    if rdfa then "</span>\n" + DdClose else DdClose
  }

  /** The whole `<dd>` entry of one person. */
  function Entry(p: Person, a: RdfaAttrs, rdfa: bool): string
  {
    OpenHtml(a, rdfa) + NameHtml(p, a, rdfa) + CompanyHtml(p, a) + MailHtml(p, a) + NoteHtml(p) + CloseHtml(rdfa)
  }

  /** The entry of each person, in the order of the list. */
  function Entries(items: seq<Person>, a: RdfaAttrs, rdfa: bool): seq<string>
  {
    seq(|items|, i requires 0 <= i < |items| => Entry(items[i], a, rdfa))
  }

  /** The strings of a list, one after another. */
  function Concat(parts: seq<string>): string
  {
    if |parts| == 0 then "" else Concat(parts[..|parts| - 1]) + parts[|parts| - 1]
  }

  /** What the helper returns: one entry per person, in order. */
  function PeopleHtml(items: seq<Person>, a: RdfaAttrs, rdfa: bool): string
  {
    Concat(Entries(items, a, rdfa))
  }

  /** The markup of one person with RDFa switched off, written without any
      RDFa slot: the reference the helper's RDFa-free output must match. */
  function PlainEntry(p: Person): string
  {
    "<dd class='p-author h-card vcard'>" + PlainName(p) + PlainCompany(p) + PlainMail(p) + NoteHtml(p) + "</dd>\n"
  }

  function PlainName(p: Person): string
  {
    if Truthy(p.url) then "<a class='u-url url p-name fn' href='" + p.url.value + "'>" + Str(p.name) + "</a>"
    else "<span class='p-name fn'>" + Str(p.name) + "</span>"
  }

  function PlainCompany(p: Person): string
  {
    if Truthy(p.company) then
      ", " + if Truthy(p.companyURL) then
               "<a class='p-org org h-org h-card' href='" + p.companyURL.value + "'>" + p.company.value + "</a>"
             else p.company.value
    else ""
  }

  function PlainMail(p: Person): string
  {
    if Truthy(p.mailto) then
      ", <span class='ed_mailto'><a class='u-email email'  href='mailto:" + p.mailto.value + "'>" +
      p.mailto.value + "</a></span>"
    else ""
  }

  /** Concatenation is associative; the step the string and message
      accumulations rely on. */
  lemma Associative<T>(x: seq<T>, y: seq<T>, z: seq<T>)
    ensures (x + y) + z == x + (y + z)
  {
  }

  /** The person's name, linked to their page when they have one, appended to `entry`. */
  method AppendName(entry: string, p: Person, a: RdfaAttrs, rdfa: bool) returns (r: string)
    ensures r == entry + NameHtml(p, a, rdfa)
  {
    if Truthy(p.url) {
      if rdfa {
        r := entry + ("<a class='u-url url p-name fn' " + a.homepage + a.name + " content='" +
                      Str(p.name) + "' href='" + p.url.value + "'>" + Str(p.name) + "</a>");
      } else {
        r := entry + ("<a class='u-url url p-name fn' href='" + p.url.value + "'>" + Str(p.name) + "</a>");
      }
    } else {
      r := entry + ("<span" + a.name + " class='p-name fn'>" + Str(p.name) + "</span>");
    }
  }

  /** The person's company, if any, appended to `entry` after ", ". */
  method AppendCompany(entry: string, p: Person, a: RdfaAttrs) returns (r: string)
    ensures r == entry + CompanyHtml(p, a)
  {
    r := entry;
    if Truthy(p.company) {
      r := r + ", ";
      if Truthy(p.companyURL) {
        r := r + ("<a" + a.workplace + " class='p-org org h-org h-card' href='" +
                  p.companyURL.value + "'>" + p.company.value + "</a>");
      } else {
        r := r + p.company.value;
      }
      Associative(entry, ", ", r[|entry| + 2..]);
    }
  }

  /** One iteration of the helper's loop: the markup of one person, appended piece by piece. */
  method BuildEntry(p: Person, a: RdfaAttrs, rdfa: bool) returns (entry: string)
    ensures entry == Entry(p, a, rdfa)
  {
    if rdfa {
      entry := DdOpen + " " + a.role + "><span" + a.person + ">";
    } else {
      entry := DdOpen + ">";
    }
    entry := AppendName(entry, p, a, rdfa);
    entry := AppendCompany(entry, p, a);
    if Truthy(p.mailto) {
      entry := entry + (", <span class='ed_mailto'><a class='u-email email' " + a.mbox + " href='mailto:" +
                        p.mailto.value + "'>" + p.mailto.value + "</a></span>");
    }
    if Truthy(p.note) {
      entry := entry + (" (" + p.note.value + ")");
    }
    ghost var body := entry;
    assert body == OpenHtml(a, rdfa) + NameHtml(p, a, rdfa) + CompanyHtml(p, a) + MailHtml(p, a) + NoteHtml(p);
    if rdfa {
      entry := entry + "</span>\n";
    }
    entry := entry + DdClose;
    Associative(body, if rdfa then "</span>\n" else "", DdClose);
  }

  /** The helper itself: builds the entries one after another. */
  method ShowPeople(role: string, items: seq<Person>, doRDFa: Rdfa) returns (ret: string)
    ensures ret == PeopleHtml(items, Attributes(role, doRDFa), RdfaEnabled(doRDFa))
  {
    var a := Attributes(role, doRDFa);
    var rdfa := RdfaEnabled(doRDFa);
    ret := "";
    var i := 0;
    while i < |items|
      invariant 0 <= i <= |items|
      invariant ret == Concat(Entries(items, a, rdfa)[..i])
    {
      var p := items[i];
      var entry := BuildEntry(p, a, rdfa);
      ret := ret + entry;
      assert Entries(items, a, rdfa)[..i + 1][..i] == Entries(items, a, rdfa)[..i];
      i := i + 1;
    }
    assert Entries(items, a, rdfa)[..i] == Entries(items, a, rdfa);
  }


  /** Concatenating two lists of strings concatenates their concatenations. */
  lemma {:induction false} ConcatAppend(xs: seq<string>, ys: seq<string>)
    ensures Concat(xs + ys) == Concat(xs) + Concat(ys)
    decreases |ys|
  {
    if |ys| == 0 {
      assert xs + ys == xs;
    } else {
      assert (xs + ys)[..|xs + ys| - 1] == xs + ys[..|ys| - 1];
      ConcatAppend(xs, ys[..|ys| - 1]);
      Associative(Concat(xs), Concat(ys[..|ys| - 1]), ys[|ys| - 1]);
    }
  }

  /** The markup of two lists of people, one after the other, is the
      markup of the joined list: the helper's output has one entry per
      person in list order and nothing between the entries. */
  lemma PeopleHtmlAppend(xs: seq<Person>, ys: seq<Person>, a: RdfaAttrs, rdfa: bool)
    ensures PeopleHtml(xs + ys, a, rdfa) == PeopleHtml(xs, a, rdfa) + PeopleHtml(ys, a, rdfa)
  {
    var l, r := Entries(xs, a, rdfa), Entries(ys, a, rdfa);
    forall i | 0 <= i < |xs + ys|
      ensures Entries(xs + ys, a, rdfa)[i] == (l + r)[i]
    {
      if i < |xs| {
        assert (xs + ys)[i] == xs[i];
      } else {
        assert (xs + ys)[i] == ys[i - |xs|];
      }
    }
    assert Entries(xs + ys, a, rdfa) == l + r;
    ConcatAppend(l, r);
  }

  predicate StartsWith(s: string, prefix: string)
  {
    |prefix| <= |s| && s[..|prefix|] == prefix
  }

  predicate EndsWith(s: string, suffix: string)
  {
    |suffix| <= |s| && s[|s| - |suffix|..] == suffix
  }

  lemma StartsWithAppend(x: string, y: string, prefix: string)
    requires StartsWith(x, prefix)
    ensures StartsWith(x + y, prefix)
  {
    assert (x + y)[..|prefix|] == x[..|prefix|];
  }

  lemma EndsWithAppend(x: string, y: string, suffix: string)
    requires EndsWith(y, suffix)
    ensures EndsWith(x + y, suffix)
  {
    assert (x + y)[|x + y| - |suffix|..] == y[|y| - |suffix|..];
  }

  lemma EndsWithLastTwo(x: string, y: string, z: string)
    ensures EndsWith(x + y + z, y + z)
  {
    assert x + y + z == x + (y + z);
  }

  /** Every entry is one `<dd>` element closed by a line break. */
  lemma EntryIsDdElement(p: Person, a: RdfaAttrs, rdfa: bool)
    ensures StartsWith(Entry(p, a, rdfa), DdOpen)
    ensures EndsWith(Entry(p, a, rdfa), DdClose)
  {
    var o := OpenHtml(a, rdfa);
    assert StartsWith(o, DdOpen) by {
      assert StartsWith(DdOpen, DdOpen);
      if rdfa {
        StartsWithAppend(DdOpen, " ", DdOpen);
        StartsWithAppend(DdOpen + " ", a.role, DdOpen);
        StartsWithAppend(DdOpen + " " + a.role, "><span", DdOpen);
        StartsWithAppend(DdOpen + " " + a.role + "><span", a.person, DdOpen);
        StartsWithAppend(DdOpen + " " + a.role + "><span" + a.person, ">", DdOpen);
      } else {
        StartsWithAppend(DdOpen, ">", DdOpen);
      }
    }
    var n, c, m, t := NameHtml(p, a, rdfa), CompanyHtml(p, a), MailHtml(p, a), NoteHtml(p);
    var cl := CloseHtml(rdfa);
    StartsWithAppend(o, n, DdOpen);
    StartsWithAppend(o + n, c, DdOpen);
    StartsWithAppend(o + n + c, m, DdOpen);
    StartsWithAppend(o + n + c + m, t, DdOpen);
    StartsWithAppend(o + n + c + m + t, cl, DdOpen);
    assert EndsWith(cl, DdClose) by {
      assert EndsWith(DdClose, DdClose);
      if rdfa {
        EndsWithAppend("</span>\n", DdClose, DdClose);
      }
    }
    EndsWithAppend(o + n + c + m + t, cl, DdClose);
  }

  /** The name is a link exactly when the person has a URL, and a span
      otherwise; either way the element ends with the name. */
  lemma NameLinkedExactlyWithUrl(p: Person, a: RdfaAttrs, rdfa: bool)
    ensures Truthy(p.url) ==> StartsWith(NameHtml(p, a, rdfa), "<a class='u-url url p-name fn' ")
    ensures Truthy(p.url) ==> EndsWith(NameHtml(p, a, rdfa), Str(p.name) + "</a>")
    ensures !Truthy(p.url) ==> StartsWith(NameHtml(p, a, rdfa), "<span")
    ensures !Truthy(p.url) ==> EndsWith(NameHtml(p, a, rdfa), Str(p.name) + "</span>")
  {
    var nm := Str(p.name);
    var link := "<a class='u-url url p-name fn' ";
    if Truthy(p.url) {
      if rdfa {
        var x := link + a.homepage + a.name + " content='" + nm + "' href='" + p.url.value + "'>";
        assert StartsWith(link, link);
        StartsWithAppend(link, a.homepage, link);
        StartsWithAppend(link + a.homepage, a.name, link);
        StartsWithAppend(link + a.homepage + a.name, " content='", link);
        StartsWithAppend(link + a.homepage + a.name + " content='", nm, link);
        StartsWithAppend(link + a.homepage + a.name + " content='" + nm, "' href='", link);
        StartsWithAppend(link + a.homepage + a.name + " content='" + nm + "' href='", p.url.value, link);
        StartsWithAppend(link + a.homepage + a.name + " content='" + nm + "' href='" + p.url.value, "'>", link);
        StartsWithAppend(x, nm, link);
        StartsWithAppend(x + nm, "</a>", link);
        EndsWithLastTwo(x, nm, "</a>");
      } else {
        var open := "<a class='u-url url p-name fn' href='";
        var x := open + p.url.value + "'>";
        assert StartsWith(open, link);
        StartsWithAppend(open, p.url.value, link);
        StartsWithAppend(open + p.url.value, "'>", link);
        StartsWithAppend(x, nm, link);
        StartsWithAppend(x + nm, "</a>", link);
        EndsWithLastTwo(x, nm, "</a>");
      }
    } else {
      var x := "<span" + a.name + " class='p-name fn'>";
      assert StartsWith("<span", "<span");
      StartsWithAppend("<span", a.name, "<span");
      StartsWithAppend("<span" + a.name, " class='p-name fn'>", "<span");
      StartsWithAppend(x, nm, "<span");
      StartsWithAppend(x + nm, "</span>", "<span");
      EndsWithLastTwo(x, nm, "</span>");
    }
  }

  /** A linked name points at the person's own URL: the link ends with
      `href='url'>name</a>`. */
  lemma NameLinksToUrl(p: Person, a: RdfaAttrs, rdfa: bool)
    requires Truthy(p.url)
    ensures EndsWith(NameHtml(p, a, rdfa), "href='" + p.url.value + "'>" + Str(p.name) + "</a>")
  {
    var nm, u := Str(p.name), p.url.value;
    var tail := "href='" + u + "'>" + nm + "</a>";
    var head := if rdfa then "<a class='u-url url p-name fn' " + a.homepage + a.name + " content='" + nm + "' "
                else "<a class='u-url url p-name fn' ";
    assert NameHtml(p, a, rdfa) == head + tail by {
      if rdfa {
        assert "' href='" == "' " + "href='";
      } else {
        assert "<a class='u-url url p-name fn' href='" == "<a class='u-url url p-name fn' " + "href='";
      }
    }
    assert EndsWith(tail, tail);
    EndsWithAppend(head, tail, tail);
  }

  /** A note ends the entry's content as " (note)", just before the closing tags. */
  lemma NoteClosesContent(p: Person, a: RdfaAttrs, rdfa: bool)
    requires Truthy(p.note)
    ensures EndsWith(Entry(p, a, rdfa), " (" + p.note.value + ")" + CloseHtml(rdfa))
  {
    var head := OpenHtml(a, rdfa) + NameHtml(p, a, rdfa) + CompanyHtml(p, a) + MailHtml(p, a);
    EndsWithLastTwo(head, NoteHtml(p), CloseHtml(rdfa));
  }

  /** With `doRDFa` false the attribute fragments are all empty, so an
      entry carries no rel, property or typeof attribute: it is exactly the
      RDFa-free markup. */
  lemma RdfaOffGivesPlainMarkup(role: string, p: Person)
    ensures Attributes(role, RdfaOff) == NoAttrs
    ensures Entry(p, Attributes(role, RdfaOff), RdfaEnabled(RdfaOff)) == PlainEntry(p)
  {
    PlainNameWhenRdfaOff(p);
    PlainCompanyWhenRdfaOff(p);
    PlainMailWhenRdfaOff(p);
    assert OpenHtml(NoAttrs, false) == "<dd class='p-author h-card vcard'>";
  }

  lemma PlainNameWhenRdfaOff(p: Person)
    ensures NameHtml(p, NoAttrs, false) == PlainName(p)
  {
    if !Truthy(p.url) {
      assert "<span" + "" + " class='p-name fn'>" == "<span class='p-name fn'>";
    }
  }

  lemma PlainCompanyWhenRdfaOff(p: Person)
    ensures CompanyHtml(p, NoAttrs) == PlainCompany(p)
  {
    if Truthy(p.company) && Truthy(p.companyURL) {
      assert "<a" + "" + " class='p-org org h-org h-card' href='" == "<a class='p-org org h-org h-card' href='";
    }
  }

  lemma PlainMailWhenRdfaOff(p: Person)
    ensures MailHtml(p, NoAttrs) == PlainMail(p)
  {
    if Truthy(p.mailto) {
      assert ", <span class='ed_mailto'><a class='u-email email' " + "" + " href='mailto:" ==
             ", <span class='ed_mailto'><a class='u-email email'  href='mailto:";
    }
  }

  /** With RDFa on, editors are `bibo:editor` (in a list unless RDFa 1.0),
      authors `dcterms:contributor`, and every person a `foaf:Person`. */
  lemma RdfaRoles(role: string, d: Rdfa)
    requires RdfaEnabled(d)
    ensures Attributes(role, d).person == " typeof='foaf:Person'"
    ensures Attributes(role, d).name == " property='foaf:name'"
    ensures role == "Editor" ==>
      Attributes(role, d).role == if d == RdfaOn("1.0") then " rel='bibo:editor'" else " rel='bibo:editor' inlist=''"
    ensures role == "Author" ==> Attributes(role, d).role == " rel='dcterms:contributor'"
    ensures role != "Editor" && role != "Author" ==> Attributes(role, d).role == ""
  {
  }
}
