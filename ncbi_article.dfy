/** The detailed PubMed record of the article-fetch connector
    (`_parse_detailed_article_xml` and its `_parse_*` helpers): one
    `PubmedArticle` element read into a dictionary of authors, journal,
    dates, structured abstract, identifiers, MeSH terms, grants and the
    conflict-of-interest statement. Each helper builds its list or
    dictionary step by step; every loop is a method proved equal to the
    function that describes its result, and the properties are stated about
    those functions. */
module NcbiArticle {
  import opened Outcomes
  import opened PyText
  import opened Json
  import opened Seqs
  import opened XmlTree
  import NcbiSearch

  /** The text of an element that was found, as the value assigned by
      `if e is not None: d[key] = e.text`. */
  function FoundText(e: Option<Element>): (r: Option<Json>)
    ensures e.None? <==> r.None?
  {
    match e
    case None => None
    case Some(x) => Some(TextValue(x))
  }

  // ---------------------------------------------------------------------------
  // Authors (`_parse_authors`)
  // ---------------------------------------------------------------------------

  /** What follows the last name in the full name: `", " + ForeName`, or
      else `", " + Initials`, or nothing. */
  function NameSuffix(first: Option<Element>, initials: Option<Element>): string
  {
    match first
    case Some(f) => ", " + TextInterp(f)
    case None =>
      match initials
      case Some(i) => ", " + TextInterp(i)
      case None => ""
  }

  /** The name fields of an author from its `LastName`, `ForeName` and
      `Initials`: none without a last name; otherwise the last name, the
      fore name or else the initials, and the full name. Extending a last
      name that has no text raises. */
  function NameFields(last: Option<Element>, first: Option<Element>, initials: Option<Element>)
    : (r: Outcome<seq<(string, Json)>>)
    ensures r.Ok? ==> (r.value == [] <==> last.None?)
    ensures r.Raised? <==> last.Some? && last.value.text.None? && (first.Some? || initials.Some?)
    ensures last.Some? && last.value.text.Some? ==>
              r.Ok? && Lookup(r.value, "full_name") == Some(JStr(last.value.text.value + NameSuffix(first, initials)))
    ensures last.Some? && r.Ok? ==> Lookup(r.value, "last_name") == Some(TextValue(last.value))
  {
    match last
    case None => Ok([])
    case Some(l) =>
      var d := Put([], "last_name", TextValue(l));
      match first
      case Some(f) =>
        var full :- TextAppend(l, ", " + TextInterp(f));
        Ok(Put(Put(d, "first_name", TextValue(f)), "full_name", JStr(full)))
      case None =>
        match initials
        case Some(i) =>
          var full :- TextAppend(l, ", " + TextInterp(i));
          Ok(Put(Put(d, "initials", TextValue(i)), "full_name", JStr(full)))
        case None =>
          assert l.text.Some? ==> l.text.value + "" == l.text.value;
          Ok(Put(d, "full_name", TextValue(l)))
  }

  /** `AffiliationInfo/Affiliation` below the author. */
  function Affiliation(author: Element): Option<Element>
  {
    FindPath(author, "AffiliationInfo", "Affiliation")
  }

  /** An author's fields: the name fields, then the affiliation. */
  function AuthorFields(names: seq<(string, Json)>, affiliation: Option<Element>): (r: seq<(string, Json)>)
    ensures r == [] <==> names == [] && affiliation.None?
  {
    var fields := [("affiliation", FoundText(affiliation))];
    PutPresentEmpty(names, fields);
    PutPresent(names, fields)
  }

  /** One author's dictionary, or `None` when it has no field. */
  function AuthorRecord(author: Element): Outcome<Option<Json>>
  {
    var names :- NameFields(Find(author, "LastName"), Find(author, "ForeName"), Find(author, "Initials"));
    var info := AuthorFields(names, Affiliation(author));
    Ok(if info == [] then None else Some(JObj(info)))
  }

  /** An author is kept iff it has a last name or an affiliation; reading it
      raises iff a missing last-name text would have to be extended; the
      full name is `"Last, First"`, else `"Last, Initials"`, else `"Last"`. */
  lemma AuthorRecordFields(author: Element)
    ensures var last := Find(author, "LastName");
            var r := AuthorRecord(author);
            && (r.Raised? <==> last.Some? && last.value.text.None? &&
                               (Find(author, "ForeName").Some? || Find(author, "Initials").Some?))
            && (r.Ok? ==> (r.value.Some? <==> last.Some? || Affiliation(author).Some?))
            && (r.Ok? && r.value.Some? ==> r.value.value.JObj?)
            && (last.Some? && last.value.text.Some? ==>
                  r.Ok? && r.value.Some? &&
                  Lookup(r.value.value.entries, "full_name") ==
                    Some(JStr(last.value.text.value + NameSuffix(Find(author, "ForeName"), Find(author, "Initials")))))
  {
    var last := Find(author, "LastName");
    var names := NameFields(last, Find(author, "ForeName"), Find(author, "Initials"));
    var aff := Affiliation(author);
    if names.Ok? {
      var info := AuthorFields(names.value, aff);
      assert AuthorRecord(author) == Ok(if info == [] then None else Some(JObj(info)));
      if last.Some? && last.value.text.Some? {
        PutPresentOther(names.value, [("affiliation", FoundText(aff))], "full_name");
      }
    }
  }

  /** The authors' loop: every kept author in order, with no cap. */
  method ParseAuthors(authors: seq<Element>) returns (r: Outcome<seq<Json>>)
    ensures r == TryFilterMap(authors, AuthorRecord)
  {
    r := TryCollect(authors, AuthorRecord);
  }

  /** Authors are not capped: when every author has a last name with text,
      every author is listed. */
  lemma AllAuthorsListed(authors: seq<Element>)
    requires forall i :: 0 <= i < |authors| ==> Find(authors[i], "LastName").Some? &&
                                                Find(authors[i], "LastName").value.text.Some?
    ensures TryFilterMap(authors, AuthorRecord).Ok?
    ensures |TryFilterMap(authors, AuthorRecord).value| == |authors|
  {
    forall i | 0 <= i < |authors|
      ensures AuthorRecord(authors[i]).Ok? && AuthorRecord(authors[i]).value.Some?
    {
      AuthorRecordFields(authors[i]);
    }
    TryFilterMapOk(authors, AuthorRecord, (x: Element) => Caught(AuthorRecord(x)));
    FilterMapAllPresent(authors, (x: Element) => Caught(AuthorRecord(x)));
  }

  // ---------------------------------------------------------------------------
  // Journal and dates (`_parse_journal_info`, `_parse_publication_date`)
  // ---------------------------------------------------------------------------

  /** The journal dictionary from its `Title`, `ISOAbbreviation`, `ISSN`,
      `JournalIssue/Volume` and `JournalIssue/Issue`: each field only when
      its element exists, the ISSN type defaulting to `""`. */
  function JournalFields(title: Option<Element>, iso: Option<Element>, issn: Option<Element>,
                         volume: Option<Element>, issue: Option<Element>): seq<(string, Json)>
  {
    PutPresent([], JournalAssignments(title, iso, issn, volume, issue))
  }

  /** The assignments `_parse_journal_info` makes, in order. */
  function JournalAssignments(title: Option<Element>, iso: Option<Element>, issn: Option<Element>,
                              volume: Option<Element>, issue: Option<Element>): (r: seq<(string, Option<Json>)>)
    ensures forall a, b :: 0 <= a < b < |r| ==> r[a].0 != r[b].0
  {
    [("title", FoundText(title)), ("iso_abbreviation", FoundText(iso)), ("issn", FoundText(issn)),
     ("issn_type", if issn.Some? then Some(JStr(AttrOr(issn.value, "IssnType", ""))) else None),
     ("volume", FoundText(volume)), ("issue", FoundText(issue))]
  }

  /** Each journal field is present exactly when its element exists, and
      holds that element's text; the ISSN type defaults to `""`. */
  lemma JournalFieldsFound(title: Option<Element>, iso: Option<Element>, issn: Option<Element>,
                           volume: Option<Element>, issue: Option<Element>)
    ensures var r := JournalFields(title, iso, issn, volume, issue);
            && Lookup(r, "title") == FoundText(title)
            && Lookup(r, "iso_abbreviation") == FoundText(iso)
            && Lookup(r, "issn") == FoundText(issn)
            && Lookup(r, "issn_type") == (if issn.Some? then Some(JStr(AttrOr(issn.value, "IssnType", ""))) else None)
            && Lookup(r, "volume") == FoundText(volume)
            && Lookup(r, "issue") == FoundText(issue)
  {
    var fs := JournalAssignments(title, iso, issn, volume, issue);
    PutPresentLookup([], fs, 0);
    PutPresentLookup([], fs, 1);
    PutPresentLookup([], fs, 2);
    PutPresentLookup([], fs, 3);
    PutPresentLookup([], fs, 4);
    PutPresentLookup([], fs, 5);
  }

  /** The journal dictionary of an article, empty without a `Journal`. */
  function JournalInfo(article: Element): (r: seq<(string, Json)>)
    ensures Find(article, "Journal").None? ==> r == []
  {
    match Find(article, "Journal")
    case None => []
    case Some(j) =>
      JournalFields(Find(j, "Title"), Find(j, "ISOAbbreviation"), Find(j, "ISSN"),
                    FindPath(j, "JournalIssue", "Volume"), FindPath(j, "JournalIssue", "Issue"))
  }

  /** `e.text.zfill(width)`: a missing text has no `zfill`. */
  function ZFillText(e: Element, width: nat): (r: Outcome<string>)
    ensures r.Ok? <==> e.text.Some?
    ensures r.Ok? ==> r.value == ZFill(e.text.value, width)
  {
    match e.text
    case None => Raised
    case Some(t) => Ok(ZFill(t, width))
  }

  /** The `ArticleDate` fields from its `Year`, `Month` and `Day`: nothing
      without a year; `article_date` is `Y`, `Y-MM` or `Y-MM-DD`, the day
      counting only after a month. A missing text that must be padded or
      extended raises. */
  function ArticleDateFields(d: seq<(string, Json)>, year: Option<Element>, month: Option<Element>, day: Option<Element>)
    : (r: Outcome<seq<(string, Json)>>)
    ensures year.None? ==> r == Ok(d)
    ensures year.Some? && month.None? ==> r.Ok? && Lookup(r.value, "article_date") == Some(TextValue(year.value))
    ensures year.Some? && year.value.text.Some? && month.Some? && month.value.text.Some? && day.None? ==>
              r.Ok? && Lookup(r.value, "article_date") == Some(JStr(year.value.text.value + "-" + ZFill(month.value.text.value, 2)))
    ensures year.Some? && year.value.text.Some? && month.Some? && month.value.text.Some? && day.Some? && day.value.text.Some? ==>
              r.Ok? && Lookup(r.value, "article_date") ==
                         Some(JStr(year.value.text.value + "-" + ZFill(month.value.text.value, 2) + "-" + ZFill(day.value.text.value, 2)))
    ensures r.Raised? <==> year.Some? && month.Some? &&
                           (year.value.text.None? || month.value.text.None? || (day.Some? && day.value.text.None?))
  {
    match year
    case None => Ok(d)
    case Some(y) =>
      var d1 := Put(d, "year", TextValue(y));
      match month
      case None => Ok(Put(d1, "article_date", TextValue(y)))
      case Some(m) =>
        var d2 := Put(d1, "month", TextValue(m));
        var mm :- ZFillText(m, 2);
        var s :- TextAppend(y, "-" + mm);
        match day
        case None =>
          assert s == y.text.value + "-" + mm;
          Ok(Put(d2, "article_date", JStr(s)))
        case Some(dy) =>
          var d3 := Put(d2, "day", TextValue(dy));
          var dd :- ZFillText(dy, 2);
          assert s + "-" + dd == y.text.value + "-" + mm + "-" + dd;
          Ok(Put(d3, "article_date", JStr(s + "-" + dd)))
  }

  /** The `PubDate` field from its `Year` and `Month`: `journal_date` is
      `Y`, or `Y M` with a month. */
  function JournalDateFields(d: seq<(string, Json)>, year: Option<Element>, month: Option<Element>)
    : (r: Outcome<seq<(string, Json)>>)
    ensures year.None? ==> r == Ok(d)
    ensures year.Some? && month.None? ==> r == Ok(Put(d, "journal_date", TextValue(year.value)))
    ensures year.Some? && year.value.text.Some? && month.Some? ==>
              r == Ok(Put(d, "journal_date", JStr(year.value.text.value + " " + TextInterp(month.value))))
    ensures r.Raised? <==> year.Some? && year.value.text.None? && month.Some?
  {
    match year
    case None => Ok(d)
    case Some(y) =>
      match month
      case None => Ok(Put(d, "journal_date", TextValue(y)))
      case Some(m) =>
        var s :- TextAppend(y, " " + TextInterp(m));
        assert s == y.text.value + " " + TextInterp(m);
        Ok(Put(d, "journal_date", JStr(s)))
  }

  /** The `ArticleDate` part of an article. */
  function ArticleDateInfo(d: seq<(string, Json)>, articleDate: Option<Element>): (r: Outcome<seq<(string, Json)>>)
    ensures articleDate.None? ==> r == Ok(d)
  {
    match articleDate
    case None => Ok(d)
    case Some(ad) => ArticleDateFields(d, Find(ad, "Year"), Find(ad, "Month"), Find(ad, "Day"))
  }

  /** The `PubDate` part of an article. */
  function JournalDateInfo(d: seq<(string, Json)>, pubDate: Option<Element>): (r: Outcome<seq<(string, Json)>>)
    ensures pubDate.None? ==> r == Ok(d)
  {
    match pubDate
    case None => Ok(d)
    case Some(p) => JournalDateFields(d, Find(p, "Year"), Find(p, "Month"))
  }

  /** The publication-date dictionary. */
  function PubDateInfo(article: Element): (r: Outcome<seq<(string, Json)>>)
    ensures Find(article, "ArticleDate").None? && Find(article, "PubDate").None? ==> r == Ok([])
  {
    var d :- ArticleDateInfo([], Find(article, "ArticleDate"));
    JournalDateInfo(d, Find(article, "PubDate"))
  }

  // ---------------------------------------------------------------------------
  // Structured abstract (`_parse_structured_abstract`)
  // ---------------------------------------------------------------------------

  /** The `AbstractText` elements below `Abstract`, or none. */
  function AbstractTexts(article: Element): (r: seq<Element>)
    ensures Find(article, "Abstract").None? ==> r == []
  {
    match Find(article, "Abstract")
    case None => []
    case Some(a) => FindAll(a, "AbstractText")
  }

  function Label(e: Element): string
  {
    AttrOr(e, "Label", "")
  }

  /** One part of the full text: `"Label: text"`, or the text alone. */
  function AbstractPart(e: Element): string
  {
    if Label(e) != [] then Label(e) + ": " + TextOrEmpty(e) else TextOrEmpty(e)
  }

  /** A labelled part starts with its label and a colon; every part ends
      with the element's text. */
  lemma AbstractPartForm(e: Element)
    ensures Label(e) == [] ==> AbstractPart(e) == TextOrEmpty(e)
    ensures Label(e) != [] ==> StartsWith(AbstractPart(e), Label(e) + ": ")
    ensures EndsWith(AbstractPart(e), TextOrEmpty(e))
  {
    var r := AbstractPart(e);
    var t := TextOrEmpty(e);
    if Label(e) != [] {
      assert r[..|Label(e) + ": "|] == Label(e) + ": ";
    }
    assert r[|r| - |t|..] == t;
  }

  /** A labelled part becomes a section. */
  function SectionOf(e: Element): (r: Option<Json>)
    ensures r.Some? <==> Label(e) != []
  {
    if Label(e) != [] then Some(JObj([("label", JStr(Label(e))), ("text", JStr(TextOrEmpty(e)))])) else None
  }

  /** The parts of the full text, one per `AbstractText`, in order. */
  function AbstractParts(texts: seq<Element>): (r: seq<string>)
    ensures |r| == |texts| && forall i :: 0 <= i < |texts| ==> r[i] == AbstractPart(texts[i])
  {
    seq(|texts|, i requires 0 <= i < |texts| => AbstractPart(texts[i]))
  }

  /** The abstract dictionary: the space-joined parts and the labelled
      sections. */
  function AbstractInfo(article: Element): (r: Json)
    ensures AbstractTexts(article) == [] ==> r == JObj([("text", JStr("")), ("sections", JArr([]))])
  {
    var texts := AbstractTexts(article);
    JObj([("text", JStr(Join(" ", AbstractParts(texts)))), ("sections", JArr(FilterMap(texts, SectionOf)))])
  }

  /** The abstract loop, appending to the full text and to the sections. */
  method ParseAbstract(article: Element) returns (info: Json)
    ensures info == AbstractInfo(article)
  {
    var texts := AbstractTexts(article);
    var fullText: seq<string> := [];
    var sections: seq<Json> := [];
    for i := 0 to |texts|
      invariant fullText == AbstractParts(texts[..i])
      invariant sections == FilterMap(texts[..i], SectionOf)
    {
      var t := TextOrEmpty(texts[i]);
      var heading := AttrOr(texts[i], "Label", "");
      AbstractStep(texts, i);
      if heading != [] {
        sections := sections + [JObj([("label", JStr(heading)), ("text", JStr(t))])];
        fullText := fullText + [heading + ": " + t];
      } else {
        fullText := fullText + [t];
      }
    }
    assert texts[..|texts|] == texts;
    info := JObj([("text", JStr(Join(" ", fullText))), ("sections", JArr(sections))]);
  }

  lemma AbstractStep(texts: seq<Element>, i: nat)
    requires i < |texts|
    ensures AbstractParts(texts[..i + 1]) == AbstractParts(texts[..i]) + [AbstractPart(texts[i])]
    ensures FilterMap(texts[..i + 1], SectionOf) ==
              FilterMap(texts[..i], SectionOf) + (if SectionOf(texts[i]).Some? then [SectionOf(texts[i]).value] else [])
  {
    assert texts[..i + 1] == texts[..i] + [texts[i]];
    FilterMapSnoc(texts[..i], texts[i], SectionOf);
  }

  /** The sections are exactly the labelled parts, so there are never more
      sections than `AbstractText` elements. */
  lemma SectionsAreLabelled(article: Element, s: Json)
    ensures var texts := AbstractTexts(article);
            var sections := FilterMap(texts, SectionOf);
            && |sections| <= |texts|
            && (s in sections <==> exists i :: 0 <= i < |texts| && Label(texts[i]) != [] && SectionOf(texts[i]) == Some(s))
  {
    FilterMapLength(AbstractTexts(article), SectionOf);
    FilterMapMembers(AbstractTexts(article), SectionOf, s);
  }

  // ---------------------------------------------------------------------------
  // Identifiers (`_parse_article_ids`)
  // ---------------------------------------------------------------------------

  const DoiUrlPrefix := "https://doi.org/"
  const PmcUrlPrefix := "https://www.ncbi.nlm.nih.gov/pmc/articles/"

  function IdType(e: Element): string
  {
    AttrOr(e, "IdType", "")
  }

  /** One id: `ids[type] = value`, then the DOI or PMC link for those two
      types. */
  function IdStep(ids: seq<(string, Json)>, e: Element): (r: seq<(string, Json)>)
  {
    var value := TextOrEmpty(e);
    var d := Put(ids, IdType(e), JStr(value));
    if IdType(e) == "doi" then Put(d, "doi_url", JStr(DoiUrlPrefix + value))
    else if IdType(e) == "pmc" then Put(d, "pmc_url", JStr(PmcUrlPrefix + value + "/"))
    else d
  }

  /** An id leaves alone every key other than its type and the link it
      adds. */
  lemma IdStepKeeps(ids: seq<(string, Json)>, e: Element, k: string)
    requires k != IdType(e)
    requires k == "doi_url" ==> IdType(e) != "doi"
    requires k == "pmc_url" ==> IdType(e) != "pmc"
    ensures Lookup(IdStep(ids, e), k) == Lookup(ids, k)
  {
    var d := Put(ids, IdType(e), JStr(TextOrEmpty(e)));
    assert Lookup(d, k) == Lookup(ids, k);
  }

  /** The id dictionary after the given ids, in order. */
  function IdsOf(elems: seq<Element>): (r: seq<(string, Json)>)
    decreases |elems|
  {
    if elems == [] then [] else IdStep(IdsOf(elems[..|elems| - 1]), elems[|elems| - 1])
  }

  /** The last id leaves alone every key other than its type and its
      link. */
  lemma IdsLastKeeps(elems: seq<Element>, k: string)
    requires elems != []
    requires var e := elems[|elems| - 1];
             k != IdType(e) && (k == "doi_url" ==> IdType(e) != "doi") && (k == "pmc_url" ==> IdType(e) != "pmc")
    ensures Lookup(IdsOf(elems), k) == Lookup(IdsOf(elems[..|elems| - 1]), k)
  {
    IdStepKeeps(IdsOf(elems[..|elems| - 1]), elems[|elems| - 1], k);
  }

  /** The last id adds its DOI or PMC link. */
  lemma IdsLastLink(elems: seq<Element>)
    requires elems != []
    ensures var e := elems[|elems| - 1];
            && (IdType(e) == "doi" ==> Lookup(IdsOf(elems), "doi_url") == Some(JStr(DoiUrlPrefix + TextOrEmpty(e))))
            && (IdType(e) == "pmc" ==> Lookup(IdsOf(elems), "pmc_url") == Some(JStr(PmcUrlPrefix + TextOrEmpty(e) + "/")))
  {
    IdStepLinks(IdsOf(elems[..|elems| - 1]), elems[|elems| - 1]);
  }

  /** The id loop, assigning into the dictionary. */
  method ParseArticleIds(articleElem: Element) returns (ids: seq<(string, Json)>)
    ensures ids == IdsOf(NcbiSearch.IdElements(articleElem))
  {
    var elems := NcbiSearch.IdElements(articleElem);
    ids := [];
    for i := 0 to |elems|
      invariant ids == IdsOf(elems[..i])
    {
      assert elems[..i + 1][..i] == elems[..i];
      assert IdsOf(elems[..i + 1]) == IdStep(ids, elems[i]);
      ids := StoreId(ids, elems[i]);
    }
    assert elems[..|elems|] == elems;
  }

  /** The body of the id loop: the assignment, then the link for a DOI or a
      PMC id. */
  method StoreId(ids: seq<(string, Json)>, e: Element) returns (r: seq<(string, Json)>)
    ensures r == IdStep(ids, e)
  {
    var idType := AttrOr(e, "IdType", "");
    var value := TextOrEmpty(e);
    r := Put(ids, idType, JStr(value));
    if idType == "doi" {
      r := Put(r, "doi_url", JStr(DoiUrlPrefix + value));
    } else if idType == "pmc" {
      r := Put(r, "pmc_url", JStr(PmcUrlPrefix + value + "/"));
    }
  }

  /** Each id type holds the value of the last id of that type. */
  lemma {:induction false} IdsLastValue(elems: seq<Element>, i: nat)
    requires i < |elems| && IdType(elems[i]) != "doi_url" && IdType(elems[i]) != "pmc_url"
    requires forall j :: i < j < |elems| ==> IdType(elems[j]) != IdType(elems[i])
    ensures Lookup(IdsOf(elems), IdType(elems[i])) == Some(JStr(TextOrEmpty(elems[i])))
    decreases |elems|, 1
  {
    if i < |elems| - 1 {
      IdsLastValueEarlier(elems, i);
    } else {
      IdStepValue(IdsOf(elems[..|elems| - 1]), elems[i]);
    }
  }

  /** An id whose type is not a link key is stored under its type. */
  lemma IdStepValue(ids: seq<(string, Json)>, e: Element)
    requires IdType(e) != "doi_url" && IdType(e) != "pmc_url"
    ensures Lookup(IdStep(ids, e), IdType(e)) == Some(JStr(TextOrEmpty(e)))
  {
  }

  /** The step of `IdsLastValue` for an id that is not the last one. */
  lemma {:induction false} IdsLastValueEarlier(elems: seq<Element>, i: nat)
    requires i < |elems| - 1 && IdType(elems[i]) != "doi_url" && IdType(elems[i]) != "pmc_url"
    requires forall j :: i < j < |elems| ==> IdType(elems[j]) != IdType(elems[i])
    ensures Lookup(IdsOf(elems), IdType(elems[i])) == Some(JStr(TextOrEmpty(elems[i])))
    decreases |elems|, 0
  {
    var prefix := elems[..|elems| - 1];
    assert prefix[i] == elems[i];
    IdsLastValue(prefix, i);
    IdsLastKeeps(elems, IdType(elems[i]));
  }

  /** A DOI id adds its link; a PMC id adds its link. */
  lemma IdStepLinks(ids: seq<(string, Json)>, e: Element)
    ensures IdType(e) == "doi" ==> Lookup(IdStep(ids, e), "doi_url") == Some(JStr(DoiUrlPrefix + TextOrEmpty(e)))
    ensures IdType(e) == "pmc" ==> Lookup(IdStep(ids, e), "pmc_url") == Some(JStr(PmcUrlPrefix + TextOrEmpty(e) + "/"))
  {
  }

  /** `doi_url` is the link of the last DOI when no later id is typed
      `doi_url` itself. */
  lemma {:induction false} IdsDoiUrl(elems: seq<Element>, i: nat)
    requires i < |elems| && IdType(elems[i]) == "doi"
    requires forall j :: i < j < |elems| ==> IdType(elems[j]) != "doi" && IdType(elems[j]) != "doi_url"
    ensures Lookup(IdsOf(elems), "doi_url") == Some(JStr(DoiUrlPrefix + TextOrEmpty(elems[i])))
    decreases |elems|, 1
  {
    if i < |elems| - 1 {
      IdsDoiUrlEarlier(elems, i);
    } else {
      IdsLastLink(elems);
    }
  }

  /** The step of `IdsDoiUrl` for a DOI that is not the last id. */
  lemma {:induction false} IdsDoiUrlEarlier(elems: seq<Element>, i: nat)
    requires i < |elems| - 1 && IdType(elems[i]) == "doi"
    requires forall j :: i < j < |elems| ==> IdType(elems[j]) != "doi" && IdType(elems[j]) != "doi_url"
    ensures Lookup(IdsOf(elems), "doi_url") == Some(JStr(DoiUrlPrefix + TextOrEmpty(elems[i])))
    decreases |elems|, 0
  {
    var prefix := elems[..|elems| - 1];
    assert prefix[i] == elems[i];
    IdsDoiUrl(prefix, i);
    IdsLastKeeps(elems, "doi_url");
  }

  /** Without a DOI (and without an id typed `doi_url`) there is no DOI
      link. */
  lemma {:induction false} IdsNoDoiUrl(elems: seq<Element>)
    requires forall j :: 0 <= j < |elems| ==> IdType(elems[j]) != "doi" && IdType(elems[j]) != "doi_url"
    ensures Lookup(IdsOf(elems), "doi_url").None?
    decreases |elems|
  {
    if elems != [] {
      IdsNoDoiUrl(elems[..|elems| - 1]);
      IdsLastKeeps(elems, "doi_url");
    }
  }

  /** `pmc_url` is the link of the last PMC id when no later id is typed
      `pmc_url` itself. */
  lemma {:induction false} IdsPmcUrl(elems: seq<Element>, i: nat)
    requires i < |elems| && IdType(elems[i]) == "pmc"
    requires forall j :: i < j < |elems| ==> IdType(elems[j]) != "pmc" && IdType(elems[j]) != "pmc_url"
    ensures Lookup(IdsOf(elems), "pmc_url") == Some(JStr(PmcUrlPrefix + TextOrEmpty(elems[i]) + "/"))
    decreases |elems|, 1
  {
    if i < |elems| - 1 {
      IdsPmcUrlEarlier(elems, i);
    } else {
      IdsLastLink(elems);
    }
  }

  /** The step of `IdsPmcUrl` for a PMC id that is not the last id. */
  lemma {:induction false} IdsPmcUrlEarlier(elems: seq<Element>, i: nat)
    requires i < |elems| - 1 && IdType(elems[i]) == "pmc"
    requires forall j :: i < j < |elems| ==> IdType(elems[j]) != "pmc" && IdType(elems[j]) != "pmc_url"
    ensures Lookup(IdsOf(elems), "pmc_url") == Some(JStr(PmcUrlPrefix + TextOrEmpty(elems[i]) + "/"))
    decreases |elems|, 0
  {
    var prefix := elems[..|elems| - 1];
    assert prefix[i] == elems[i];
    IdsPmcUrl(prefix, i);
    IdsLastKeeps(elems, "pmc_url");
  }

  /** Without a PMC id (and without an id typed `pmc_url`) there is no PMC
      link. */
  lemma {:induction false} IdsNoPmcUrl(elems: seq<Element>)
    requires forall j :: 0 <= j < |elems| ==> IdType(elems[j]) != "pmc" && IdType(elems[j]) != "pmc_url"
    ensures Lookup(IdsOf(elems), "pmc_url").None?
    decreases |elems|
  {
    if elems != [] {
      IdsNoPmcUrl(elems[..|elems| - 1]);
      IdsLastKeeps(elems, "pmc_url");
    }
  }

  // ---------------------------------------------------------------------------
  // Keywords, MeSH terms and grants
  // ---------------------------------------------------------------------------

  /** The `Keyword` elements below `KeywordList`, or none. */
  function KeywordElements(citation: Element): (r: seq<Element>)
    ensures Find(citation, "KeywordList").None? ==> r == []
  {
    match Find(citation, "KeywordList")
    case None => []
    case Some(list) => FindAll(list, "Keyword")
  }

  /** `elem.get('MajorTopicYN', 'N') == 'Y'`. */
  predicate MajorTopic(e: Element)
  {
    AttrOr(e, "MajorTopicYN", "N") == "Y"
  }

  function QualifierJson(q: Element): (r: Json)
    ensures r.JObj? && Keys(r.entries) == ["name", "major_topic"]
    ensures r.entries[1].1 == JBool(MajorTopic(q))
  {
    JObj([("name", TextValue(q)), ("major_topic", JBool(MajorTopic(q)))])
  }

  /** The qualifiers of one heading, one per `QualifierName`, in order. */
  function Qualifiers(heading: Element): (r: seq<Json>)
    ensures |r| == |FindAll(heading, "QualifierName")|
    ensures forall i :: 0 <= i < |r| ==> r[i] == QualifierJson(FindAll(heading, "QualifierName")[i])
  {
    var qs := FindAll(heading, "QualifierName");
    seq(|qs|, i requires 0 <= i < |qs| => QualifierJson(qs[i]))
  }

  /** One MeSH heading: kept iff it has a descriptor; the qualifier list is
      always there, possibly empty. */
  function MeshTermOf(heading: Element): (r: Option<Json>)
    ensures r.Some? <==> Find(heading, "DescriptorName").Some?
  {
    match Find(heading, "DescriptorName")
    case None => None
    case Some(d) =>
      Some(JObj([("descriptor", TextValue(d)), ("major_topic", JBool(MajorTopic(d))),
                 ("qualifiers", JArr(Qualifiers(heading)))]))
  }

  /** A MeSH term holds the descriptor, whether it is a major topic, and
      one qualifier per `QualifierName`, each with its own major-topic
      flag. */
  lemma MeshTermShape(heading: Element)
    requires MeshTermOf(heading).Some?
    ensures var t := MeshTermOf(heading).value;
            var d := Find(heading, "DescriptorName").value;
            var qs := FindAll(heading, "QualifierName");
            && t.JObj? && Keys(t.entries) == ["descriptor", "major_topic", "qualifiers"]
            && t.entries[0].1 == TextValue(d)
            && t.entries[1].1 == JBool(AttrOr(d, "MajorTopicYN", "N") == "Y")
            && t.entries[2].1.JArr? && |t.entries[2].1.items| == |qs|
            && forall i :: 0 <= i < |qs| ==> t.entries[2].1.items[i] == QualifierJson(qs[i]) &&
                                             QualifierJson(qs[i]).entries[1].1 == JBool(AttrOr(qs[i], "MajorTopicYN", "N") == "Y")
  {
  }

  /** The `MeshHeading` elements below `MeshHeadingList`, or none. */
  function MeshHeadings(citation: Element): (r: seq<Element>)
    ensures Find(citation, "MeshHeadingList").None? ==> r == []
  {
    match Find(citation, "MeshHeadingList")
    case None => []
    case Some(list) => FindAll(list, "MeshHeading")
  }

  /** The qualifier loop of one heading. */
  method ParseQualifiers(heading: Element) returns (qualifiers: seq<Json>)
    ensures qualifiers == Qualifiers(heading)
  {
    var qs := FindAll(heading, "QualifierName");
    qualifiers := [];
    for i := 0 to |qs|
      invariant |qualifiers| == i && forall j :: 0 <= j < i ==> qualifiers[j] == QualifierJson(qs[j])
    {
      qualifiers := qualifiers + [JObj([("name", TextValue(qs[i])), ("major_topic", JBool(AttrOr(qs[i], "MajorTopicYN", "N") == "Y"))])];
    }
  }

  /** The heading loop. */
  method ParseMeshTerms(citation: Element) returns (terms: seq<Json>)
    ensures terms == FilterMap(MeshHeadings(citation), MeshTermOf)
  {
    var headings := MeshHeadings(citation);
    var termOf: Element -> Option<Json> := MeshTermOf;
    terms := [];
    for i := 0 to |headings|
      invariant terms == FilterMap(headings[..i], termOf)
    {
      var term := ParseMeshHeading(headings[i]);
      assert term == termOf(headings[i]);
      FilterMapPrefixStep(headings, i, termOf);
      if term.Some? {
        terms := terms + [term.value];
      }
    }
    assert headings[..|headings|] == headings;
  }

  /** The body of the heading loop: a term when there is a descriptor. */
  method ParseMeshHeading(heading: Element) returns (term: Option<Json>)
    ensures term == MeshTermOf(heading)
  {
    var descriptor := Find(heading, "DescriptorName");
    term := None;
    if descriptor.Some? {
      var qualifiers := ParseQualifiers(heading);
      term := Some(JObj([("descriptor", TextValue(descriptor.value)), ("major_topic", JBool(MajorTopic(descriptor.value))),
                         ("qualifiers", JArr(qualifiers))]));
    }
  }

  /** Every MeSH term comes from a heading with a descriptor, in order, and
      the headings without a descriptor are the only ones dropped. */
  lemma MeshTermsFromHeadings(citation: Element, t: Json)
    ensures var headings := MeshHeadings(citation);
            && |FilterMap(headings, MeshTermOf)| <= |headings|
            && (t in FilterMap(headings, MeshTermOf) <==>
                  exists i :: 0 <= i < |headings| && Find(headings[i], "DescriptorName").Some? &&
                              MeshTermOf(headings[i]) == Some(t))
  {
    FilterMapLength(MeshHeadings(citation), MeshTermOf);
    FilterMapMembers(MeshHeadings(citation), MeshTermOf, t);
  }

  /** One grant: the id, agency and country that exist; kept iff one
      does. */
  function GrantOf(grant: Element): (r: Option<Json>)
    ensures r.Some? <==> Find(grant, "GrantID").Some? || Find(grant, "Agency").Some? || Find(grant, "Country").Some?
    ensures r.Some? ==> r.value.JObj?
  {
    var fields := GrantAssignments(grant);
    var info := PutPresent([], fields);
    PutPresentEmpty([], fields);
    assert fields[0].1.None? <==> Find(grant, "GrantID").None?;
    assert fields[1].1.None? <==> Find(grant, "Agency").None?;
    assert fields[2].1.None? <==> Find(grant, "Country").None?;
    if info == [] then None else Some(JObj(info))
  }

  /** The assignments `_parse_grants` makes for one grant, in order. */
  function GrantAssignments(grant: Element): (r: seq<(string, Option<Json>)>)
    ensures forall a, b :: 0 <= a < b < |r| ==> r[a].0 != r[b].0
  {
    [("grant_id", FoundText(Find(grant, "GrantID"))), ("agency", FoundText(Find(grant, "Agency"))),
     ("country", FoundText(Find(grant, "Country")))]
  }

  /** A grant holds exactly the id, agency and country that exist. */
  lemma GrantFields(grant: Element)
    requires GrantOf(grant).Some?
    ensures var es := GrantOf(grant).value.entries;
            && Lookup(es, "grant_id") == FoundText(Find(grant, "GrantID"))
            && Lookup(es, "agency") == FoundText(Find(grant, "Agency"))
            && Lookup(es, "country") == FoundText(Find(grant, "Country"))
  {
    var fs := GrantAssignments(grant);
    PutPresentLookup([], fs, 0);
    PutPresentLookup([], fs, 1);
    PutPresentLookup([], fs, 2);
  }

  /** The `Grant` elements below `GrantList`, or none. */
  function GrantElements(article: Element): (r: seq<Element>)
    ensures Find(article, "GrantList").None? ==> r == []
  {
    match Find(article, "GrantList")
    case None => []
    case Some(list) => FindAll(list, "Grant")
  }

  /** The grant loop: `if grant_info: grants.append(grant_info)`, where
      only non-empty dictionaries come back. */
  method ParseGrants(article: Element) returns (grants: seq<Json>)
    ensures grants == FilterMap(GrantElements(article), GrantOf)
  {
    grants := Collect(GrantElements(article), GrantOf);
  }

  // ---------------------------------------------------------------------------
  // Conflict of interest (`_parse_conflict_of_interest`)
  // ---------------------------------------------------------------------------

  const CoiTags := ["CoiStatement", "ConflictOfInterestStatement"]

  /** The text of a found element, when it is non-empty. */
  function StatementText(e: Option<Element>): (r: Option<string>)
    ensures r.Some? <==> e.Some? && e.value.text.Some? && e.value.text.value != []
    ensures r.Some? ==> r.value == e.value.text.value
  {
    if e.Some? && e.value.text.Some? && e.value.text.value != [] then Some(e.value.text.value) else None
  }

  /** The statement: the first non-empty of the two elements, else `""`. */
  function CoiOf(article: Element): (r: string)
    ensures StatementText(Find(article, CoiTags[0])).Some? ==> r == StatementText(Find(article, CoiTags[0])).value
    ensures StatementText(Find(article, CoiTags[0])).None? ==> r == StatementText(Find(article, CoiTags[1])).GetOr("")
    ensures r == [] <==> StatementText(Find(article, CoiTags[0])).None? && StatementText(Find(article, CoiTags[1])).None?
  {
    match StatementText(Find(article, "CoiStatement"))
    case Some(t) => t
    case None => StatementText(Find(article, "ConflictOfInterestStatement")).GetOr("")
  }

  /** The scan over the two places, returning at the first statement. */
  method ParseCoi(article: Element) returns (coi: string)
    ensures coi == CoiOf(article)
  {
    for k := 0 to |CoiTags|
      invariant forall j :: 0 <= j < k ==> StatementText(Find(article, CoiTags[j])).None?
    {
      var e := Find(article, CoiTags[k]);
      if e.Some? && e.value.text.Some? && e.value.text.value != [] {
        return e.value.text.value;
      }
    }
    return "";
  }

  // ---------------------------------------------------------------------------
  // The record (`_parse_detailed_article_xml`)
  // ---------------------------------------------------------------------------

  /** The three `include_*` switches, already read as truth values. */
  datatype Flags = Flags(mesh: bool, references: bool, grants: bool)

  /** The fields read from one article. */
  datatype Detailed = Detailed(
    pmid: Json, title: Json, authors: seq<Json>, journal: seq<(string, Json)>, publicationDate: seq<(string, Json)>,
    abstractInfo: Json, articleIds: seq<(string, Json)>, publicationTypes: seq<string>, language: Json,
    keywords: seq<string>, meshTerms: seq<Json>, grants: seq<Json>, coi: string)

  const PubmedUrlPrefix := "https://pubmed.ncbi.nlm.nih.gov/"

  /** The keys of the record, the bibliographic ones first. */
  const BibliographicKeys := ["pmid", "title", "authors", "journal", "publication_date", "abstract", "article_ids",
                              "publication_types"]
  const ContentKeys := ["language", "keywords", "mesh_terms", "grants", "references", "conflict_of_interest", "urls",
                        "fetch_timestamp"]
  const DetailedKeys := BibliographicKeys + ContentKeys

  /** The PubMed, DOI and PMC links; the last two default to `""`. */
  function Urls(pmid: Json, ids: seq<(string, Json)>): (r: Json)
    ensures r.JObj? && Keys(r.entries) == ["pubmed", "doi", "pmc"]
    ensures r.entries[0].1 == JStr(PubmedUrlPrefix + PyStr(pmid) + "/")
    ensures r.entries[1].1 == Field(ids, "doi_url", JStr("")) && r.entries[2].1 == Field(ids, "pmc_url", JStr(""))
  {
    JObj([("pubmed", JStr(PubmedUrlPrefix + PyStr(pmid) + "/")), ("doi", Field(ids, "doi_url", JStr(""))),
          ("pmc", Field(ids, "pmc_url", JStr("")))])
  }

  /** The first eight entries of the record. */
  function BibliographicEntries(a: Detailed): (r: seq<(string, Json)>)
    ensures Keys(r) == BibliographicKeys
    ensures r[0].1 == a.pmid && r[1].1 == a.title && r[2].1 == JArr(a.authors)
  {
    [("pmid", a.pmid), ("title", a.title), ("authors", JArr(a.authors)), ("journal", JObj(a.journal)),
     ("publication_date", JObj(a.publicationDate)), ("abstract", a.abstractInfo),
     ("article_ids", JObj(a.articleIds)), ("publication_types", JArr(Strings(a.publicationTypes)))]
  }

  /** The last eight entries; references are always empty, as no reference
      list is read. */
  function ContentEntries(a: Detailed, timestamp: string): (r: seq<(string, Json)>)
    ensures Keys(r) == ContentKeys
    ensures r[0].1 == a.language && r[2].1 == JArr(a.meshTerms) && r[3].1 == JArr(a.grants)
    ensures r[4].1 == JArr([]) && r[6].1 == Urls(a.pmid, a.articleIds)
  {
    [("language", a.language), ("keywords", JArr(Strings(a.keywords))), ("mesh_terms", JArr(a.meshTerms)),
     ("grants", JArr(a.grants)), ("references", JArr([])), ("conflict_of_interest", JStr(a.coi)),
     ("urls", Urls(a.pmid, a.articleIds)), ("fetch_timestamp", JStr(timestamp))]
  }

  /** The record; `timestamp` stands for `datetime.utcnow().isoformat()`. */
  function DetailedJson(a: Detailed, timestamp: string): (r: Json)
    ensures r.JObj? && Keys(r.entries) == DetailedKeys && Truthy(r)
    ensures r.entries[0].1 == a.pmid && r.entries[1].1 == a.title && r.entries[2].1 == JArr(a.authors)
    ensures r.entries[8].1 == a.language && r.entries[10].1 == JArr(a.meshTerms) && r.entries[11].1 == JArr(a.grants)
    ensures r.entries[12].1 == JArr([])
    ensures r.entries[14].1 == Urls(a.pmid, a.articleIds)
  {
    var bib := BibliographicEntries(a);
    var content := ContentEntries(a, timestamp);
    assert Keys(bib + content) == Keys(bib) + Keys(content);
    JObj(bib + content)
  }

  /** Reading one article: `None` without a `MedlineCitation` or without an
      `Article` in it; `Raised` when an author's name or a date cannot be
      built. MeSH terms and grants are read only when asked for. */
  function ReadDetailed(articleElem: Element, flags: Flags): (r: Outcome<Option<Detailed>>)
    ensures Find(articleElem, "MedlineCitation").None? ==> r == Ok(None)
    ensures var citation := Find(articleElem, "MedlineCitation");
            citation.Some? && Find(citation.value, "Article").None? ==> r == Ok(None)
  {
    match Find(articleElem, "MedlineCitation")
    case None => Ok(None)
    case Some(citation) =>
      var pmid := NcbiSearch.TextOr(Find(citation, "PMID"), "Unknown");
      match Find(citation, "Article")
      case None => Ok(None)
      case Some(article) =>
        var authors :- TryFilterMap(NcbiSearch.AuthorElements(article), AuthorRecord);
        var date :- PubDateInfo(article);
        Ok(Some(Detailed(
          pmid, NcbiSearch.TextOr(Find(article, "ArticleTitle"), "No title available"), authors,
          JournalInfo(article), date, AbstractInfo(article), IdsOf(NcbiSearch.IdElements(articleElem)),
          FilterMap(NcbiSearch.TypeElements(article), NcbiSearch.NonEmptyText),
          NcbiSearch.TextOr(Find(article, "Language"), "eng"),
          FilterMap(KeywordElements(citation), NcbiSearch.NonEmptyText),
          if flags.mesh then FilterMap(MeshHeadings(citation), MeshTermOf) else [],
          if flags.grants then FilterMap(GrantElements(article), GrantOf) else [],
          CoiOf(article))))
  }

  /** A record that is read has the documented defaults: PMID `"Unknown"`,
      title `"No title available"`, language `"eng"`, and no MeSH terms or
      grants unless they are asked for. */
  lemma DetailedDefaults(articleElem: Element, flags: Flags)
    requires ReadDetailed(articleElem, flags).Ok? && ReadDetailed(articleElem, flags).value.Some?
    ensures Find(articleElem, "MedlineCitation").Some?
    ensures var citation := Find(articleElem, "MedlineCitation").value;
            Find(citation, "Article").Some? &&
            var article := Find(citation, "Article").value;
            var a := ReadDetailed(articleElem, flags).value.value;
            && a.pmid == NcbiSearch.TextOr(Find(citation, "PMID"), "Unknown")
            && a.title == NcbiSearch.TextOr(Find(article, "ArticleTitle"), "No title available")
            && a.language == NcbiSearch.TextOr(Find(article, "Language"), "eng")
            && (!flags.mesh ==> a.meshTerms == [])
            && (!flags.grants ==> a.grants == [])
            && a.authors == TryFilterMap(NcbiSearch.AuthorElements(article), AuthorRecord).value
            && a.articleIds == IdsOf(NcbiSearch.IdElements(articleElem))
  {
  }

  /** `_parse_detailed_article_xml` as a value: the record, or `None` when
      the article is skipped or reading it raises. */
  function DetailedOf(articleElem: Element, flags: Flags, timestamp: string): (r: Option<Json>)
    ensures r.Some? <==> ReadDetailed(articleElem, flags).Ok? && ReadDetailed(articleElem, flags).value.Some?
    ensures r.Some? ==> r.value == DetailedJson(ReadDetailed(articleElem, flags).value.value, timestamp)
    ensures r.Some? ==> Truthy(r.value)
  {
    match Caught(ReadDetailed(articleElem, flags))
    case None => None
    case Some(a) => Some(DetailedJson(a, timestamp))
  }

  /** The parser for fixed switches and timestamp. */
  function DetailedParser(flags: Flags, timestamp: string): Element -> Option<Json>
  {
    (e: Element) => DetailedOf(e, flags, timestamp)
  }

  /** `_parse_detailed_article_xml`: the fixed fields, then every helper's
      loop. */
  method ParseDetailedArticle(articleElem: Element, flags: Flags, timestamp: string) returns (r: Option<Json>)
    ensures r == DetailedOf(articleElem, flags, timestamp)
  {
    var citation := Find(articleElem, "MedlineCitation");
    if citation.None? {
      return None;
    }
    var pmid := NcbiSearch.TextOr(Find(citation.value, "PMID"), "Unknown");
    var article := Find(citation.value, "Article");
    if article.None? {
      return None;
    }
    var a := article.value;
    var authors := ParseAuthors(NcbiSearch.AuthorElements(a));
    if authors.Raised? {
      return None;
    }
    var date := PubDateInfo(a);
    if date.Raised? {
      return None;
    }
    var abstractInfo := ParseAbstract(a);
    var ids := ParseArticleIds(articleElem);
    var types := NcbiSearch.NonEmptyTexts(NcbiSearch.TypeElements(a));
    var keywords := NcbiSearch.NonEmptyTexts(KeywordElements(citation.value));
    var mesh: seq<Json> := [];
    if flags.mesh {
      mesh := ParseMeshTerms(citation.value);
    }
    var grants: seq<Json> := [];
    if flags.grants {
      grants := ParseGrants(a);
    }
    var coi := ParseCoi(a);
    var record := Detailed(pmid, NcbiSearch.TextOr(Find(a, "ArticleTitle"), "No title available"), authors.value,
                           JournalInfo(a), date.value, abstractInfo, ids, types,
                           NcbiSearch.TextOr(Find(a, "Language"), "eng"), keywords, mesh, grants, coi);
    assert ReadDetailed(articleElem, flags) == Ok(Some(record));
    return Some(DetailedJson(record, timestamp));
  }

  /** The loop over the `PubmedArticle` elements of an `efetch` reply. */
  method CollectDetailed(root: Element, flags: Flags, timestamp: string) returns (articles: seq<Json>)
    ensures articles == FilterMap(FindAll(root, "PubmedArticle"), DetailedParser(flags, timestamp))
  {
    var elems := FindAll(root, "PubmedArticle");
    var parse := DetailedParser(flags, timestamp);
    articles := [];
    for i := 0 to |elems|
      invariant articles == FilterMap(elems[..i], parse)
    {
      FilterMapPrefixStep(elems, i, parse);
      articles := KeepDetailed(articles, elems[i], flags, timestamp);
    }
    assert elems[..|elems|] == elems;
  }

  /** The body of the article loop: the parsed record is appended when it is
      truthy. */
  method KeepDetailed(articles: seq<Json>, articleElem: Element, flags: Flags, timestamp: string)
    returns (r: seq<Json>)
    ensures var a := DetailedParser(flags, timestamp)(articleElem);
            r == articles + if a.Some? then [a.value] else []
  {
    var data := ParseDetailedArticle(articleElem, flags, timestamp);
    r := articles;
    if data.Some? && Truthy(data.value) {
      r := articles + [data.value];
    }
  }
}
