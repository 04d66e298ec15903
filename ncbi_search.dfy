/** The PubMed search connector: it turns a query with publication-type and
    year filters into an E-utilities term, runs `esearch` for the matching
    PMIDs, runs `efetch` for their records, reads each `PubmedArticle`
    element into a flat record and offers the result set to the knowledge
    base. The two HTTP replies are inputs; the effects list records the
    store lookup and the requests in the order they are made. */
module NcbiSearch {
  import opened Outcomes
  import opened PyText
  import opened Json
  import opened Seqs
  import opened XmlTree
  import opened Connectors
  import Sorting

  const BaseUrl := "https://eutils.ncbi.nlm.nih.gov/entrez/eutils/"
  const ESearchUrl := BaseUrl + "esearch.fcgi"
  const EFetchUrl := BaseUrl + "efetch.fcgi"

  // ---------------------------------------------------------------------------
  // The search term (`_build_search_query`)
  // ---------------------------------------------------------------------------

  /** The publication types PubMed is asked to filter on. */
  const PubTypes: set<string> := {"Clinical Trial", "Randomized Controlled Trial", "Meta-Analysis",
                                  "Systematic Review", "Review", "Case Reports", "Observational Study"}

  /** `pub_type_map`: every type's filter is the type followed by `[ptyp]`. */
  const PubTypeTable: map<string, string> := map t | t in PubTypes :: t + "[ptyp]"

  /** One publication type: its tagged filter when it is in the table;
      `pt in pub_type_map` raises for a list or a dictionary, which cannot
      be hashed. */
  function PubFilter(pt: Json): (r: Outcome<Option<string>>)
    ensures r.Raised? <==> pt.JArr? || pt.JObj?
    ensures pt.JStr? && pt.s in PubTypeTable ==> r == Ok(Some(pt.s + "[ptyp]"))
    ensures r.Ok? && r.value.Some? ==> pt.JStr? && pt.s in PubTypeTable
  {
    if pt.JArr? || pt.JObj? then Raised
    else if pt.JStr? && pt.s in PubTypeTable then
      Ok(Some(PubTypeTable[pt.s]))
    else Ok(None)
  }

  /** The publication-type part of the term: the known types' filters
      joined with `" OR "`, always parenthesised, or nothing when no type is
      known. */
  function TypeGroup(publicationTypes: Json): (r: Outcome<Option<string>>)
    ensures !Truthy(publicationTypes) ==> r == Ok(None)
    ensures r.Ok? && r.value.Some? ==> StartsWith(r.value.value, "(") && EndsWith(r.value.value, ")")
  {
    if !Truthy(publicationTypes) then Ok(None)
    else
      var items :- PyIter(publicationTypes);
      var filters :- TryFilterMap(items, PubFilter);
      if filters == [] then Ok(None)
      else
        var g := "(" + Join(" OR ", filters) + ")";
        assert g[..1] == "(" && g[|g| - 1..] == ")";
        Ok(Some(g))
  }

  /** The date part of the term; `date_range.get` raises on a truthy value
      that is not a dictionary. */
  function DateTerm(dateRange: Json): (r: Outcome<Option<string>>)
    ensures !Truthy(dateRange) ==> r == Ok(None)
    ensures r.Raised? <==> Truthy(dateRange) && !dateRange.JObj?
    ensures r.Ok? && r.value.Some? ==> EndsWith(r.value.value, "[pdat]")
  {
    if !Truthy(dateRange) then Ok(None)
    else
      var es :- AsObject(dateRange);
      var start := Field(es, "start_year", JNull);
      var end := Field(es, "end_year", JNull);
      var term :=
        if Truthy(start) && Truthy(end) then Some(PyStr(start) + ":" + PyStr(end) + "[pdat]")
        else if Truthy(start) then Some(PyStr(start) + ":3000[pdat]")
        else if Truthy(end) then Some("1900:" + PyStr(end) + "[pdat]")
        else None;
      assert term.Some? ==> var t := term.value; t[|t| - 6..] == "[pdat]";
      Ok(term)
  }

  /** The year-range form with both bounds, for integer years. */
  lemma DateTermBoth(s: int, e: int)
    requires s != 0 && e != 0
    ensures DateTerm(JObj([("start_year", JInt(s)), ("end_year", JInt(e))])) ==
              Ok(Some(IntToStr(s) + ":" + IntToStr(e) + "[pdat]"))
  {
    var both := [("start_year", JInt(s)), ("end_year", JInt(e))];
    assert Sorting.UniqueKeys(both);
    LookupUnique(both, 0);
    LookupUnique(both, 1);
  }

  /** The start year only: the range is open up to 3000. */
  lemma DateTermStartOnly(s: int)
    requires s != 0
    ensures DateTerm(JObj([("start_year", JInt(s))])) == Ok(Some(IntToStr(s) + ":3000[pdat]"))
  {
    var es := [("start_year", JInt(s))];
    assert Lookup(es, "start_year") == Some(JInt(s));
  }

  /** The end year only: the range starts at 1900. */
  lemma DateTermEndOnly(e: int)
    requires e != 0
    ensures DateTerm(JObj([("end_year", JInt(e))])) == Ok(Some("1900:" + IntToStr(e) + "[pdat]"))
  {
    var es := [("end_year", JInt(e))];
    assert Lookup(es, "end_year") == Some(JInt(e));
  }

  /** Neither bound set: no date filter. */
  lemma DateTermNeither()
    ensures DateTerm(JObj([("start_year", JNull), ("end_year", JNull)])) == Ok(None)
  {
    var nulls := [("start_year", JNull), ("end_year", JNull)];
    assert Sorting.UniqueKeys(nulls);
    LookupUnique(nulls, 0);
    LookupUnique(nulls, 1);
  }

  /** The parts of the term in the order they are appended. */
  function SearchParts(query: string, group: Option<string>, date: Option<string>): (r: seq<string>)
    ensures r != [] && r[0] == query
    ensures |r| == 1 + (if group.Some? then 1 else 0) + (if date.Some? then 1 else 0)
  {
    [query] + (if group.Some? then [group.value] else []) + (if date.Some? then [date.value] else [])
  }

  /** The search term as a value. */
  function SearchTerm(query: string, publicationTypes: Json, dateRange: Json): (r: Outcome<string>)
    ensures r.Raised? <==> TypeGroup(publicationTypes).Raised? || DateTerm(dateRange).Raised?
  {
    var group :- TypeGroup(publicationTypes);
    var date :- DateTerm(dateRange);
    Ok(Join(" AND ", SearchParts(query, group, date)))
  }

  /** The term always starts with the query, and without filters it is the
      query itself. */
  lemma SearchTermStartsWithQuery(query: string, publicationTypes: Json, dateRange: Json)
    requires SearchTerm(query, publicationTypes, dateRange).Ok?
    ensures StartsWith(SearchTerm(query, publicationTypes, dateRange).value, query)
    ensures !Truthy(publicationTypes) && !Truthy(dateRange) ==> SearchTerm(query, publicationTypes, dateRange) == Ok(query)
  {
    var parts := SearchParts(query, TypeGroup(publicationTypes).value, DateTerm(dateRange).value);
    JoinPrefix(" AND ", parts);
  }

  /** `_build_search_query`: appends the type group and the date term to
      the query, then joins the parts with `" AND "`. */
  method BuildSearchQuery(query: string, publicationTypes: Json, dateRange: Json) returns (r: Outcome<string>)
    ensures r == SearchTerm(query, publicationTypes, dateRange)
  {
    var parts := [query];
    var group :- TypeGroup(publicationTypes);
    if group.Some? {
      parts := parts + [group.value];
    }
    var date :- DateTerm(dateRange);
    if date.Some? {
      parts := parts + [date.value];
    }
    assert parts == SearchParts(query, group, date);
    return Ok(Join(" AND ", parts));
  }

  // ---------------------------------------------------------------------------
  // PMIDs and text lists
  // ---------------------------------------------------------------------------

  /** An element's text when it is present and non-empty. */
  function NonEmptyText(e: Element): (r: Option<string>)
    ensures r.Some? <==> e.text.Some? && e.text.value != []
    ensures r.Some? ==> r.value == e.text.value
  {
    if e.text.Some? && e.text.value != [] then Some(e.text.value) else None
  }

  /** `[e.text for e in elems if e.text]`, built by appending. */
  method NonEmptyTexts(elems: seq<Element>) returns (texts: seq<string>)
    ensures texts == FilterMap(elems, NonEmptyText)
  {
    texts := [];
    for i := 0 to |elems|
      invariant texts == FilterMap(elems[..i], NonEmptyText)
    {
      if elems[i].text.Some? && elems[i].text.value != [] {
        texts := texts + [elems[i].text.value];
      }
      assert elems[..i + 1] == elems[..i] + [elems[i]];
      FilterMapSnoc(elems[..i], elems[i], NonEmptyText);
    }
    assert elems[..|elems|] == elems;
  }

  /** The texts kept are exactly the non-empty texts of the elements, and
      none is empty. */
  lemma NonEmptyTextsMembers(elems: seq<Element>, t: string)
    ensures t in FilterMap(elems, NonEmptyText) <==> t != [] && exists i :: 0 <= i < |elems| && elems[i].text == Some(t)
  {
    FilterMapMembers(elems, NonEmptyText, t);
  }

  /** The PMIDs of an `esearch` reply: the non-empty `Id` texts in document
      order. */
  method ExtractPmids(root: Element) returns (pmids: seq<string>)
    ensures pmids == FilterMap(FindAll(root, "Id"), NonEmptyText)
  {
    pmids := NonEmptyTexts(FindAll(root, "Id"));
  }

  // ---------------------------------------------------------------------------
  // One article (`_parse_article_xml`)
  // ---------------------------------------------------------------------------

  /** One author's name: `LastName`, followed by `", " + ForeName` when
      there is one. An author without a last name is skipped; a missing
      last-name text is kept as `None`, or raises when a first name must be
      appended to it. */
  function AuthorName(author: Element): (r: Outcome<Option<Json>>)
    ensures Find(author, "LastName").None? ==> r == Ok(None)
    ensures r.Ok? && r.value.Some? ==> Find(author, "LastName").Some?
    ensures var last := Find(author, "LastName");
            last.Some? && last.value.text.Some? ==>
              r == Ok(Some(JStr(last.value.text.value +
                                (match Find(author, "ForeName")
                                 case None => ""
                                 case Some(first) => ", " + TextInterp(first)))))
  {
    match Find(author, "LastName")
    case None => Ok(None)
    case Some(last) =>
      match Find(author, "ForeName")
      case None =>
        assert last.text.Some? ==> last.text.value + "" == last.text.value;
        Ok(Some(TextValue(last)))
      case Some(first) =>
        var name :- TextAppend(last, ", " + TextInterp(first));
        Ok(Some(JStr(name)))
  }

  /** The authors' loop, appending the name of each author that has one. */
  method CollectAuthors(authors: seq<Element>) returns (r: Outcome<seq<Json>>)
    ensures r == TryFilterMap(authors, AuthorName)
  {
    var names: seq<Json> := [];
    for i := 0 to |authors|
      invariant TryFilterMap(authors[..i], AuthorName) == Ok(names)
    {
      var name := AuthorName(authors[i]);
      assert authors[..i + 1] == authors[..i] + [authors[i]];
      TryFilterMapSnoc(authors[..i], authors[i], AuthorName);
      if name.Raised? {
        TryFilterMapRaises(authors, i + 1, AuthorName);
        return Raised;
      }
      var kept := if name.value.Some? then [name.value.value] else [];
      names := names + kept;
    }
    assert authors[..|authors|] == authors;
    return Ok(names);
  }

  /** `article_id.get('IdType') == 'doi'`. */
  predicate IsDoiId(e: Element)
  {
    "IdType" in e.attrs && e.attrs["IdType"] == "doi"
  }

  /** The position of the first DOI id. */
  function DoiIndex(ids: seq<Element>): (r: Option<nat>)
    ensures r.Some? ==> r.value < |ids| && IsDoiId(ids[r.value])
    ensures r.Some? ==> forall j :: 0 <= j < r.value ==> !IsDoiId(ids[j])
    ensures r.None? ==> forall j :: 0 <= j < |ids| ==> !IsDoiId(ids[j])
  {
    if ids == [] then None
    else if IsDoiId(ids[0]) then Some(0)
    else
      match DoiIndex(ids[1..])
      case None => None
      case Some(j) => Some(j + 1)
  }

  /** The DOI: the text of the first DOI id (`""` for a missing text), or
      `""` when there is none. */
  function DoiOf(ids: seq<Element>): (r: string)
    ensures DoiIndex(ids).None? ==> r == ""
    ensures DoiIndex(ids).Some? ==> r == TextOrEmpty(ids[DoiIndex(ids).value])
  {
    match DoiIndex(ids)
    case None => ""
    case Some(i) => TextOrEmpty(ids[i])
  }

  /** The DOI scan, stopping at the first DOI id. */
  method FindDoi(ids: seq<Element>) returns (doi: string)
    ensures doi == DoiOf(ids)
  {
    doi := "";
    var i := 0;
    while i < |ids|
      invariant 0 <= i <= |ids|
      invariant forall j :: 0 <= j < i ==> !IsDoiId(ids[j])
    {
      if "IdType" in ids[i].attrs && ids[i].attrs["IdType"] == "doi" {
        doi := TextOrEmpty(ids[i]);
        DoiIndexAt(ids, i);
        return;
      }
      i := i + 1;
    }
    DoiIndexNone(ids);
  }

  lemma DoiIndexAt(ids: seq<Element>, i: nat)
    requires i < |ids| && IsDoiId(ids[i]) && forall j :: 0 <= j < i ==> !IsDoiId(ids[j])
    ensures DoiIndex(ids) == Some(i)
  {
    if DoiIndex(ids).None? {
    } else if DoiIndex(ids).value < i {
    } else if DoiIndex(ids).value > i {
    }
  }

  lemma DoiIndexNone(ids: seq<Element>)
    requires forall j :: 0 <= j < |ids| ==> !IsDoiId(ids[j])
    ensures DoiIndex(ids).None?
  {
  }

  /** The fields read from one `PubmedArticle`. */
  datatype ArticleSummary = ArticleSummary(
    pmid: Json, title: Json, authors: seq<Json>, journal: Json, publicationDate: Json,
    abstractText: string, doi: string, publicationTypes: seq<string>)

  /** `elem.text if elem is not None else default`. */
  function TextOr(e: Option<Element>, default: string): (r: Json)
    ensures e.None? ==> r == JStr(default)
    ensures e.Some? ==> r == TextValue(e.value)
  {
    match e
    case None => JStr(default)
    case Some(x) => TextValue(x)
  }

  /** The publication date: `Year`, followed by `" " + Month` when there is
      one; `"Unknown date"` without a `PubDate` or a `Year`. Appending a
      month to a missing year text raises. */
  function PubDateString(pubDate: Option<Element>): (r: Outcome<Json>)
    ensures pubDate.None? ==> r == Ok(JStr("Unknown date"))
    ensures pubDate.Some? && Find(pubDate.value, "Year").None? ==> r == Ok(JStr("Unknown date"))
  {
    match pubDate
    case None => Ok(JStr("Unknown date"))
    case Some(d) =>
      match Find(d, "Year")
      case None => Ok(JStr("Unknown date"))
      case Some(y) =>
        match Find(d, "Month")
        case None => Ok(TextValue(y))
        case Some(m) =>
          var s :- TextAppend(y, " " + TextInterp(m));
          Ok(JStr(s))
  }

  /** The authors of an article: those under `AuthorList`, or none. */
  function AuthorElements(article: Element): (r: seq<Element>)
    ensures Find(article, "AuthorList").None? ==> r == []
  {
    match Find(article, "AuthorList")
    case None => []
    case Some(list) => FindAll(list, "Author")
  }

  /** The abstract: the text of the first `Abstract/AbstractText`, or `""`
      when abstracts are not wanted or there is none. */
  function AbstractOf(article: Element, includeAbstracts: Json): (r: string)
    ensures !Truthy(includeAbstracts) ==> r == ""
    ensures FindPath(article, "Abstract", "AbstractText").None? ==> r == ""
  {
    if !Truthy(includeAbstracts) then ""
    else
      match FindPath(article, "Abstract", "AbstractText")
      case None => ""
      case Some(a) => TextOrEmpty(a)
  }

  /** The ids below `ArticleIdList`, or none. */
  function IdElements(articleElem: Element): (r: seq<Element>)
    ensures Find(articleElem, "ArticleIdList").None? ==> r == []
  {
    match Find(articleElem, "ArticleIdList")
    case None => []
    case Some(list) => FindAll(list, "ArticleId")
  }

  /** The `PublicationType` elements below `PublicationTypeList`, or none. */
  function TypeElements(article: Element): (r: seq<Element>)
    ensures Find(article, "PublicationTypeList").None? ==> r == []
  {
    match Find(article, "PublicationTypeList")
    case None => []
    case Some(list) => FindAll(list, "PublicationType")
  }

  /** Reading one article: `None` without a `MedlineCitation` or without an
      `Article` in it; `Raised` when an author's or the date's text cannot
      be extended. */
  function ReadArticle(articleElem: Element, includeAbstracts: Json): (r: Outcome<Option<ArticleSummary>>)
    ensures Find(articleElem, "MedlineCitation").None? ==> r == Ok(None)
    ensures var citation := Find(articleElem, "MedlineCitation");
            citation.Some? && Find(citation.value, "Article").None? ==> r == Ok(None)
  {
    match Find(articleElem, "MedlineCitation")
    case None => Ok(None)
    case Some(citation) =>
      var pmid := TextOr(Find(citation, "PMID"), "Unknown");
      match Find(citation, "Article")
      case None => Ok(None)
      case Some(article) =>
        var authors :- TryFilterMap(AuthorElements(article), AuthorName);
        var date :- PubDateString(Find(article, "PubDate"));
        Ok(Some(ArticleSummary(
          pmid, TextOr(Find(article, "ArticleTitle"), "No title available"), authors,
          TextOr(FindPath(article, "Journal", "Title"), "Unknown journal"), date,
          AbstractOf(article, includeAbstracts), DoiOf(IdElements(articleElem)),
          FilterMap(TypeElements(article), NonEmptyText))))
  }

  /** A record that is read has the documented defaults: PMID `"Unknown"`,
      title `"No title available"`, journal `"Unknown journal"`, no abstract
      unless abstracts are wanted, the first DOI and the non-empty
      publication types in document order. */
  lemma ArticleFields(articleElem: Element, includeAbstracts: Json)
    requires ReadArticle(articleElem, includeAbstracts).Ok? && ReadArticle(articleElem, includeAbstracts).value.Some?
    ensures Find(articleElem, "MedlineCitation").Some?
    ensures var citation := Find(articleElem, "MedlineCitation").value;
            Find(citation, "Article").Some? &&
            var article := Find(citation, "Article").value;
            var a := ReadArticle(articleElem, includeAbstracts).value.value;
            && a.pmid == TextOr(Find(citation, "PMID"), "Unknown")
            && a.title == TextOr(Find(article, "ArticleTitle"), "No title available")
            && a.journal == TextOr(FindPath(article, "Journal", "Title"), "Unknown journal")
            && (!Truthy(includeAbstracts) ==> a.abstractText == "")
            && a.doi == DoiOf(IdElements(articleElem))
            && a.publicationTypes == FilterMap(TypeElements(article), NonEmptyText)
            && a.authors == TryFilterMap(AuthorElements(article), AuthorName).value
  {
  }

  const PubmedUrlPrefix := "https://pubmed.ncbi.nlm.nih.gov/"
  const DoiUrlPrefix := "https://doi.org/"

  const ArticleKeys := ["pmid", "title", "authors", "journal", "publication_date", "abstract", "doi",
                        "publication_types", "pubmed_url", "doi_url"]

  /** `f"https://doi.org/{doi}" if doi else ""`. */
  function DoiUrl(doi: string): (r: string)
    ensures doi == [] <==> r == []
    ensures doi != [] ==> r == DoiUrlPrefix + doi && EndsWith(r, doi)
  {
    if doi == [] then ""
    else
      var u := DoiUrlPrefix + doi;
      assert u[|u| - |doi|..] == doi;
      u
  }

  /** The article record; at most the first ten authors are listed. */
  function ArticleJson(a: ArticleSummary): (r: Json)
    ensures r.JObj? && Keys(r.entries) == ArticleKeys
    ensures r.entries[2].1 == JArr(Take(a.authors, 10)) && |Take(a.authors, 10)| <= 10
    ensures r.entries[8].1 == JStr(PubmedUrlPrefix + PyStr(a.pmid) + "/")
    ensures r.entries[9].1 == JStr(DoiUrl(a.doi))
  {
    JObj([("pmid", a.pmid), ("title", a.title), ("authors", JArr(Take(a.authors, 10))),
          ("journal", a.journal), ("publication_date", a.publicationDate), ("abstract", JStr(a.abstractText)),
          ("doi", JStr(a.doi)),
          ("publication_types", JArr(Strings(a.publicationTypes))),
          ("pubmed_url", JStr(PubmedUrlPrefix + PyStr(a.pmid) + "/")), ("doi_url", JStr(DoiUrl(a.doi)))])
  }

  /** `_parse_article_xml` as a value: the record, or `None` when the
      article is skipped or reading it raises. */
  function ArticleOf(articleElem: Element, includeAbstracts: Json): Option<Json>
  {
    match Caught(ReadArticle(articleElem, includeAbstracts))
    case None => None
    case Some(a) => Some(ArticleJson(a))
  }

  /** An article is kept exactly when reading it neither skips it nor
      raises, and a kept record is truthy. */
  lemma ArticleOfForm(articleElem: Element, includeAbstracts: Json)
    ensures var r := ArticleOf(articleElem, includeAbstracts);
            && (r.Some? <==> ReadArticle(articleElem, includeAbstracts).Ok? &&
                             ReadArticle(articleElem, includeAbstracts).value.Some?)
            && (r.Some? ==> r.value == ArticleJson(ReadArticle(articleElem, includeAbstracts).value.value))
            && (r.Some? ==> Truthy(r.value))
  {
  }

  /** An article whose text fields are all present and whose authors all
      have last names keeps every author (up to ten) in order. */
  lemma AuthorsKept(authors: seq<Element>)
    requires forall i :: 0 <= i < |authors| ==> AuthorName(authors[i]).Ok? && AuthorName(authors[i]).value.Some?
    ensures TryFilterMap(authors, AuthorName).Ok?
    ensures |TryFilterMap(authors, AuthorName).value| == |authors|
  {
    TryFilterMapOk(authors, AuthorName, (x: Element) => Caught(AuthorName(x)));
    FilterMapAllPresent(authors, (x: Element) => Caught(AuthorName(x)));
  }

  /** The parser for a fixed abstracts flag. */
  function ArticleParser(includeAbstracts: Json): Element -> Option<Json>
  {
    (e: Element) => ArticleOf(e, includeAbstracts)
  }

  /** `_parse_article_xml`: reads the fixed fields, then runs the author,
      DOI and publication-type loops. */
  method ParseArticle(articleElem: Element, includeAbstracts: Json) returns (r: Option<Json>)
    ensures r == ArticleOf(articleElem, includeAbstracts)
  {
    var citation := Find(articleElem, "MedlineCitation");
    if citation.None? {
      return None;
    }
    var pmid := TextOr(Find(citation.value, "PMID"), "Unknown");
    var article := Find(citation.value, "Article");
    if article.None? {
      return None;
    }
    var authors := CollectAuthors(AuthorElements(article.value));
    if authors.Raised? {
      return None;
    }
    var date := PubDateString(Find(article.value, "PubDate"));
    if date.Raised? {
      return None;
    }
    var doi := FindDoi(IdElements(articleElem));
    var types := NonEmptyTexts(TypeElements(article.value));
    var summary := ArticleSummary(
      pmid, TextOr(Find(article.value, "ArticleTitle"), "No title available"), authors.value,
      TextOr(FindPath(article.value, "Journal", "Title"), "Unknown journal"), date.value,
      AbstractOf(article.value, includeAbstracts), doi, types);
    return Some(ArticleJson(summary));
  }

  /** `_fetch_article_details`' loop over the `PubmedArticle` elements. */
  method CollectArticles(root: Element, includeAbstracts: Json) returns (articles: seq<Json>)
    ensures articles == FilterMap(FindAll(root, "PubmedArticle"), ArticleParser(includeAbstracts))
  {
    var elems := FindAll(root, "PubmedArticle");
    var parse := ArticleParser(includeAbstracts);
    articles := [];
    for i := 0 to |elems|
      invariant articles == FilterMap(elems[..i], parse)
    {
      FilterMapPrefixStep(elems, i, parse);
      articles := KeepArticle(articles, elems[i], includeAbstracts);
    }
    assert elems[..|elems|] == elems;
  }

  /** The body of the article loop: the parsed article is appended when it
      is truthy. */
  method KeepArticle(articles: seq<Json>, articleElem: Element, includeAbstracts: Json) returns (r: seq<Json>)
    ensures var a := ArticleParser(includeAbstracts)(articleElem);
            r == articles + if a.Some? then [a.value] else []
  {
    var data := ParseArticle(articleElem, includeAbstracts);
    ArticleOfForm(articleElem, includeAbstracts);
    r := articles;
    if data.Some? && Truthy(data.value) {
      r := articles + [data.value];
    }
  }

  // ---------------------------------------------------------------------------
  // The tool call (`exec_async`)
  // ---------------------------------------------------------------------------

  const SearchFailedPrefix := "NCBI search failed: "
  const EmptyQueryMessage := "Search query cannot be empty"
  const NoArticlesMessage := "No articles found matching the search criteria"

  /** The tool parameters after defaults are applied. */
  datatype PubmedRequest = PubmedRequest(
    query: string, maxResults: Json, publicationTypes: Json, dateRange: Json, includeAbstracts: Json)

  /** Reading the parameters: the query is stripped and `max_results` is
      capped at 100. */
  function ReadPubmedRequest(toolParams: Json): (r: Outcome<PubmedRequest>)
    ensures r.Ok? <==> toolParams.JObj? && TextParam(toolParams.entries, "query").Ok? &&
                       PyMin(Field(toolParams.entries, "max_results", JInt(20)), 100).Ok?
    ensures r.Ok? ==> var es := toolParams.entries;
                      && r.value.query == TextParam(es, "query").value
                      && r.value.maxResults == PyMin(Field(es, "max_results", JInt(20)), 100).value
                      && r.value.publicationTypes == Field(es, "publication_types", JArr([]))
                      && r.value.dateRange == Field(es, "date_range", Empty)
                      && r.value.includeAbstracts == Field(es, "include_abstracts", JBool(true))
  {
    var es :- AsObject(toolParams);
    var query :- TextParam(es, "query");
    var maxResults :- PyMin(Field(es, "max_results", JInt(20)), 100);
    Ok(PubmedRequest(query, maxResults, Field(es, "publication_types", JArr([])), Field(es, "date_range", Empty),
                     Field(es, "include_abstracts", JBool(true))))
  }

  /** `f"ncbi_search://{query}_{max_results}_{publication_types}_{date_range}"`. */
  function SearchCacheUri(req: PubmedRequest): (r: string)
    ensures StartsWith(r, "ncbi_search://" + req.query + "_")
  {
    var head := "ncbi_search://" + req.query + "_";
    var u := head + PyStr(req.maxResults) + "_" + PyStr(req.publicationTypes) + "_" + PyStr(req.dateRange);
    assert u[..|head|] == head;
    u
  }

  /** The `esearch` query string. */
  function ESearchParams(term: string, maxResults: Json): (r: seq<(string, Json)>)
    ensures Keys(r) == ["db", "term", "retmax", "retmode", "sort"]
    ensures r[1].1 == JStr(term) && r[2].1 == JStr(PyStr(maxResults))
  {
    [("db", JStr("pubmed")), ("term", JStr(term)), ("retmax", JStr(PyStr(maxResults))),
     ("retmode", JStr("xml")), ("sort", JStr("relevance"))]
  }

  /** The `efetch` query string: the PMIDs joined with commas. */
  function EFetchParams(pmids: seq<string>, includeAbstracts: Json): (r: seq<(string, Json)>)
    ensures Keys(r) == ["db", "id", "retmode", "rettype"]
    ensures r[1].1 == JStr(Join(",", pmids))
    ensures r[3].1 == JStr(if Truthy(includeAbstracts) then "abstract" else "medline")
  {
    [("db", JStr("pubmed")), ("id", JStr(Join(",", pmids))), ("retmode", JStr("xml")),
     ("rettype", JStr(if Truthy(includeAbstracts) then "abstract" else "medline"))]
  }

  /** The payload rebuilt from a cached item; the content must be a
      dictionary, as its `.get` is called. */
  function CachedPayload(cached: Json, query: string): (r: Reply)
    ensures r.Success? <==> cached.JObj? && Field(cached.entries, "content", Empty).JObj?
    ensures r.Success? ==> r.knowledgeItems.None? && r.payload.JObj? &&
                           Keys(r.payload.entries) == ["query", "source", "total_results", "articles", "search_metadata"] &&
                           r.payload.entries[1].1 == JStr("knowledge_base_cache")
    ensures !r.Success? ==> r == Crashed(SearchFailedPrefix)
  {
    match Get(cached, "content", Empty)
    case Raised => Crashed(SearchFailedPrefix)
    case Ok(content) =>
      match AsObject(content)
      case Raised => Crashed(SearchFailedPrefix)
      case Ok(es) =>
        Success(JObj([("query", JStr(query)), ("source", JStr("knowledge_base_cache")),
                      ("total_results", Field(es, "total_results", JInt(0))),
                      ("articles", Field(es, "articles", JArr([]))),
                      ("search_metadata", Field(es, "search_metadata", Empty))]), None)
  }

  /** The payload when `esearch` finds nothing. */
  function NoArticlesPayload(query: string): (r: Json)
    ensures r.JObj? && Keys(r.entries) == ["query", "total_results", "articles", "message"]
    ensures r.entries[1].1 == JInt(0) && r.entries[2].1 == JArr([])
  {
    JObj([("query", JStr(query)), ("total_results", JInt(0)), ("articles", JArr([])),
          ("message", JStr(NoArticlesMessage))])
  }

  /** The result set; `timestamp` stands for `datetime.utcnow().isoformat()`. */
  function SearchResultsJson(req: PubmedRequest, term: string, articles: seq<Json>, timestamp: string): (r: Json)
    ensures r.JObj? && Keys(r.entries) == ["query", "total_results", "articles", "search_metadata"]
    ensures r.entries[1].1 == JInt(|articles|) && r.entries[2].1 == JArr(articles)
  {
    JObj([("query", JStr(req.query)), ("total_results", JInt(|articles|)), ("articles", JArr(articles)),
          ("search_metadata", JObj([("search_query_used", JStr(term)),
                                    ("publication_types_filter", req.publicationTypes),
                                    ("date_range_filter", req.dateRange),
                                    ("max_results_requested", req.maxResults),
                                    ("search_timestamp", JStr(timestamp))]))])
  }

  /** The knowledge item offered for a non-empty result set. */
  function SearchKnowledgeItem(results: Json, uri: string, query: string, count: nat): (r: Json)
    ensures r.JObj? && Keys(r.entries) == ["item_type", "content", "source_uri", "metadata"]
    ensures r.entries[1].1 == results && r.entries[2].1 == JStr(uri)
  {
    JObj([("item_type", JStr("PUBMED_SEARCH_RESULTS")), ("content", results), ("source_uri", JStr(uri)),
          ("metadata", JObj([("query", JStr(query)), ("result_count", JInt(count)),
                             ("search_type", JStr("pubmed_clinical_search"))]))])
  }

  /** After `efetch` was sent: the articles parsed from its reply. */
  function FetchedArticles(req: PubmedRequest, term: string, uri: string, efetch: XmlReply, timestamp: string)
    : (r: Reply)
  {
    if efetch.status != 200 then
      Failure(SearchFailedPrefix + "NCBI efetch API returned status " + IntToStr(efetch.status))
    else
      match efetch.tree
      case Raised => Crashed(SearchFailedPrefix)
      case Ok(root) =>
        ResultsReply(req, term, uri, FilterMap(FindAll(root, "PubmedArticle"), ArticleParser(req.includeAbstracts)),
                     timestamp)
  }

  /** The success reply for the articles read. */
  function ResultsReply(req: PubmedRequest, term: string, uri: string, articles: seq<Json>, timestamp: string)
    : (r: Reply)
  {
    var results := SearchResultsJson(req, term, articles, timestamp);
    Success(results, Some(if articles == [] then [] else [SearchKnowledgeItem(results, uri, req.query, |articles|)]))
  }

  /** After the cache missed: the term, `esearch`, and `efetch` when PMIDs
      were found. */
  function SearchAndFetch(req: PubmedRequest, uri: string, esearch: XmlReply, efetch: XmlReply, timestamp: string)
    : (r: (Reply, seq<Effect>))
  {
    match SearchTerm(req.query, req.publicationTypes, req.dateRange)
    case Raised => (Crashed(SearchFailedPrefix), [])
    case Ok(term) =>
      var first := [HttpGet(ESearchUrl, ESearchParams(term, req.maxResults))];
      if esearch.status != 200 then
        (Failure(SearchFailedPrefix + "NCBI esearch API returned status " + IntToStr(esearch.status)), first)
      else
        match esearch.tree
        case Raised => (Crashed(SearchFailedPrefix), first)
        case Ok(root) =>
          var pmids := FilterMap(FindAll(root, "Id"), NonEmptyText);
          if pmids == [] then (Success(NoArticlesPayload(req.query), None), first)
          else
            (FetchedArticles(req, term, uri, efetch, timestamp),
             first + [HttpGet(EFetchUrl, EFetchParams(pmids, req.includeAbstracts))])
  }

  /** The reply and the effects of one `exec_async` call, as a value. */
  function PubmedReply(toolParams: Json, kb: Option<Store>, esearch: XmlReply, efetch: XmlReply, timestamp: string)
    : (r: (Reply, seq<Effect>))
  {
    match ReadPubmedRequest(toolParams)
    case Raised => (Crashed(SearchFailedPrefix), [])
    case Ok(req) =>
      if req.query == [] then (Failure(EmptyQueryMessage), [])
      else CacheOrSearch(req, kb, esearch, efetch, timestamp)
  }

  /** A request with a query: the cache when there is a store, then the
      search on a miss. */
  function CacheOrSearch(req: PubmedRequest, kb: Option<Store>, esearch: XmlReply, efetch: XmlReply,
                         timestamp: string): (r: (Reply, seq<Effect>))
  {
    var uri := SearchCacheUri(req);
    var lookups := if kb.Some? then [StoreLookup(uri)] else [];
    if CacheHit(kb, uri) then (CachedPayload(StoreGet(kb.value, uri), req.query), lookups)
    else
      var rest := SearchAndFetch(req, uri, esearch, efetch, timestamp);
      (rest.0, lookups + rest.1)
  }

  /** `_fetch_article_details` and the result assembly. */
  method FetchDetails(req: PubmedRequest, term: string, uri: string, efetch: XmlReply, timestamp: string)
    returns (resp: Reply)
    ensures resp == FetchedArticles(req, term, uri, efetch, timestamp)
  {
    if efetch.status != 200 {
      return Failure(SearchFailedPrefix + "NCBI efetch API returned status " + IntToStr(efetch.status));
    }
    if efetch.tree.Raised? {
      return Crashed(SearchFailedPrefix);
    }
    var articles := CollectArticles(efetch.tree.value, req.includeAbstracts);
    var results := SearchResultsJson(req, term, articles, timestamp);
    var items := [];
    if articles != [] {
      items := [SearchKnowledgeItem(results, uri, req.query, |articles|)];
    }
    resp := Success(results, Some(items));
    assert resp == ResultsReply(req, term, uri, articles, timestamp);
  }

  /** The steps after a cache miss. */
  method RunSearch(req: PubmedRequest, uri: string, esearch: XmlReply, efetch: XmlReply, timestamp: string)
    returns (resp: Reply, effects: seq<Effect>)
    ensures (resp, effects) == SearchAndFetch(req, uri, esearch, efetch, timestamp)
  {
    var built := BuildSearchQuery(req.query, req.publicationTypes, req.dateRange);
    if built.Raised? {
      return Crashed(SearchFailedPrefix), [];
    }
    var term := built.value;
    effects := [HttpGet(ESearchUrl, ESearchParams(term, req.maxResults))];
    if esearch.status != 200 {
      return Failure(SearchFailedPrefix + "NCBI esearch API returned status " + IntToStr(esearch.status)), effects;
    }
    if esearch.tree.Raised? {
      return Crashed(SearchFailedPrefix), effects;
    }
    var pmids := ExtractPmids(esearch.tree.value);
    if pmids == [] {
      return Success(NoArticlesPayload(req.query), None), effects;
    }
    effects := effects + [HttpGet(EFetchUrl, EFetchParams(pmids, req.includeAbstracts))];
    resp := FetchDetails(req, term, uri, efetch, timestamp);
  }

  /** `exec_async`: validate, consult the cache, then search and fetch. */
  method SearchPubmed(toolParams: Json, kb: Option<Store>, esearch: XmlReply, efetch: XmlReply, timestamp: string)
    returns (resp: Reply, effects: seq<Effect>)
    ensures (resp, effects) == PubmedReply(toolParams, kb, esearch, efetch, timestamp)
  {
    var request := ReadPubmedRequest(toolParams);
    if request.Raised? {
      return Crashed(SearchFailedPrefix), [];
    }
    var req := request.value;
    if req.query == [] {
      return Failure(EmptyQueryMessage), [];
    }
    var uri := SearchCacheUri(req);
    effects := [];
    if kb.Some? {
      effects := [StoreLookup(uri)];
      var cached := StoreGet(kb.value, uri);
      if Truthy(cached) {
        return CachedPayload(cached, req.query), effects;
      }
    }
    var rest, more := RunSearch(req, uri, esearch, efetch, timestamp);
    resp, effects := rest, effects + more;
  }

  // ---------------------------------------------------------------------------
  // Properties of the tool call
  // ---------------------------------------------------------------------------

  /** An empty query fails before any store lookup or request. */
  lemma EmptyQueryNoEffects(toolParams: Json, kb: Option<Store>, esearch: XmlReply, efetch: XmlReply,
                            timestamp: string)
    requires ReadPubmedRequest(toolParams).Ok? && ReadPubmedRequest(toolParams).value.query == []
    ensures PubmedReply(toolParams, kb, esearch, efetch, timestamp) == (Failure(EmptyQueryMessage), [])
  {
  }

  /** `esearch` is asked for at most 100 records. */
  lemma RetmaxCapped(toolParams: Json)
    requires ReadPubmedRequest(toolParams).Ok?
    ensures var m := ReadPubmedRequest(toolParams).value.maxResults;
            (m.JInt? && m.i <= 100) || m.JBool?
  {
    var v := Field(toolParams.entries, "max_results", JInt(20));
    assert ReadPubmedRequest(toolParams).value.maxResults == PyMin(v, 100).value;
    assert v.JInt? || v.JBool?;
  }

  /** With a store the cache is consulted first; a hit is returned with no
      request, and a miss goes on to search and fetch, whose first request
      is `esearch`. Without a store nothing is looked up. */
  lemma CacheHitSkipsRequest(req: PubmedRequest, kb: Option<Store>, esearch: XmlReply, efetch: XmlReply,
                             timestamp: string)
    ensures var uri := SearchCacheUri(req);
            var r := CacheOrSearch(req, kb, esearch, efetch, timestamp);
            var lookups := if kb.Some? then [StoreLookup(uri)] else [];
            var miss := SearchAndFetch(req, uri, esearch, efetch, timestamp);
            && (kb.Some? <==> r.1 != [] && r.1[0] == StoreLookup(uri))
            && (CacheHit(kb, uri) ==> r == (CachedPayload(StoreGet(kb.value, uri), req.query), [StoreLookup(uri)]))
            && (CacheHit(kb, uri) ==> forall e :: e in r.1 ==> !e.HttpGet?)
            && (!CacheHit(kb, uri) ==> r == (miss.0, lookups + miss.1))
            && (!CacheHit(kb, uri) && SearchTerm(req.query, req.publicationTypes, req.dateRange).Ok? ==>
                  |r.1| > |lookups| &&
                  r.1[|lookups|] == HttpGet(ESearchUrl, ESearchParams(SearchTerm(req.query, req.publicationTypes, req.dateRange).value, req.maxResults)))
  {
    var uri := SearchCacheUri(req);
    if !CacheHit(kb, uri) && SearchTerm(req.query, req.publicationTypes, req.dateRange).Ok? {
      RequestsInOrder(req, uri, esearch, efetch, timestamp);
    }
  }

  /** A query that reads and is not empty goes to the cache, then the search. */
  lemma QueryConsultsCache(toolParams: Json, kb: Option<Store>, esearch: XmlReply, efetch: XmlReply, timestamp: string)
    requires ReadPubmedRequest(toolParams).Ok? && ReadPubmedRequest(toolParams).value.query != []
    ensures PubmedReply(toolParams, kb, esearch, efetch, timestamp) ==
              CacheOrSearch(ReadPubmedRequest(toolParams).value, kb, esearch, efetch, timestamp)
  {
  }

  /** After a cache miss, the first request is `esearch` with the built
      term, and `efetch` follows only when PMIDs were found. */
  lemma RequestsInOrder(req: PubmedRequest, uri: string, esearch: XmlReply, efetch: XmlReply, timestamp: string)
    requires SearchTerm(req.query, req.publicationTypes, req.dateRange).Ok?
    ensures var r := SearchAndFetch(req, uri, esearch, efetch, timestamp);
            var term := SearchTerm(req.query, req.publicationTypes, req.dateRange).value;
            && 1 <= |r.1| <= 2
            && r.1[0] == HttpGet(ESearchUrl, ESearchParams(term, req.maxResults))
            && (|r.1| == 2 <==> esearch.status == 200 && esearch.tree.Ok? &&
                                FilterMap(FindAll(esearch.tree.value, "Id"), NonEmptyText) != [])
            && (|r.1| == 2 ==> r.1[1] == HttpGet(EFetchUrl, EFetchParams(FilterMap(FindAll(esearch.tree.value, "Id"), NonEmptyText), req.includeAbstracts)))
  {
  }

  /** A knowledge item is offered exactly when some article was read; its
      `source_uri` is the cache URI, and `total_results` is the number of
      articles. */
  lemma KnowledgeItemIffArticles(req: PubmedRequest, term: string, uri: string, articles: seq<Json>,
                                 timestamp: string)
    ensures var r := ResultsReply(req, term, uri, articles, timestamp);
            var es := r.payload.entries;
            && r.payload.JObj? && r.knowledgeItems.Some?
            && Lookup(es, "articles") == Some(JArr(articles))
            && Lookup(es, "total_results") == Some(JInt(|articles|))
            && (r.knowledgeItems.value != [] <==> articles != [])
            && (r.knowledgeItems.value != [] ==>
                  |r.knowledgeItems.value| == 1 && r.knowledgeItems.value[0].JObj? &&
                  Lookup(r.knowledgeItems.value[0].entries, "source_uri") == Some(JStr(uri)))
  {
    var results := SearchResultsJson(req, term, articles, timestamp);
    var es := results.entries;
    assert Sorting.UniqueKeys(es);
    LookupUnique(es, 1);
    LookupUnique(es, 2);
    var item := SearchKnowledgeItem(results, uri, req.query, |articles|);
    assert Sorting.UniqueKeys(item.entries);
    LookupUnique(item.entries, 2);
  }
}
