/** The article-fetch connector's tool call (`NCBIFetchNode.exec_async` and
    `_fetch_detailed_articles`): the PMIDs are validated, split between
    the knowledge base and a single `efetch` request, and the detailed
    records are returned with a knowledge item for every newly fetched
    article. The record of one article is built in module NcbiArticle. */
module NcbiFetch {
  import opened Outcomes
  import opened PyText
  import opened Json
  import opened Seqs
  import opened XmlTree
  import opened Connectors
  import opened NcbiArticle
  import NcbiSearch

  const FetchFailedPrefix := "NCBI article fetch failed: "
  const NoPmidsMessage := "At least one PMID must be provided"
  const InvalidPmidsMessage := "No valid PMIDs provided. PMIDs must be numeric."
  const NoArticlesMessage := "No articles found for the provided PMIDs"

  const ArticleUriPrefix := "ncbi_article://"
  const ArticleUriSuffix := "_detailed"

  // ---------------------------------------------------------------------------
  // The request
  // ---------------------------------------------------------------------------

  /** `f"ncbi_article://{pmid}_detailed"`: the key an article is cached and
      offered under. */
  function ArticleUri(pmid: string): string
  {
    ArticleUriPrefix + pmid + ArticleUriSuffix
  }

  /** The key starts with the scheme, ends with the suffix, and holds the
      PMID between the two, so different PMIDs are cached under different
      keys. */
  lemma ArticleUriInjective(p: string, q: string)
    ensures StartsWith(ArticleUri(p), ArticleUriPrefix) && EndsWith(ArticleUri(p), ArticleUriSuffix)
    ensures ArticleUri(p) == ArticleUri(q) <==> p == q
  {
    var u := ArticleUri(p);
    assert u[..|ArticleUriPrefix|] == ArticleUriPrefix;
    assert u[|u| - |ArticleUriSuffix|..] == ArticleUriSuffix;
    assert u[|ArticleUriPrefix|..|u| - |ArticleUriSuffix|] == p;
    if u == ArticleUri(q) {
      var v := ArticleUri(q);
      assert v[|ArticleUriPrefix|..|v| - |ArticleUriSuffix|] == q;
    }
  }

  /** The parameters after defaults: the PMIDs as given and the three
      switches, each read for its truth value. */
  datatype FetchRequest = FetchRequest(pmids: Json, flags: Flags)

  /** Reading the parameters: a truthy `pmid` replaces the `pmids` list;
      MeSH terms and grants are on and references off unless the caller
      says otherwise. Only a dictionary has `.get`. */
  function ReadFetchRequest(toolParams: Json): (r: Outcome<FetchRequest>)
    ensures r.Ok? <==> toolParams.JObj?
    ensures r.Ok? ==> var es := toolParams.entries;
                      var single := Field(es, "pmid", JNull);
                      && (Truthy(single) ==> r.value.pmids == JArr([single]))
                      && (!Truthy(single) ==> r.value.pmids == Field(es, "pmids", JArr([])))
                      && (Lookup(es, "include_mesh_terms").None? ==> r.value.flags.mesh)
                      && (Lookup(es, "include_references").None? ==> !r.value.flags.references)
                      && (Lookup(es, "include_grants").None? ==> r.value.flags.grants)
  {
    var es :- AsObject(toolParams);
    var single := Field(es, "pmid", JNull);
    var pmids := if Truthy(single) then JArr([single]) else Field(es, "pmids", JArr([]));
    Ok(FetchRequest(pmids, Flags(Truthy(Field(es, "include_mesh_terms", JBool(true))),
                                 Truthy(Field(es, "include_references", JBool(false))),
                                 Truthy(Field(es, "include_grants", JBool(true))))))
  }

  /** `str(pmid).strip()` when it is all digits. */
  function ValidPmid(v: Json): (r: Option<string>)
    ensures r.Some? <==> IsDigits(Strip(PyStr(v)))
    ensures r.Some? ==> r.value == Strip(PyStr(v))
  {
    var s := Strip(PyStr(v));
    if IsDigits(s) then Some(s) else None
  }

  /** The validation loop, appending the stripped PMIDs that are numeric. */
  method ValidatePmids(items: seq<Json>) returns (valid: seq<string>)
    ensures valid == FilterMap(items, ValidPmid)
  {
    var check: Json -> Option<string> := ValidPmid;
    valid := [];
    for i := 0 to |items|
      invariant valid == FilterMap(items[..i], check)
    {
      FilterMapPrefixStep(items, i, check);
      var s := Strip(PyStr(items[i]));
      if IsDigits(s) {
        valid := valid + [s];
      }
    }
    assert items[..|items|] == items;
  }

  /** The valid PMIDs are numeric, never more than the inputs, and are
      exactly the stripped inputs that are numeric. */
  lemma ValidPmidsNumeric(items: seq<Json>, s: string)
    ensures var valid := FilterMap(items, ValidPmid);
            && |valid| <= |items|
            && (s in valid <==> IsDigits(s) && exists i :: 0 <= i < |items| && Strip(PyStr(items[i])) == s)
  {
    FilterMapLength(items, ValidPmid);
    FilterMapMembers(items, ValidPmid, s);
  }

  // ---------------------------------------------------------------------------
  // The knowledge-base split
  // ---------------------------------------------------------------------------

  /** One PMID against the store: `Some(content)` for a cache hit, `None`
      for a miss; the content of a stored item that is not a dictionary
      cannot be read with `.get`. */
  function CacheStep(kb: Store, pmid: string): (r: Outcome<Option<Json>>)
    ensures r.Ok? && r.value.None? <==> !Truthy(StoreGet(kb, ArticleUri(pmid)))
    ensures r.Raised? <==> Truthy(StoreGet(kb, ArticleUri(pmid))) && !StoreGet(kb, ArticleUri(pmid)).JObj?
  {
    var cached := StoreGet(kb, ArticleUri(pmid));
    if !Truthy(cached) then Ok(None)
    else
      var content :- Get(cached, "content", Empty);
      Ok(Some(content))
  }

  /** The articles found in the store and the PMIDs still to fetch. */
  datatype Split = Split(cached: seq<Json>, toFetch: seq<string>)

  /** One turn of the cache loop: nothing happens once an item could not be
      read; otherwise the PMID is looked up and goes to one of the two
      lists. */
  function SplitStep(prev: (Outcome<Split>, seq<Effect>), kb: Store, p: string): (r: (Outcome<Split>, seq<Effect>))
    ensures prev.0.Raised? ==> r == prev
    ensures prev.0.Ok? ==> r.1 == prev.1 + [StoreLookup(ArticleUri(p))]
  {
    if prev.0.Raised? then prev
    else
      var effects := prev.1 + [StoreLookup(ArticleUri(p))];
      match CacheStep(kb, p)
      case Raised => (Raised, effects)
      case Ok(None) => (Ok(Split(prev.0.value.cached, prev.0.value.toFetch + [p])), effects)
      case Ok(Some(c)) => (Ok(Split(prev.0.value.cached + [c], prev.0.value.toFetch)), effects)
  }

  /** The cache loop over `pmids`, as a value: the split once every PMID was
      looked up, or `Raised` at the first unreadable item, with the lookups
      made until then. */
  function SplitRun(kb: Store, pmids: seq<string>): (r: (Outcome<Split>, seq<Effect>))
    decreases |pmids|
  {
    if pmids == [] then (Ok(Split([], [])), [])
    else SplitStep(SplitRun(kb, pmids[..|pmids| - 1]), kb, pmids[|pmids| - 1])
  }

  /** A PMID that misses the store. */
  function MissOf(kb: Store): string -> Option<string>
  {
    (p: string) => if Truthy(StoreGet(kb, ArticleUri(p))) then None else Some(p)
  }

  /** The content of a PMID that hits the store. */
  function HitOf(kb: Store): string -> Option<Json>
  {
    (p: string) => match CacheStep(kb, p) case Ok(Some(c)) => Some(c) case _ => None
  }

  /** One lookup per PMID, in order. */
  function Lookups(pmids: seq<string>): seq<Effect>
    decreases |pmids|
  {
    if pmids == [] then [] else Lookups(pmids[..|pmids| - 1]) + [StoreLookup(ArticleUri(pmids[|pmids| - 1]))]
  }

  /** The `i`-th lookup is of the `i`-th PMID's key. */
  lemma {:induction false} LookupsAt(pmids: seq<string>, i: nat)
    requires i < |pmids|
    ensures |Lookups(pmids)| == |pmids| && Lookups(pmids)[i] == StoreLookup(ArticleUri(pmids[i]))
    decreases |pmids|
  {
    LookupsLength(pmids);
    if i < |pmids| - 1 {
      LookupsAt(pmids[..|pmids| - 1], i);
    }
  }

  /** One lookup per PMID. */
  lemma {:induction false} LookupsLength(pmids: seq<string>)
    ensures |Lookups(pmids)| == |pmids|
    decreases |pmids|
  {
    if pmids != [] {
      LookupsLength(pmids[..|pmids| - 1]);
    }
  }

  /** A completed turn: the PMID's miss or hit is appended to the matching
      list. */
  lemma SplitStepOk(prev: (Outcome<Split>, seq<Effect>), kb: Store, p: string)
    requires prev.0.Ok? && SplitStep(prev, kb, p).0.Ok?
    ensures var m := MissOf(kb)(p);
            var h := HitOf(kb)(p);
            var r := SplitStep(prev, kb, p).0.value;
            && r.toFetch == prev.0.value.toFetch + (if m.Some? then [m.value] else [])
            && r.cached == prev.0.value.cached + (if h.Some? then [h.value] else [])
            && (m.Some? <==> h.None?)
  {
  }

  /** When the loop completes, every PMID was looked up once, in order; the
      misses, in order, are the PMIDs to fetch; the hits' contents, in
      order, are the cached articles. */
  lemma {:induction false} SplitRunOk(kb: Store, pmids: seq<string>)
    requires SplitRun(kb, pmids).0.Ok?
    ensures var r := SplitRun(kb, pmids);
            && r.0.value.toFetch == FilterMap(pmids, MissOf(kb))
            && r.0.value.cached == FilterMap(pmids, HitOf(kb))
            && |r.0.value.cached| + |r.0.value.toFetch| == |pmids|
    decreases |pmids|
  {
    if pmids != [] {
      var init := pmids[..|pmids| - 1];
      var p := pmids[|pmids| - 1];
      var prev := SplitRun(kb, init);
      assert pmids == init + [p];
      assert prev.0.Ok?;
      SplitRunOk(kb, init);
      SplitStepOk(prev, kb, p);
      FilterMapSnoc(init, p, MissOf(kb));
      FilterMapSnoc(init, p, HitOf(kb));
    }
  }

  /** The loop looks every PMID up once, in order, until an item cannot be
      read. */
  lemma {:induction false} SplitRunLookups(kb: Store, pmids: seq<string>)
    requires SplitRun(kb, pmids).0.Ok?
    ensures SplitRun(kb, pmids).1 == Lookups(pmids)
    decreases |pmids|
  {
    if pmids != [] {
      SplitRunLookups(kb, pmids[..|pmids| - 1]);
    }
  }

  /** Each valid PMID lands in exactly one place: it is to be fetched
      exactly when the store has nothing truthy under its key. */
  lemma SplitPartition(kb: Store, pmids: seq<string>, i: nat)
    requires SplitRun(kb, pmids).0.Ok? && i < |pmids|
    ensures pmids[i] in SplitRun(kb, pmids).0.value.toFetch <==> !Truthy(StoreGet(kb, ArticleUri(pmids[i])))
  {
    SplitRunOk(kb, pmids);
    FilterMapMembers(pmids, MissOf(kb), pmids[i]);
  }

  /** Once an item could not be read, the rest of the loop does not run. */
  lemma {:induction false} SplitRunStops(kb: Store, pmids: seq<string>, n: nat)
    requires n <= |pmids| && SplitRun(kb, pmids[..n]).0.Raised?
    ensures SplitRun(kb, pmids) == SplitRun(kb, pmids[..n])
    decreases |pmids| - n
  {
    if n < |pmids| {
      assert pmids[..n + 1][..n] == pmids[..n];
      SplitRunStops(kb, pmids, n + 1);
    } else {
      assert pmids[..n] == pmids;
    }
  }

  /** The cache loop: each PMID is looked up; a hit appends the item's
      content to the cached articles, a miss appends the PMID to those to
      fetch. */
  method SplitCache(kb: Store, pmids: seq<string>) returns (split: Outcome<Split>, effects: seq<Effect>)
    ensures (split, effects) == SplitRun(kb, pmids)
  {
    var cached: seq<Json> := [];
    var toFetch: seq<string> := [];
    effects := [];
    for i := 0 to |pmids|
      invariant SplitRun(kb, pmids[..i]) == (Ok(Split(cached, toFetch)), effects)
    {
      var p := pmids[i];
      assert pmids[..i + 1][..i] == pmids[..i];
      effects := effects + [StoreLookup(ArticleUri(p))];
      var cachedResult := StoreGet(kb, ArticleUri(p));
      if Truthy(cachedResult) {
        var content := Get(cachedResult, "content", Empty);
        if content.Raised? {
          SplitRunStops(kb, pmids, i + 1);
          return Raised, effects;
        }
        cached := cached + [content.value];
      } else {
        toFetch := toFetch + [p];
      }
    }
    assert pmids[..|pmids|] == pmids;
    split := Ok(Split(cached, toFetch));
  }

  /** The split, consulting the store when there is one; without a store
      every PMID is fetched. */
  function Consult(kb: Option<Store>, valid: seq<string>): (r: (Outcome<Split>, seq<Effect>))
    ensures kb.None? ==> r == (Ok(Split([], valid)), [])
  {
    if kb.Some? then SplitRun(kb.value, valid) else (Ok(Split([], valid)), [])
  }

  // ---------------------------------------------------------------------------
  // The efetch request (`_fetch_detailed_articles`)
  // ---------------------------------------------------------------------------

  /** The `efetch` query string for the full records. */
  function EFetchDetailedParams(pmids: seq<string>): (r: seq<(string, Json)>)
    ensures Keys(r) == ["db", "id", "retmode", "rettype"]
    ensures r[1].1 == JStr(Join(",", pmids)) && r[3].1 == JStr("full")
  {
    [("db", JStr("pubmed")), ("id", JStr(Join(",", pmids))), ("retmode", JStr("xml")), ("rettype", JStr("full"))]
  }

  /** The request made for a non-empty list of PMIDs. */
  function FetchEffects(pmids: seq<string>): (r: seq<Effect>)
    ensures |r| <= 1 && (r == [] <==> pmids == [])
  {
    if pmids == [] then [] else [HttpGet(NcbiSearch.EFetchUrl, EFetchDetailedParams(pmids))]
  }

  /** The outcome of the fetch: the articles read, or the reply the tool
      call ends with. */
  datatype Fetch = Fetched(articles: seq<Json>) | Stopped(reply: Reply)

  /** `_fetch_detailed_articles` as a value: nothing to fetch gives no
      articles; a status other than 200 raises with the status in the
      message; a body that is not XML raises; otherwise every
      `PubmedArticle` that can be read is returned, in order. */
  function FetchDetailed(pmids: seq<string>, flags: Flags, efetch: XmlReply, timestamp: string): (r: Fetch)
    ensures pmids == [] ==> r == Fetched([])
    ensures pmids != [] && efetch.status != 200 ==>
              r == Stopped(Failure(FetchFailedPrefix + "NCBI efetch API returned status " + IntToStr(efetch.status)))
    ensures r.Fetched? && pmids != [] ==>
              (efetch.status == 200 && efetch.tree.Ok? &&
               r.articles == FilterMap(FindAll(efetch.tree.value, "PubmedArticle"), DetailedParser(flags, timestamp)))
  {
    if pmids == [] then Fetched([])
    else if efetch.status != 200 then
      Stopped(Failure(FetchFailedPrefix + "NCBI efetch API returned status " + IntToStr(efetch.status)))
    else
      match efetch.tree
      case Raised => Stopped(Crashed(FetchFailedPrefix))
      case Ok(root) => Fetched(FilterMap(FindAll(root, "PubmedArticle"), DetailedParser(flags, timestamp)))
  }

  /** `_fetch_detailed_articles`: the status check, the parse and the
      article loop. */
  method FetchDetailedArticles(pmids: seq<string>, flags: Flags, efetch: XmlReply, timestamp: string)
    returns (r: Fetch)
    ensures r == FetchDetailed(pmids, flags, efetch, timestamp)
  {
    if pmids == [] {
      return Fetched([]);
    }
    if efetch.status != 200 {
      return Stopped(Failure(FetchFailedPrefix + "NCBI efetch API returned status " + IntToStr(efetch.status)));
    }
    if efetch.tree.Raised? {
      return Stopped(Crashed(FetchFailedPrefix));
    }
    var articles := CollectDetailed(efetch.tree.value, flags, timestamp);
    r := Fetched(articles);
  }

  // ---------------------------------------------------------------------------
  // The reply
  // ---------------------------------------------------------------------------

  /** The knowledge item of one fetched article, kept only when the article
      has a truthy `pmid`; the metadata title is the first 100 characters
      of the title, and slicing a title that is not a string or a list
      raises. */
  function ArticleItem(article: Json, timestamp: string): (r: Outcome<Option<Json>>)
    ensures article.JObj? && !Truthy(Field(article.entries, "pmid", JNull)) ==> r == Ok(None)
    ensures r.Ok? && r.value.Some? ==>
              article.JObj? &&
              var pmid := Field(article.entries, "pmid", JNull);
              var item := r.value.value;
              && Truthy(pmid)
              && item.JObj? && Keys(item.entries) == ["item_type", "content", "source_uri", "metadata"]
              && item.entries[1].1 == article
              && item.entries[2].1 == JStr(ArticleUri(PyStr(pmid)))
              && item.entries[3].1.JObj?
              && Lookup(item.entries[3].1.entries, "title").Some?
              && Slice(Field(article.entries, "title", JStr("")), 100) == Ok(Lookup(item.entries[3].1.entries, "title").value)
    ensures article.JObj? && Truthy(Field(article.entries, "pmid", JNull)) ==>
              (r.Ok? <==> Slice(Field(article.entries, "title", JStr("")), 100).Ok?)
  {
    var es :- AsObject(article);
    var pmid := Field(es, "pmid", JNull);
    if !Truthy(pmid) then Ok(None)
    else
      var title :- Slice(Field(es, "title", JStr("")), 100);
      var metadata := [("pmid", pmid), ("title", title), ("fetch_type", JStr("detailed_article")),
                       ("fetch_timestamp", JStr(timestamp))];
      assert metadata[0].0 != "title" && metadata[1].0 == "title";
      assert FindKey(metadata, "title") == Some(1);
      Ok(Some(JObj([("item_type", JStr("PUBMED_ARTICLE_DETAILS")), ("content", article),
                    ("source_uri", JStr(ArticleUri(PyStr(pmid)))), ("metadata", JObj(metadata))])))
  }

  /** The item builder for a fixed timestamp. */
  function ItemParser(timestamp: string): Json -> Outcome<Option<Json>>
  {
    (a: Json) => ArticleItem(a, timestamp)
  }

  /** The payload when neither the store nor `efetch` gave an article. */
  function NoArticlesPayload(valid: seq<string>): (r: Json)
    ensures r.JObj? && Keys(r.entries) == ["pmids_requested", "articles_found", "articles", "message"]
    ensures r.entries[0].1 == JArr(Strings(valid)) && r.entries[1].1 == JInt(0) && r.entries[2].1 == JArr([])
  {
    JObj([("pmids_requested", JArr(Strings(valid))), ("articles_found", JInt(0)), ("articles", JArr([])),
          ("message", JStr(NoArticlesMessage))])
  }

  /** The payload of articles found: the cached ones first, then the
      fetched ones. */
  function ArticlesPayload(valid: seq<string>, cached: seq<Json>, fetched: seq<Json>, timestamp: string): (r: Json)
    ensures r.JObj? && Keys(r.entries) == ["pmids_requested", "articles_found", "articles", "fetch_metadata"]
    ensures r.entries[0].1 == JArr(Strings(valid))
    ensures r.entries[1].1 == JInt(|cached| + |fetched|) && r.entries[2].1 == JArr(cached + fetched)
  {
    JObj([("pmids_requested", JArr(Strings(valid))), ("articles_found", JInt(|cached + fetched|)),
          ("articles", JArr(cached + fetched)),
          ("fetch_metadata", JObj([("cached_articles", JInt(|cached|)), ("newly_fetched", JInt(|fetched|)),
                                   ("fetch_timestamp", JStr(timestamp))]))])
  }

  /** The reply once the articles are known: the no-articles payload, or the
      articles with a knowledge item per fetched article that has a
      PMID. */
  function ArticlesReply(valid: seq<string>, cached: seq<Json>, fetched: seq<Json>, timestamp: string): (r: Reply)
    ensures cached + fetched == [] ==> r == Success(NoArticlesPayload(valid), None)
    ensures cached + fetched != [] ==>
              (r.Success? <==> TryFilterMap(fetched, ItemParser(timestamp)).Ok?)
    ensures cached + fetched != [] && r.Success? ==>
              r == Success(ArticlesPayload(valid, cached, fetched, timestamp),
                           Some(TryFilterMap(fetched, ItemParser(timestamp)).value))
    ensures !r.Success? ==> r == Crashed(FetchFailedPrefix)
  {
    if cached + fetched == [] then Success(NoArticlesPayload(valid), None)
    else
      match TryFilterMap(fetched, ItemParser(timestamp))
      case Raised => Crashed(FetchFailedPrefix)
      case Ok(items) => Success(ArticlesPayload(valid, cached, fetched, timestamp), Some(items))
  }

  /** The knowledge-item loop and the result assembly. */
  method AssembleReply(valid: seq<string>, cached: seq<Json>, fetched: seq<Json>, timestamp: string)
    returns (resp: Reply)
    ensures resp == ArticlesReply(valid, cached, fetched, timestamp)
  {
    var all := cached + fetched;
    if all == [] {
      return Success(NoArticlesPayload(valid), None);
    }
    var items := TryCollect(fetched, ItemParser(timestamp));
    if items.Raised? {
      return Crashed(FetchFailedPrefix);
    }
    resp := Success(ArticlesPayload(valid, cached, fetched, timestamp), Some(items.value));
  }

  /** After the split: the fetch of the PMIDs not in the store, then the
      reply. */
  function FetchAndAssemble(valid: seq<string>, split: Split, flags: Flags, efetch: XmlReply, timestamp: string)
    : (r: (Reply, seq<Effect>))
    ensures r.1 == FetchEffects(split.toFetch)
  {
    match FetchDetailed(split.toFetch, flags, efetch, timestamp)
    case Stopped(reply) => (reply, FetchEffects(split.toFetch))
    case Fetched(fetched) => (ArticlesReply(valid, split.cached, fetched, timestamp), FetchEffects(split.toFetch))
  }

  /** From the valid PMIDs on: the split, the fetch and the reply. */
  function ValidReply(valid: seq<string>, flags: Flags, kb: Option<Store>, efetch: XmlReply, timestamp: string)
    : (r: (Reply, seq<Effect>))
  {
    var consulted := Consult(kb, valid);
    match consulted.0
    case Raised => (Crashed(FetchFailedPrefix), consulted.1)
    case Ok(split) =>
      var rest := FetchAndAssemble(valid, split, flags, efetch, timestamp);
      (rest.0, consulted.1 + rest.1)
  }

  /** How the parameters are received: rejected with a reply, or accepted
      with the valid PMIDs and the switches. */
  datatype Validation = Rejected(reply: Reply) | Accepted(valid: seq<string>, flags: Flags)

  /** The checks `exec_async` makes before any lookup or request: the
      parameters must be a dictionary, some PMID must be given, the PMIDs
      must be iterable, and at least one must be numeric. */
  function Validate(toolParams: Json): (r: Validation)
    ensures r.Accepted? ==> r.valid != []
    ensures r.Rejected? ==>
              r.reply == Crashed(FetchFailedPrefix) || r.reply == Failure(NoPmidsMessage) ||
              r.reply == Failure(InvalidPmidsMessage)
  {
    match ReadFetchRequest(toolParams)
    case Raised => Rejected(Crashed(FetchFailedPrefix))
    case Ok(req) =>
      if !Truthy(req.pmids) then Rejected(Failure(NoPmidsMessage))
      else
        match PyIter(req.pmids)
        case Raised => Rejected(Crashed(FetchFailedPrefix))
        case Ok(items) =>
          var valid := FilterMap(items, ValidPmid);
          if valid == [] then Rejected(Failure(InvalidPmidsMessage)) else Accepted(valid, req.flags)
  }

  /** The reply and the effects of one `exec_async` call, as a value.
      Anything raised is caught and reported with the fetch-failed
      prefix. */
  function FetchReply(toolParams: Json, kb: Option<Store>, efetch: XmlReply, timestamp: string)
    : (r: (Reply, seq<Effect>))
  {
    match Validate(toolParams)
    case Rejected(reply) => (reply, [])
    case Accepted(valid, flags) => ValidReply(valid, flags, kb, efetch, timestamp)
  }

  /** The checks, with the validation loop. */
  method ValidateRequest(toolParams: Json) returns (v: Validation)
    ensures v == Validate(toolParams)
  {
    var request := ReadFetchRequest(toolParams);
    if request.Raised? {
      return Rejected(Crashed(FetchFailedPrefix));
    }
    var req := request.value;
    if !Truthy(req.pmids) {
      return Rejected(Failure(NoPmidsMessage));
    }
    var iterated := PyIter(req.pmids);
    if iterated.Raised? {
      return Rejected(Crashed(FetchFailedPrefix));
    }
    var valid := ValidatePmids(iterated.value);
    if valid == [] {
      return Rejected(Failure(InvalidPmidsMessage));
    }
    v := Accepted(valid, req.flags);
  }

  /** The store consultation, with the cache loop when there is a store. */
  method ConsultStore(kb: Option<Store>, valid: seq<string>) returns (split: Outcome<Split>, effects: seq<Effect>)
    ensures (split, effects) == Consult(kb, valid)
  {
    if kb.None? {
      return Ok(Split([], valid)), [];
    }
    split, effects := SplitCache(kb.value, valid);
  }

  /** The fetch of the misses, then the reply. */
  method FetchAndReply(valid: seq<string>, split: Split, flags: Flags, efetch: XmlReply, timestamp: string)
    returns (resp: Reply, effects: seq<Effect>)
    ensures (resp, effects) == FetchAndAssemble(valid, split, flags, efetch, timestamp)
  {
    effects := FetchEffects(split.toFetch);
    var fetch := FetchDetailedArticles(split.toFetch, flags, efetch, timestamp);
    if fetch.Stopped? {
      return fetch.reply, effects;
    }
    resp := AssembleReply(valid, split.cached, fetch.articles, timestamp);
  }

  /** After validation: the store, the fetch and the assembly. */
  method RunFetch(valid: seq<string>, flags: Flags, kb: Option<Store>, efetch: XmlReply, timestamp: string)
    returns (resp: Reply, effects: seq<Effect>)
    ensures (resp, effects) == ValidReply(valid, flags, kb, efetch, timestamp)
  {
    var split, lookups := ConsultStore(kb, valid);
    if split.Raised? {
      return Crashed(FetchFailedPrefix), lookups;
    }
    var fetches;
    resp, fetches := FetchAndReply(valid, split.value, flags, efetch, timestamp);
    effects := lookups + fetches;
  }

  /** `exec_async`: read the parameters, validate the PMIDs, then consult
      the store and fetch the rest. */
  method FetchArticles(toolParams: Json, kb: Option<Store>, efetch: XmlReply, timestamp: string)
    returns (resp: Reply, effects: seq<Effect>)
    ensures (resp, effects) == FetchReply(toolParams, kb, efetch, timestamp)
  {
    var v := ValidateRequest(toolParams);
    if v.Rejected? {
      return v.reply, [];
    }
    resp, effects := RunFetch(v.valid, v.flags, kb, efetch, timestamp);
  }

  // ---------------------------------------------------------------------------
  // Properties of the tool call
  // ---------------------------------------------------------------------------

  /** A request rejected by the checks makes no lookup and no request, and
      its reply is the rejection. */
  lemma RejectedNoEffects(toolParams: Json, kb: Option<Store>, efetch: XmlReply, timestamp: string)
    requires Validate(toolParams).Rejected?
    ensures FetchReply(toolParams, kb, efetch, timestamp) == (Validate(toolParams).reply, [])
  {
  }

  /** No PMID at all fails before any lookup or request. */
  lemma NoPmidsNoEffects(toolParams: Json)
    requires toolParams.JObj?
    requires !Truthy(Field(toolParams.entries, "pmid", JNull)) && !Truthy(Field(toolParams.entries, "pmids", JArr([])))
    ensures Validate(toolParams) == Rejected(Failure(NoPmidsMessage))
  {
  }

  /** A list with no numeric PMID fails before any lookup or request. */
  lemma InvalidPmidsNoEffects(toolParams: Json)
    requires toolParams.JObj? && !Truthy(Field(toolParams.entries, "pmid", JNull))
    requires var pmids := Field(toolParams.entries, "pmids", JArr([]));
             pmids.JArr? && pmids.items != [] &&
             forall i :: 0 <= i < |pmids.items| ==> !IsDigits(Strip(PyStr(pmids.items[i])))
    ensures Validate(toolParams) == Rejected(Failure(InvalidPmidsMessage))
  {
    var pmids := Field(toolParams.entries, "pmids", JArr([]));
    var items := pmids.items;
    assert ReadFetchRequest(toolParams).value.pmids == pmids;
    assert PyIter(pmids) == Ok(items);
    forall i | 0 <= i < |items|
      ensures ValidPmid(items[i]).None?
    {
    }
    FilterMapAllAbsent(items, ValidPmid);
  }

  /** A truthy single `pmid` replaces the list: the request is that one
      PMID, stripped, or none when it is not numeric. */
  lemma SinglePmidReplacesList(toolParams: Json)
    requires toolParams.JObj? && Truthy(Field(toolParams.entries, "pmid", JNull))
    ensures var single := Field(toolParams.entries, "pmid", JNull);
            var flags := ReadFetchRequest(toolParams).value.flags;
            Validate(toolParams) ==
              if IsDigits(Strip(PyStr(single))) then Accepted([Strip(PyStr(single))], flags)
              else Rejected(Failure(InvalidPmidsMessage))
  {
    var single := Field(toolParams.entries, "pmid", JNull);
    var req := ReadFetchRequest(toolParams).value;
    assert req.pmids == JArr([single]);
    assert PyIter(req.pmids) == Ok([single]);
    assert FilterMap([single], ValidPmid) == FilterMap([single][1..], ValidPmid) +
                                             (if ValidPmid(single).Some? then [ValidPmid(single).value] else []) by {
      FilterMapSnoc([], single, ValidPmid);
      assert [] + [single] == [single];
    }
    var valid := FilterMap([single], ValidPmid);
    if IsDigits(Strip(PyStr(single))) {
      assert valid == [Strip(PyStr(single))];
      assert Validate(toolParams) == Accepted(valid, req.flags);
    } else {
      assert valid == [];
      assert Validate(toolParams) == Rejected(Failure(InvalidPmidsMessage));
    }
  }

  /** Without a store every valid PMID is fetched in one request, and no
      lookup is made. */
  lemma NoStoreFetchesAll(valid: seq<string>, flags: Flags, efetch: XmlReply, timestamp: string)
    requires valid != []
    ensures ValidReply(valid, flags, None, efetch, timestamp).1 ==
              [HttpGet(NcbiSearch.EFetchUrl, EFetchDetailedParams(valid))]
  {
  }

  /** With a store and readable items: one lookup per valid PMID, in order,
      under its article key, then a single `efetch` for the misses when
      there are any. */
  lemma StoreEffectsInOrder(valid: seq<string>, flags: Flags, kb: Store, efetch: XmlReply, timestamp: string)
    requires SplitRun(kb, valid).0.Ok?
    ensures var r := ValidReply(valid, flags, Some(kb), efetch, timestamp);
            var toFetch := FilterMap(valid, MissOf(kb));
            r.1 == Lookups(valid) + FetchEffects(toFetch)
  {
    SplitRunOk(kb, valid);
    SplitRunLookups(kb, valid);
  }

  /** `articles` is the cached articles followed by the fetched ones, and
      `articles_found` is their number. */
  lemma ArticlesFoundCount(valid: seq<string>, cached: seq<Json>, fetched: seq<Json>, timestamp: string)
    requires ArticlesReply(valid, cached, fetched, timestamp).Success?
    ensures var r := ArticlesReply(valid, cached, fetched, timestamp);
            var es := r.payload.entries;
            && r.payload.JObj?
            && Lookup(es, "articles") == Some(JArr(cached + fetched))
            && Lookup(es, "articles_found") == Some(JInt(|cached| + |fetched|))
            && Lookup(es, "pmids_requested") == Some(JArr(Strings(valid)))
            && (r.knowledgeItems.Some? <==> cached + fetched != [])
  {
    if cached + fetched == [] {
      var es := NoArticlesPayload(valid).entries;
      assert Sorting.UniqueKeys(es);
      LookupUnique(es, 0);
      LookupUnique(es, 1);
      LookupUnique(es, 2);
    } else {
      var es := ArticlesPayload(valid, cached, fetched, timestamp).entries;
      assert Sorting.UniqueKeys(es);
      LookupUnique(es, 0);
      LookupUnique(es, 1);
      LookupUnique(es, 2);
    }
  }

  /** Knowledge items come only from fetched articles, never from cached
      ones: each item holds a fetched article with a truthy PMID and is
      offered under that PMID's article key. There are never more items
      than fetched articles. */
  lemma ItemsFromFetched(fetched: seq<Json>, timestamp: string, item: Json)
    requires TryFilterMap(fetched, ItemParser(timestamp)).Ok?
    requires item in TryFilterMap(fetched, ItemParser(timestamp)).value
    ensures |TryFilterMap(fetched, ItemParser(timestamp)).value| <= |fetched|
    ensures exists i :: 0 <= i < |fetched| && fetched[i].JObj? && Truthy(Field(fetched[i].entries, "pmid", JNull)) &&
                        item.JObj? && |item.entries| == 4 && item.entries[1] == ("content", fetched[i]) &&
                        item.entries[2] == ("source_uri", JStr(ArticleUri(PyStr(Field(fetched[i].entries, "pmid", JNull)))))
  {
    TryFilterMapMembers(fetched, ItemParser(timestamp), item);
    var i :| 0 <= i < |fetched| && ItemParser(timestamp)(fetched[i]) == Ok(Some(item));
    assert ArticleItem(fetched[i], timestamp) == Ok(Some(item));
    assert Keys(item.entries)[1] == "content" && Keys(item.entries)[2] == "source_uri";
  }

  /** A fetched record whose PMID is the string `p` is offered under the key
      the store is consulted with for `p`, so the next call finds it. */
  lemma ItemUriIsCacheKey(article: Json, timestamp: string, p: string)
    requires article.JObj? && Field(article.entries, "pmid", JNull) == JStr(p) && p != []
    requires ArticleItem(article, timestamp).Ok?
    ensures ArticleItem(article, timestamp).value.Some?
    ensures ArticleItem(article, timestamp).value.value.entries[2].1 == JStr(ArticleUri(p))
  {
  }
}
