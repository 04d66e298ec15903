/** What the three search connectors share: the knowledge-base store they
    consult, the HTTP reply they are given, the effects they perform and the
    reply they return to the agent. */
module Connectors {
  import opened Outcomes
  import opened PyText
  import opened Json
  import XmlTree

  /** The knowledge base as seen through `kb.get_item_by_uri(uri)`: a stored
      item, or nothing. */
  type Store = map<string, Json>

  /** `await kb.get_item_by_uri(uri)`, `None` for an unknown URI. */
  function StoreGet(kb: Store, uri: string): (r: Json)
    ensures uri !in kb ==> r == JNull
    ensures uri in kb ==> r == kb[uri]
  {
    if uri in kb then kb[uri] else JNull
  }

  /** The externally visible steps a connector takes, in order. */
  datatype Effect =
    | StoreLookup(uri: string)
    | HttpGet(url: string, params: seq<(string, Json)>)

  /** What the HTTP layer hands back: the status code, the body as text and
      the body decoded as JSON (`Raised` when it is not JSON). */
  datatype HttpReply = HttpReply(status: int, text: string, body: Outcome<Json>)

  /** An E-utilities reply: the status code and the body parsed as XML
      (`Raised` when `ET.fromstring` rejects it). */
  datatype XmlReply = XmlReply(status: int, tree: Outcome<XmlTree.Element>)

  /** The dictionary a tool returns. `Failure` is `status="error"` with a
      fully determined message; `Crashed` is the catch-all handler's
      `status="error"` whose message is `prefix` followed by the text of an
      exception that is not modelled; `Success` is `status="success"` with
      the payload and, when the key is present, `_knowledge_items_to_add`. */
  datatype Reply =
    | Failure(message: string)
    | Crashed(prefix: string)
    | Success(payload: Json, knowledgeItems: Option<seq<Json>>)

  /** `tool_params.get(key, "").strip()`: only a string can be stripped. */
  function TextParam(es: seq<(string, Json)>, key: string): (r: Outcome<string>)
    ensures r.Ok? <==> Field(es, key, JStr("")).JStr?
    ensures Lookup(es, key).None? ==> r == Ok("")
    ensures r.Ok? ==> r.value == Strip(Field(es, key, JStr("")).s)
  {
    var s :- AsStr(Field(es, key, JStr("")));
    Ok(Strip(s))
  }

  /** Whether the knowledge base holds a truthy item under `uri`. */
  predicate CacheHit(kb: Option<Store>, uri: string)
  {
    kb.Some? && Truthy(StoreGet(kb.value, uri))
  }
}
