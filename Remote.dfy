// The calls the backend makes against the Meilisearch server, recorded in
// order. The server itself is not modelled: a call's reply, where it
// matters, is an input of the operation that makes it.

module Remote {
  import opened Fields

  /** A search parameter value (`limit`, `attributesToRetrieve`, `showMatchesPosition`, ...). */
  datatype Param = PInt(n: int) | PBool(b: bool) | PStr(s: string) | PStrs(ss: seq<string>)

  type Params = map<string, Param>

  /** The body of one `update_settings` call. */
  datatype Setting =
    | Pagination(maxTotalHits: int)
    | SearchableAttributes(names: seq<string>)
    | RankingRules(rules: seq<string>)
    | StopWords(words: seq<string>)

  datatype Effect =
    | CreateIndex(uid: string, primaryKey: string)
    | DeleteIndex(uid: string)
    | UpdateDocuments(uid: string, docs: seq<Document>)
    | AddDocuments(uid: string, docs: seq<Document>)
    | DeleteDocument(uid: string, id: int)
    | DeleteAllDocuments(uid: string)
    | SearchCall(uid: string, query: string, params: Params)
    | UpdateSettings(uid: string, setting: Setting)
    | UpdateFilterableAttributes(uid: string, names: seq<string>)
    | UpdateSearchableAttributes(uid: string, names: seq<string>)
  {
    /** The documents a write call sends; empty for every other call. */
    function Sent(): seq<Document>
    {
      if UpdateDocuments? || AddDocuments? then docs else []
    }

    predicate IsWrite() { UpdateDocuments? || AddDocuments? }
  }

  /** Every document sent by a run of calls, in the order sent. */
  function SentDocs(effects: seq<Effect>): seq<Document>
  {
    if effects == [] then [] else SentDocs(effects[..|effects| - 1]) + effects[|effects| - 1].Sent()
  }

  lemma {:induction false} SentDocsConcat(a: seq<Effect>, b: seq<Effect>)
    ensures SentDocs(a + b) == SentDocs(a) + SentDocs(b)
  {
    if b == [] {
      assert a + b == a;
    } else {
      assert (a + b)[..|a + b| - 1] == a + b[..|b| - 1];
      SentDocsConcat(a, b[..|b| - 1]);
    }
  }
}
