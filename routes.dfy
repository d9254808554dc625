/**
  The HTTP answers of the relay and its two read-only routes: `GET /api/databases` and
  `GET /api/databases/:id`, as index.js has them and as test.js repeats them.
 */
module Routes {
  import opened Wrappers
  import opened JsSemantics
  import opened Notion
  import opened Mappers

  /** The JSON body of an answer. */
  datatype Body =
    | DatabaseList(databases: seq<DatabaseEntry>)   // {success: true, databases}
    | RecordList(results: seq<seq<Member>>)         // {success: true, results}
    | Done(message: string)                         // {success: true, message}
    | Failed(message: string, error: string)        // {success: false, message, error}
    | Rejected(error: string)                       // {error}

  datatype HttpResponse = HttpResponse(status: int, body: Body)

  /** The message of the error thrown for `!response.data || !response.data.results`. */
  const MalformedReply: string := "Réponse de Notion vide ou mal formée"
  const ListFailed: string := "Erreur lors de la récupération des bases de données"
  const QueryFailed: string := "Erreur lors de la récupération des données"

  /** The `{name, id}` list of a search answer; the first error thrown on the way escapes. */
  function DatabasesOf(reply: Result<Reply<Database>, JsError>): (r: Result<seq<DatabaseEntry>, JsError>)
    ensures r.Success? <==> (ResultsOf(reply, MalformedReply).Success?
                             && forall db :: db in ResultsOf(reply, MalformedReply).value ==> db.title.Some?)
    ensures r.Success? ==> var dbs := ResultsOf(reply, MalformedReply).value;
      |r.value| == |dbs| && forall i :: 0 <= i < |dbs| ==> Success(r.value[i]) == MapDatabase(dbs[i])
    ensures r.Failure? ==> match ResultsOf(reply, MalformedReply)
                           case Failure(e) => r.error == e
                           case Success(_) => r.error == ReadOfUndefined("0")
  {
    match ResultsOf(reply, MalformedReply)
    case Failure(e) => Failure(e)
    case Success(dbs) => ArrayMap(dbs, MapDatabase)
  }

  /**
    `GET /api/databases`: 200 with the databases in the order of the search answer, or 500 with the
    error's message whenever the request fails, the answer is malformed or a database has no title.
   */
  function ListDatabases(reply: Result<Reply<Database>, JsError>): (r: HttpResponse)
    ensures r.status == 200 <==> DatabasesOf(reply).Success?
    ensures r.status == 200 ==> r.body == DatabaseList(DatabasesOf(reply).value)
    ensures r.status != 200 ==> r == HttpResponse(500, Failed(ListFailed, DatabasesOf(reply).error.message))
  {
    match DatabasesOf(reply)
    case Success(databases) => HttpResponse(200, DatabaseList(databases))
    case Failure(e) => HttpResponse(500, Failed(ListFailed, e.message))
  }

  /** The mapped records of a query answer, one per page and in the same order. */
  function RecordsOf(reply: Result<Reply<Page>, JsError>, fields: seq<FieldSpec>): (r: Result<seq<seq<Member>>, JsError>)
    ensures r.Success? <==> (ResultsOf(reply, MalformedReply).Success?
                             && (fields == [] || forall p :: p in ResultsOf(reply, MalformedReply).value ==> p.properties.Some?))
    ensures r.Success? ==> var pages := ResultsOf(reply, MalformedReply).value;
      |r.value| == |pages| && forall i :: 0 <= i < |pages| ==> Success(r.value[i]) == MapRecord(pages[i], fields)
    ensures r.Failure? ==> match ResultsOf(reply, MalformedReply)
                           case Failure(e) => r.error == e
                           case Success(_) => fields != [] && r.error == ReadOfUndefined(fields[0].property)
  {
    match ResultsOf(reply, MalformedReply)
    case Failure(e) => Failure(e)
    case Success(pages) => ArrayMap(pages, p => MapRecord(p, fields))
  }

  /**
    `GET /api/databases/:id` with the record mapper `fields`: 200 with every page mapped, or 500
    with the error's message. A missing property never fails a page; a missing `properties` does.
   */
  function QueryDatabase(reply: Result<Reply<Page>, JsError>, fields: seq<FieldSpec>): (r: HttpResponse)
    ensures r.status == 200 <==> RecordsOf(reply, fields).Success?
    ensures r.status == 200 ==> r.body == RecordList(RecordsOf(reply, fields).value)
    ensures r.status != 200 ==> r == HttpResponse(500, Failed(QueryFailed, RecordsOf(reply, fields).error.message))
  {
    match RecordsOf(reply, fields)
    case Success(records) => HttpResponse(200, RecordList(records))
    case Failure(e) => HttpResponse(500, Failed(QueryFailed, e.message))
  }

  /** A well-formed query answer whose pages all carry `properties` is always answered 200. */
  lemma WellFormedQueryAnswered(reply: Result<Reply<Page>, JsError>, fields: seq<FieldSpec>, pages: seq<Page>)
    requires reply == Success(Reply(Some(ResponseData(Some(pages)))))
    requires forall p :: p in pages ==> p.properties.Some?
    ensures QueryDatabase(reply, fields).status == 200
    ensures |QueryDatabase(reply, fields).body.results| == |pages|
  {
  }

  /** An answer without `data` or without `data.results` gives 500 with the malformed-answer message, on both routes. */
  lemma MalformedReplyFails(databases: Result<Reply<Database>, JsError>, pages: Result<Reply<Page>, JsError>, fields: seq<FieldSpec>)
    requires databases.Success? && (databases.value.data.None? || databases.value.data.value.results.None?)
    requires pages.Success? && (pages.value.data.None? || pages.value.data.value.results.None?)
    ensures ListDatabases(databases) == HttpResponse(500, Failed(ListFailed, MalformedReply))
    ensures QueryDatabase(pages, fields) == HttpResponse(500, Failed(QueryFailed, MalformedReply))
  {
  }
}
