# Notion relay and competitor-watch workflow, modelled in Dafny

The system is a small Express server that relays a Notion workspace. `index.js` serves two
read-only routes: `GET /api/databases` lists the databases (`{name, id}`), and
`GET /api/databases/:id` queries a database and reshapes every page's property bag into a flat
16-field competitor record. `test.js` repeats both routes and adds a competitor-watch workflow,
`POST /api/gemini-techno/:notionDatabaseId`. That workflow validates the request and queries the
records whose "Competitor Status" select is "Debut". For each record it builds a prompt, asks a
text generator for the competitor's name, extracts the name with `/Le nom est : (.+)/`, and writes
it back to the page's "Nom du concurrent" title when there is one. It then sends one report
e-mail per record. `test.js` also defines a retry helper, `retryRequest`, which no handler calls.

The model has eight modules:

- `Wrappers`: `Option` and `Result`.
- `JsSemantics`: the JavaScript pieces the handlers rely on: truthiness and `x || d`, what a
  template literal prints for a value, `String.prototype.trim`, the `TypeError` for reading a
  property of `undefined`, and `Array.prototype.map` whose callback may throw.
- `Notion`: the API's answers (pages, property bags, databases, `response.data.results`) and the
  optional-chaining reads the mappers apply to one property.
- `Mappers`: the database mapper, the 16-field record mapper as a table of fields (one table for
  `index.js`, one for `test.js`, which differ in how they read the status), and the task mapper
  of the workflow.
- `Routes`: the two GET routes as functions from the API's answer to the HTTP answer.
- `Retry`: `retryRequest` as a method with its `while` loop, proved equal to a loop-free
  specification.
- `NameExtraction`: the leftmost-match search of the regular expression, greedy `.+` up to a line
  terminator, and both `trim` calls.
- `Enrichment`: the workflow handler as a method with its per-record loop.

Collaborators are inputs. The answer of a Notion call is a `Result` (a thrown error or the
answer). The text generator is a function from the record's position to `Option<string>`, with
`None` when generation throws. `retryRequest`'s `func` is a function from the call's index to its
outcome. Effects are outputs: the HTTP status and JSON body, the query issued, and per record the
prompt, the patch issued and the e-mail sent. `retryRequest` also returns the trace of its calls
and sleeps.

Where the two files differ, each is modelled as written. `index.js:99` reads
`competitor_status` through `status.name`, while `test.js:119` reads it through `select.name`.
The GET routes throw "Réponse de Notion vide ou mal formée" for a malformed answer, while the
workflow (`test.js:193`) ends the same message with a period.

The prompt asks the generator to answer `Le nom est: 'le_nom'`, with no space before the colon.
The expression that reads the answer needs `Le nom est : `, with the space. A reply in the
requested format, with a name that holds no colon, is therefore never matched, and no name is
written back
(`NameExtraction.PromptFormatIsMissed`, `Enrichment.UnmatchedReplyIsNotPatched`). The model
keeps this behaviour as written.

## Model

| member | source | states |
|---|---|---|
| JsSemantics.Trim | test.js:237 | the result is the middle of the input once every leading and trailing white space or line terminator is removed; it begins and ends with a kept character; a trimmed string is unchanged |
| JsSemantics.ArrayMap | index.js:84-104 | `map` with a throwing callback succeeds iff every call succeeds, then gives each element's value in order; otherwise the error is that of the first failing element |
| Notion.Read | index.js:87-102 | an absent property, or one of another type than the chain expects, reads `undefined`; otherwise a title or rich text reads its first segment's `plain_text`, a select or status its option's `name`, `select` the whole option, and the url, the date's `start` and the unique id's `number` their value; a null url, select object or unique id reads `null`, a null option or date reads `undefined` |
| Notion.OnlyFirstSegmentRead | index.js:88-93 | segments after the first of a title or rich text never change the value read |
| Notion.ResultsOf | index.js:40-42 | the answer's `results` when `data` and `results` are present; the malformed-answer error when one is missing; the request's own error unchanged |
| Mappers.MapDatabase | index.js:44-47 | throws reading '0' iff the database has no title; otherwise keeps the id and names it by its first segment's text, or "Sans titre" when that is falsy |
| Mappers.UntitledDatabaseFallback | index.js:45 | an empty title, or a first segment without text or with empty text, is listed as "Sans titre" |
| Mappers.MapRecord | index.js:84-104 | throws iff the page has no `properties` (and the table is not empty), naming the first property; otherwise one member per field, in order, `null` exactly when the read is falsy and the read value otherwise |
| Mappers.MissingPropertyIsNull | index.js:87-102 | a missing property gives `null` and does not fail the page |
| Mappers.EmptyTextIsNull | index.js:88-93 | a text property with no segment or an empty first segment gives `null`, not `""` |
| Mappers.StatusReadDiffers | test.js:119 | for a select-typed status, index.js gives `null` and test.js gives the name; for a status-typed one, the reverse |
| Mappers.NotesIsWholeOption | index.js:95 | `notes_supplementaires` is the whole select option object, in both files |
| Mappers.EncodeLookup | index.js:84-104 | in a property bag built from a table with distinct properties, each property holds the value stored for it |
| Mappers.RecordRoundTrip | index.js:84-104 | mapping a page that stores a record of storable values gives that record back, so the mapper's outputs are exactly the storable records |
| Mappers.RecordTablesDistinct | index.js:87-102 | neither file's table names a property twice |
| Mappers.MapTask | test.js:196-207 | throws iff the page has no `properties`; otherwise copies the id, and every text field is a non-empty string (read or placeholder), the identifier a number or "Non défini", the status `null` or a name |
| Mappers.TaskPlaceholders | test.js:200-205 | each task field takes its placeholder ("Non défini", "Sans Titre", "Non disponible", "Pas de date", "Pas de contenu", `null`) exactly when its read is falsy, and the read value otherwise |
| Routes.DatabasesOf | index.js:40-47 | succeeds iff the answer is well formed and every database has a title; one entry per database, in order, each the database mapper's (its id, and its first segment's text or "Sans titre"); otherwise the request's, the malformed-answer or the missing-title error |
| Routes.ListDatabases | index.js:21-61 | 200 with the list iff the list is computed; otherwise 500 with "Erreur lors de la récupération des bases de données" and the error's message |
| Routes.RecordsOf | index.js:79-104 | succeeds iff the answer is well formed and every page has `properties`; one record per page, in order, each the record mapper's; otherwise the request's error, the malformed-answer error, or the TypeError naming the first property |
| Routes.QueryDatabase | index.js:64-118 | 200 with the records iff they are computed; otherwise 500 with "Erreur lors de la récupération des données" and the error's message |
| Routes.WellFormedQueryAnswered | index.js:79-109 | a well-formed answer whose pages all have `properties` is answered 200 with one record per page |
| Routes.MalformedReplyFails | index.js:40-59 | an answer without `data` or `results` is answered 500 with the malformed-answer message on both routes |
| Retry.Attempts | test.js:143-154 | `n` attempts are the calls 0 to `n - 1`, with a sleep of the delay between each two |
| Retry.FirstSuccess | test.js:143-146 | the first call index below the bound that succeeds, every earlier call failing; none iff all fail |
| Retry.RetryRequest | test.js:141-156 | the loop returns the first success's value, or rethrows the last error when all `retries` calls fail, or returns `undefined` when `retries <= 0`, with the trace of calls and sleeps of the loop-free specification |
| Retry.AttemptsCounts | test.js:143-154 | `n` attempts make `n` calls and `n - 1` sleeps and end with a call |
| Retry.SuccessAfterFailures | test.js:144-149 | after `k` failures, a success at call `k` is returned after `k + 1` calls and `k` sleeps |
| Retry.AllAttemptsFail | test.js:147-152 | when all calls fail, the last error is rethrown unchanged after `retries` calls and `retries - 1` sleeps |
| Retry.RunShape | test.js:143-155 | at most `retries` calls, no call at all iff `retries <= 0`, one sleep between each two calls and none after the last |
| Retry.DefaultBudget | test.js:141 | with the defaults, between 1 and 5 calls, at most 4 sleeps, each of 5000 ms |
| NameExtraction.LineRun | test.js:236 | greedy `.` takes the longest prefix without a line terminator |
| NameExtraction.FindMatch | test.js:237 | the position found is a match, and no earlier position from the start matches; none iff no position matches |
| NameExtraction.Capture | test.js:236-237 | a capture is non-empty and holds no line terminator |
| NameExtraction.CompetitorName | test.js:237-242 | a name exists iff there is text whose trimmed form has a capture; the name has no line terminator and is trimmed |
| NameExtraction.CaptureIsLeftmostLine | test.js:236-237 | no capture iff no position matches; otherwise the capture is the rest of the line after the leftmost match |
| NameExtraction.LineRunOfLine | test.js:236 | the greedy run over a line followed by a line terminator or the end is that line |
| NameExtraction.ReplyRoundTrip | test.js:236-241 | a reply `Le nom est : <name>` gives back `<name>` for any non-empty, trimmed, single-line name |
| NameExtraction.NameOfLeftmostMatch | test.js:237-241 | the name read from a trimmed reply is the trimmed line after its leftmost match |
| NameExtraction.NoCaptureWithoutMatch | test.js:237-240 | text with no matching position has no capture |
| NameExtraction.FirstLineWins | test.js:236-241 | only the line after the leading marker is taken; later lines and markers are ignored |
| NameExtraction.MarkerAtLineEndSkipped | test.js:236-237 | a marker directly followed by a line break does not match, and the next marker is used |
| NameExtraction.BlankCaptureGivesEmptyName | test.js:241 | a captured line of white space only gives the empty name |
| NameExtraction.NoColonNoName | test.js:236-244 | a reply without a colon gives no name |
| NameExtraction.PromptFormatIsMissed | test.js:222-237 | a reply `Le nom est: '<name>'` in the format the prompt requests, with a name that holds no colon, gives no name |
| NameExtraction.RefusalGivesNoName | test.js:237-244 | a refusal such as "I cannot determine a name" gives no name |
| Enrichment.NameOrPlaceholder | test.js:297 | the extracted name when it is non-empty, "Pas de nom généré par Gemini" otherwise; never empty |
| Enrichment.TasksOf | test.js:192-207 | the task records, one per page in order, iff the answer is well formed and every page has `properties`; otherwise the request's error, "Réponse de Notion vide ou mal formée." (with its period), or the TypeError reading 'Identifiant' |
| Enrichment.HandleRecord | test.js:211-316 | one record's step: the prompt filled with its fields, a patch with the extracted name iff it is non-empty, one e-mail with the fields, the prompt and the name or its placeholder |
| Enrichment.HandleAll | test.js:210-317 | one step per record, in order, each as `HandleRecord` describes |
| Enrichment.EnrichmentHandler | test.js:160-329 | 400 for a missing or empty database id, then for a missing or empty recipient, with no query; otherwise the "Debut" query is issued; 500 with its message when the query fails or a page lacks `properties`; else every record handled in order and 200 |
| Enrichment.NamedReplyIsPatched | test.js:235-270 | a reply `Le nom est : <name>` patches the page with exactly that name, and the e-mail reports it |
| Enrichment.UnmatchedReplyIsNotPatched | test.js:225-297 | a failed generation, a refusal or a reply in the prompt's own format issues no patch; the e-mail still goes out with the placeholder |
| Enrichment.ReportFieldsNeverEmpty | test.js:285-297 | every e-mail shows a non-empty title, URL, date, content and name line |

## Left out

- The Express server itself: routing, `express.json()`, `dotenv`, the port and `app.listen`.
- HTTP requests: URLs, headers, the token, the API version and the 10-second timeout are not modelled. Each answer is an input.
- The Gemini SDK: the model name and the `response.text()` calls. The text generated for the record at each position is an input, `None` when any of those calls throws.
- The e-mail transport: the `from` address, the HTML markup and the send callback. `Report` holds the data the HTML shows. Whether sending succeeds is not modelled, because the source only logs it.
- The outcome of the patch call is not an input, because the source only logs it (test.js:271-273) and the loop goes on either way.
- Console logging, the unused `moment` import and the unused `delay` helper (test.js:158).
- Asynchrony: `sendMail` is not awaited, so e-mails may go out in any order. The model lists them in the order of the records.
- `retryRequest` is never called by the handlers. It is modelled on its own, with `func` as the outcome of each call and the sleeps as trace events.
- Numbers are integers. `NaN`, `-0`, fractional numbers and non-integer `retries` are not modelled.
- Strings are sequences of Unicode scalar values. UTF-16 lone surrogates cannot be represented.
- A `title`, `properties` or `results` set to JSON `null` is modelled like a missing one. The engine's message then says `null` instead of `undefined`.
- `TypeError` messages follow V8's wording.
- `error.message || error`: an error with an empty message is not modelled. Every error is reduced to its message.
- The request's `recipientEmail` and database id are `Option<string>`. A non-string JSON value in the body is not modelled.
- Only the select, status, title, rich-text, url, date and unique-id property types are distinguished. Every other type is `OtherValue`.
