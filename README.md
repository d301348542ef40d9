# Managed records retrieval, modelled in Dafny

This project models `api/managed-records.js`, the client that pages through a
`/records` listing endpoint. `retrieve({ page, colors })` does four things:

- It requests one page with `limit = 10`, `offset = 10 * (page - 1 || 0)`
  and a `color[]` filter when `colors` is an array.
- It probes the following page with the same colors, to learn whether a next page exists.
- It classifies each record as primary when its color is red, blue or yellow.
- It folds the classified records into the ids, the open records and the number of
  closed primary records. It also reports the previous and next page numbers.

Modules, one per component of the file:

- `Wrappers`: `Option` and `Result`.
- `Records`: the record and its classified copy.
- `Query`: the query values that `fetchRecords` chooses.
- `Classifier`: `primaryCheck`.
- `Aggregator`: `breakdown`. The `mutatingReducer` is a class `Metadata` whose method
  updates its fields in place. The `reduce` loop is the method `Breakdown`, proved
  equal to the fold of the commented-out pure reducer. That fold is then proved equal
  to independent definitions of the three outputs.
- `Retriever`: `fetchRecords`, `isNextPage` and `retrieve`.

The network is a parameter `server: Query -> Transport`. It gives the response to
each query. A response is one of four things: records delivered, a failure status,
a failed request, or a success status whose body cannot be parsed. `fetchRecords` catches the first two failures and
returns `[]`. The parse failure escapes it, because `response.json()` is returned
without `await`. `isNextPage` catches that and answers `false`. `retrieve` returns it
as its error value, modelled as `Result.Failure`.

The code never clamps `page`, and the model keeps that behaviour:

- Page 0 gives offset -10 and previous page -1. A clamped version would give offset 0 and a null previous page for every page up to 1.
- `previousPage` is null only when `page - 1` is zero, that is for page 1.

## Model

| member | source | states |
|---|---|---|
| Query.BuildQuery | api/managed-records.js:17-22 | limit is always 10; offset is `10 * (page - 1)`: 0 for page 1 and a non-negative multiple of 10 for every page from 1 on; the color filter is present exactly when `colors` is an array, and then equals it |
| Query.OrInt | api/managed-records.js:19 | JavaScript's logical or with an integer left operand: that operand, unless it is zero, in which case the default |
| Query.NextQueryFollows | api/managed-records.js:46 | the lookahead query for `page + 1` asks for the window right after the page's own, with the same color filter |
| Classifier.Classify | api/managed-records.js:63-66 | the copy keeps the record's fields and has `isPrimary` true iff the color is "red", "blue" or "yellow" |
| Classifier.ClassifyAll | api/managed-records.js:65-67 | same length and order; output i is input i with `isPrimary` true iff its color is primary |
| Classifier.PrimaryCheck | api/managed-records.js:58-68 | an omitted argument yields `[]`; otherwise length, order and per-record fields as for the map |
| Aggregator.Ids | api/managed-records.js:86 | the ids are the input records' ids, one per record, in input order |
| Aggregator.IdsAppend | api/managed-records.js:86 | the ids of a concatenation are the concatenated ids |
| Aggregator.OpenAppend | api/managed-records.js:88-90 | collecting open records distributes over concatenation, so their relative order is kept |
| Aggregator.OpenMembers | api/managed-records.js:88-90 | a record is among the open records iff it is in the input with disposition "open"; there are no more of them than input records |
| Aggregator.ClosedPrimaryCountAppend | api/managed-records.js:92-94 | the closed-primary count of a concatenation is the sum of the counts |
| Aggregator.CountBound | api/managed-records.js:84-94 | closed-primary count plus number of open records is at most the number of records |
| Aggregator.PureReducer | api/managed-records.js:73-81 | one step of the pure reducer appends that single record's id, its open-record entry and its closed-primary count to the accumulator |
| Aggregator.ReduceFrom | api/managed-records.js:99 | the left fold takes each record exactly once: it adds one id per record, at most one open record per record and at most one to the count per record (what it computes exactly is `ReduceFromCharacterised`) |
| Aggregator.ReduceFromCharacterised | api/managed-records.js:73-81 | folding the pure reducer from any accumulator appends the ids, the open records and the closed-primary count of the folded records |
| Aggregator.ReduceCharacterised | api/managed-records.js:73-81 | from `{[], [], 0}` the pure fold gives exactly the ids, the open records and the closed-primary count, with `|ids| == |records|` and count plus open at most `|records|` |
| Aggregator.Metadata.constructor | api/managed-records.js:99 | the accumulator starts as `{ ids: [], open: [], closedPrimaryCount: 0 }` |
| Aggregator.Metadata.MutatingReduce | api/managed-records.js:83-97 | pushes the id, pushes the record when open, adds one when closed and primary, and the new state is the pure reducer applied to the old |
| Aggregator.Breakdown | api/managed-records.js:70-100 | the in-place loop gives the same result as the pure fold, that is the ids, the open records and the closed-primary count; an omitted argument gives `{[], [], 0}` |
| Retriever.Normalise | api/managed-records.js:25-36 | a failure status and a failed request both become `[]`; delivered records pass unchanged; only an unparsable body escapes |
| Retriever.FetchRecords | api/managed-records.js:15-37 | the result is the normalised response of the server to the page's query |
| Retriever.HasNext | api/managed-records.js:45-48 | a next page exists iff the query for `page + 1` with the same colors is answered with a non-empty list of records |
| Retriever.IsNextPage | api/managed-records.js:39-53 | answers the lookahead rule; a fetch that fails in any way, including an escaped parse failure, answers false |
| Retriever.PreviousPage | api/managed-records.js:116 | null iff the page is 1, otherwise `page - 1`; from page 2 on it is a page number of at least 1 |
| Retriever.NextPage | api/managed-records.js:117 | `page + 1` iff the probe found a next page, null otherwise |
| Retriever.Retrieve | api/managed-records.js:102-127 | fails iff the page's body cannot be parsed; previous page as above with page defaulting to 1; next page iff the lookahead rule holds; ids, open records and count depend only on the requested page's response, with ids those of the records in order |
| Retriever.RetrieveFullLastPage | api/managed-records.js:40-48 | a full page of ten followed by an empty page gives no next page |
| Retriever.RetrieveEmptyPage | api/managed-records.js:104-117 | a requested page that comes back empty, with a failure status or as a failed request summarises to `{[], [], 0}` while the next page is still decided by the probe |

## Left out

- HTTP transport: `fetch`, `response.ok` and `response.json()` are replaced by the `server` parameter, which gives the outcome of each query.
- URL serialisation by `urijs` and the global base URL `window.path`: only the query values are modelled, not the URL text.
- `console.log` of caught errors: logging only.
- `Promise.all`: the page fetch and the probe share no state, so they are two calls one after the other.
- Pages that are not integers, or are `null` or `NaN`, and JavaScript truthiness beyond integer zero. The default `page = null` of `isNextPage` is never used, because `retrieve` always passes a page.
- Record fields other than `id`, `color` and `disposition`: the object spread would copy them unchanged, except that an incoming `isPrimary` field is overwritten by the computed one.
- JavaScript numbers are doubles, so `page - 1`, `page + 1` and `10 * (page - 1)` are exact only below 2^53. The model's `int` is unbounded and does not capture rounding beyond that.
- A response body that parses but is not an array of records: `records.map` would throw inside `retrieve`, which would then return that error. Delivered bodies are assumed to be arrays of records.
- Idempotence of `retrieve` is not a separate lemma. The contract of `Retrieve` determines the result from the server's answers to the two queries alone, so equal answers give equal results.
