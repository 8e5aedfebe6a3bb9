# ms-mongo `Action` handler, modelled in Dafny

ms-mongo is an HTTP gateway to MongoDB. Its one route, `POST /ms-mongo/{db}/{coll}`,
is served by the `Action` handler in `main.go`. The handler reads the path parameters `db`
and `coll` and decodes the JSON body. It then runs a fixed sequence of checks. Each failing
check answers status 500 with one of a few fixed messages. A request that passes them all
issues exactly one MongoDB operation against `(db, coll)`:

- `"insert"` issues InsertOne of `data`;
- `"get"` issues Find with `query` and drains the cursor;
- `"upate"` (spelled so in the source) issues UpdateMany of `query` with `{"$set": data}`;
- `"delete"` issues DeleteMany of `query`.

The driver's acknowledgment, or the list of found documents, is encoded as the answer.

The router registers the handler on `/ms-mongo/{db}/{coll}` (main.go:250), and a gorilla
path variable matches one or more characters. So requests through that route always carry
a non-empty `db` and `coll`. The "Missing DB!" and "Missing Collection!" answers are reached
only when `Action` is called directly. The model states them for the handler as written.

The model has four parts:

- `Json`: decoded JSON values.
- `Driver`: the target, the operations, the call record, cursors, and the driver as an
  oracle. The oracle is a record of four total functions, one per collection operation.
- `Dispatch`: the pure decision `Decide(db, coll, body)`. It returns `Reject(message)`,
  `Panic` for a decoded body that is not an object, or `Dispatch(call)`. It is set beside
  two reference definitions. `RequestFor(op)` is the canonical client body for an
  operation, the inverse of `Decide`. `Problems` lists every failing check in check order.
- `Handler`: the outcome as a value. `Handle` is the specification function. `Serve` is
  the imperative handler proved equal to it. `DrainCursor` is the `for cursor.Next` loop,
  proved to collect every document in order.

Decoding is not modelled. The body arrives already decoded (`Decoded(value)`), or as the
decoder's error (`Malformed(error)`).

## Model

| member | source | states |
|---|---|---|
| `Dispatch.Decide` | main.go:41-90 | a dispatched call always targets the path's `(db, coll)`; the decision is a panic exactly when both path parameters are present and the decoded body is not an object; every rejection carries one of the handler's fixed messages or the decoder's own error |
| `Dispatch.Select` | main.go:66-205 | on an object body: never panics, any dispatched call targets the given target, every rejection message is one of the fixed messages |
| `Dispatch.SetDocument` | main.go:169 | the update document is `{"$set": data}`: an object whose only key is `$set`, mapped to `data` |
| `DispatchProperties.MissingDbFirst` | main.go:41-45 | an empty `db` gives "Missing DB!" whatever `coll` and the body are |
| `DispatchProperties.MissingCollectionBeforeBody` | main.go:47-51 | with `db` present, an empty `coll` gives "Missing Collection!" for every body, malformed or not |
| `DispatchProperties.MalformedAfterPath` | main.go:53-61 | once the path checks pass, a body the decoder refused is rejected with the decoder's message |
| `DispatchProperties.MissingActionBeforeFields` | main.go:66-72 | an object without an `action` key gives "Missing Action!" whatever `query` and `data` are |
| `DispatchProperties.ExactActionNames` | main.go:92-205 | a call is dispatched only when `action` is exactly one of the strings "insert", "get", "upate", "delete"; any other value, of any JSON type, gives "Unknown Action!" |
| `DispatchProperties.UpdateSpelledCorrectlyIsUnknown` | main.go:153 | `action` "update" (correct spelling) gives "Unknown Action!" |
| `DispatchProperties.RequiredFields` | main.go:95-186 | insert without `data` gives "Missing Data!"; get and delete without `query` give "Missing Query!"; upate reports a missing `query` before a missing `data` |
| `DispatchProperties.PresenceNotValue` | main.go:80-90 | replacing the value of a present `query` or `data` (by null, say) never changes whether the request is rejected, nor the message |
| `DispatchProperties.IgnoresOtherKeys` | main.go:63-90 | the decision is the same after dropping every key other than `action`, `query` and `data` |
| `DispatchProperties.UpdateIsSet` | main.go:153-169 | a dispatched UpdateMany filters by `query` and sends `{"$set": data}` |
| `DispatchProperties.RequestForDispatches` | main.go:92-190 | round trip: the canonical body for any issuable operation, merged over any other keys, dispatches exactly that operation against the path's target |
| `DispatchProperties.DispatchComesFromRequest` | main.go:92-190 | converse: every dispatched operation is issuable (an update is always a `$set`), and the body is an object holding that operation's canonical request |
| `DispatchProperties.FirstProblemReported` | main.go:41-205 | for a request whose decoded body is an object: it is rejected exactly when it has some problem, and the message is the first problem in check order |
| `Handler.Collected` | main.go:138-142 | one document per cursor item, in cursor order; an item that fails to decode is still appended, as null |
| `Handler.Handle` | main.go:31-207 | only statuses 200 and 500 are written; 200 only after a dispatch; a panic exactly when the decision is a panic; every rejection is a 500 carrying its message; a dispatched InsertOne, UpdateMany or DeleteMany answers 200 with the driver's acknowledgment or 500 with the driver's error message; a Find whose cursor cannot be opened answers 500 with the driver's error message |
| `Handler.DrainCursor` | main.go:138-142 | the loop returns exactly the collected documents of the cursor's items; the list built so far is always the collected prefix |
| `Handler.Serve` | main.go:31-207 | the handler's outcome equals `Handle`; the returned call log holds exactly the dispatched call, or nothing (that the outcome depends on the driver only through that call is `OnlyTheIssuedCallMatters`) |
| `HandlerProperties.CollectedConcat` | main.go:138-142 | collecting preserves order: the documents of `a + b` are those of `a` followed by those of `b` |
| `HandlerProperties.FindReturnsAllInOrder` | main.go:124-150 | a Find whose cursor ends without error answers 200 with every yielded document, in order |
| `HandlerProperties.CursorErrorDiscardsDocuments` | main.go:144-148 | an error reported by the cursor after iteration replaces the whole result with a 500 and that message |
| `HandlerProperties.EmptyFindIsNull` | main.go:124-150 | a Find that yields nothing answers 200 with null, not an empty array |
| `HandlerProperties.OnlyTheIssuedCallMatters` | main.go:103-198 | the outcome of a dispatched request depends only on the driver's answer to that one call |
| `HandlerProperties.RejectionIgnoresDriver` | main.go:41-204 | a rejected or panicking request gives the same outcome with any driver, because it never reaches the driver |

## Left out

- HTTP plumbing is not modelled: the `content-type` header, `WriteHeader` and `Write`, the gorilla router and `mux.Vars`. The outcome is a value (status and payload), not bytes.
- JSON decoding by `encoding/json` (main.go:54-61) is not modelled. The body is given decoded, or as an opaque decoder error. Numbers are reals, not float64.
- JSON encoding of results is not modelled. The message string is not escaped in the source, which can produce invalid JSON; this is not modelled either.
- A body that is not an object (JSON null included) makes the source's type assertion panic. The model gives it the distinct outcome `Panicked`. What net/http does after the panic is not modelled.
- The MongoDB driver is an uninterpreted oracle. Its acknowledgments and cursors are opaque values. The `$set` semantics, filtering and persistence are not modelled.
- Driver state is not modelled. Spec-level properties such as "insert then find returns the document" or isolation between collections are about the database, not this handler.
- The 10-second timeouts, the discarded cancel functions and `defer cursor.Close` (main.go:104-189) are wall-clock and resource concerns. A timeout is one more driver error here.
- The cursor is a finished sequence of items plus the error `cursor.Err()` reports. The driver's iteration protocol is not modelled.
- `Handler.Collected`: a failed `cursor.Decode` is modelled as appending null, the zero interface value. Any partial value the driver might leave behind is not modelled.
- The process-global `client` (main.go:22) is a parameter here. The startup connect, ping and fatal exit in `main` (main.go:216-241), CORS and `ListenAndServe` (main.go:243-252) are I/O bootstrap.
- Concurrency between requests is not modelled. The handler shares no state between requests.
