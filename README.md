# Central error responder of a Go CRUD service

This project models the error responder of a small Go REST service for a "category" resource.
When a request handler panics, `ErrorHandler` receives the panic value and writes the response
itself. A `NotFoundError` becomes status 404 with the envelope `{Code: 404, Status: "NOT FOUND",
Data: <the error's message>}`. Any other value becomes status 500 with the envelope
`{Code: 500, Status: "INTERNAL SERVER ERROR", Data: <the value itself>}`. Both paths make the same
three calls on the response writer, in this order: set `Content-Type: application/json`, write the
status line, write the envelope.

Modules:
- `Wrappers`: `Option`.
- `Failures`: the panic value as a closed datatype `Failure = NotFound(error) | Other(detail)`, and
  the comma-ok type assertion `err.(NotFoundError)` as `AsNotFound`.
- `Web`: the `WebResponse` envelope, its `Payload`, the status codes and the two error labels.
- `Transport`: the response writer. `Step` and `Replay` give its behaviour as a pure function of
  the calls made on it. `Recorder` is a class whose `SetHeader`, `WriteHeader` and `Write` methods
  are proved to follow `Step`; it also keeps the list of calls made on it, and its invariant says
  that its state is the replay of that list on a new writer. The recorder follows Go's
  `httptest.ResponseRecorder`, the writer the tests use: `Header().Set` replaces one header; the
  first `WriteHeader` commits the status and takes a snapshot of the headers (`sent`), later ones
  are ignored; writing a body without a status commits 200 first. What it does not keep, and where
  a server's `http.ResponseWriter` differs, is listed under "Left out".
- `Helper`: `WriteToResponseBody`, which writes one envelope to the body.
- `Exception`: the spec functions `Respond` and `ResponseCalls`, the methods `notFoundError`,
  `internalServerError` and `ErrorHandler`, and the lemmas about them.

One consequence of the writer's semantics is proved as well. The envelope's `Code` is guaranteed to
match the transport status only when no status line went out before the responder ran
(`CodeMatchesTransport`). If one did, the responder still appends its envelope, but the status stays
as it was (`ResponseEffect`, `FirstStatusStands`); the two then agree only if the codes happen to be
equal.

## Model

| member | source | states |
|---|---|---|
| Failures.AsNotFound | exception/error_handler.go:22 | the type assertion succeeds exactly for a NotFoundError, and the value it yields is that error's message |
| Exception.Respond | exception/error_handler.go:14-18 | classification is total and the not-found check has priority: the code is 404 exactly for a NotFoundError and 500 exactly for every other value (so a NotFoundError never gets a 500); the label belongs to the code; the envelope's data recovers the failure |
| Exception.RespondInjective | exception/error_handler.go:28-32 | different failures get different envelopes: the 404 data is the message itself, the 500 data is the raw value unchanged |
| Web.LabelsDetermineCode | exception/error_handler.go:29-30 | the two labels the responder uses are tied one to one to their codes |
| Transport.Replay | exception/error_handler.go:25-26 | the body is append-only with one envelope per body write; a status line, once written, never changes; any status or body write commits a status |
| Transport.ReplayConcat | exception/error_handler.go:14-18 | calls made one after another on the writer compose: replaying two parts equals replaying the first, then the second |
| Transport.CountsConcat | exception/error_handler.go:14-18 | status lines and envelopes of calls made one after another add up |
| Transport.ReplayAppend | exception/error_handler.go:25-34 | one more call on the writer is one more step |
| Transport.ReplayThree | exception/error_handler.go:25-34 | a three-call response (header, status line, body) is three writer steps in that order |
| Transport.Recorder.constructor | test/category_controller_test.go:227 | a new recorder has no headers, no status, an empty body and no calls |
| Transport.Recorder.SetHeader | exception/error_handler.go:25 | `Header().Set` replaces one header and changes nothing else; the call is logged |
| Transport.Recorder.WriteHeader | exception/error_handler.go:26 | the first status line is committed with a snapshot of the headers; later ones are ignored; the call is logged |
| Transport.Recorder.Write | exception/error_handler.go:34 | the envelope is appended to the body, after committing 200 when no status had been written; only the body write is logged |
| Helper.WriteToResponseBody | exception/error_handler.go:34 | writes the envelope to the body as a single body write |
| Exception.ResponseEffect | exception/error_handler.go:43-52 | one error response sets Content-Type to application/json and leaves every other header alone, commits the envelope's code with that header unless a status was already written, and appends exactly that envelope |
| Exception.SingleTerminalWrite | exception/error_handler.go:14-18 | the call list of a response, which `ErrorHandler` is proved to make on the writer, holds exactly one status line and exactly one envelope |
| Exception.CodeMatchesTransport | exception/error_handler.go:26-29 | on an uncommitted writer the transport status equals the envelope's code (404 for a NotFoundError, 500 otherwise), and application/json was sent with the status line |
| Exception.MissingIdResponse | test/category_controller_test.go:227-241 | a missing id on a new recorder gives transport status 404 and the single envelope 404 / "NOT FOUND" carrying the message; the tests for GET and DELETE of a missing id check the status and the envelope's code and label of this response |
| Exception.FirstStatusStands | exception/error_handler.go:14-18 | once a failure was answered, a second one cannot change the status line; its envelope only follows the first |
| Exception.notFoundError | exception/error_handler.go:21-38 | returns true exactly for a NotFoundError and then makes exactly the 404 calls in order; otherwise returns false, makes no call and leaves headers, status and body unchanged |
| Exception.internalServerError | exception/error_handler.go:41-53 | makes exactly the 500 calls in order, with the failure value unchanged as the data |
| Exception.ErrorHandler | exception/error_handler.go:10-19 | makes exactly the calls of one path, chosen by `Respond`, so one more status line and one more envelope are asked for: one envelope is appended, Content-Type is set with every other header kept, and the status is the envelope's code unless a status was already written |

## Left out

- The `request` parameter of the three functions: none of them reads it.
- The `fmt.Println` logging at exception/error_handler.go:12, 24 and 42: it has no effect on the response.
- The JSON encoding inside `helper.WriteToResponseBody`: the body holds envelopes, not bytes. The helper's source is not part of this model.
- The definitions of the `NotFoundError` struct and the `web.WebResponse` struct are not in the source files this model covers; the model renders them as `Failure.NotFound(error)` and `WebResponse(code, status, data)`.
- Go's `any` is closed into `Failure`. A pointer `*NotFoundError` fails the type assertion in Go; it is one of the values `Other(detail)` stands for, so the model sends it to 500 as Go does.
- Canonicalisation of header names by `Header().Set`: the only key written is already canonical (`Content-Type`).
- The writer's panic on status codes outside 100-999: the responder writes 404 and 500 only.
- Transport.Recorder.Write: does not sniff a Content-Type (`DetectContentType`) when a body is written with no status and no Content-Type set; the responder always sets Content-Type and a status before the body.
- Transport.Recorder.WriteHeader: a 1xx informational code commits the status in the model, while Go lets such codes precede the final status; the responder writes 404 and 500 only.
- The server's `http.ResponseWriter`, where it differs from the recorder: it refuses a body after a 1xx, 204 or 304 status, while the model always appends the envelope; and it adds `Date` and, for small bodies, `Content-Length` to the headers it sends, while the model's sent headers are only those the handler set. The responder itself writes only 404 and 500, so it never causes a refused body.
- Multi-valued headers: Go's `http.Header` maps a name to a list of values; the model holds one value per name, which is what `Header().Set` leaves.
- `helper.PanicIfError`, `main.go` and the router, controller, service and authentication middleware: they decide nothing about the error response. The 200, 400 and 401 responses the tests assert are built there, so they are not modelled.
