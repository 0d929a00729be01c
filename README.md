# WhatsApp session bridge: HTTP handler decisions

This project models the part of the bridge's HTTP layer
(`whatsmeow/internal/api/handlers.go`) that does not depend on the session
manager's internals:

- **Destination normalisation** (`cleanPhoneNumber`). The text, media and
  presence handlers reduce the client's `to` field to its decimal digits before handing it to
  the manager. `PhoneNumber.Clean` is the pure definition.
  `PhoneNumber.CleanPhoneNumber` is the handler's accumulating loop, and it is
  proved to compute `Clean`. The lemmas then characterise `Clean` on its own
  terms: the output is all digits, it is the longest all-digit subsequence of
  the input, it keeps every digit as often as it occurs, it distributes over
  concatenation, and applying it twice changes nothing.
- **Request validation** of the text, media and presence send handlers. One
  `SendRequest` datatype has a constructor per request body.
  `Handlers.HandleSend` takes the decoded body (`None` when the JSON does not
  decode) and the manager's reply as a function parameter. It returns the
  request handed to the manager, if any, and the response. Validation looks at
  the raw `to`, so a destination such as `"+()"` passes and reaches the manager
  as the empty string. `Handlers.DigitlessDestinationPassesValidation` proves this.
- **Response selection** from the manager's results. This covers the connect
  hint message, the QR lookup, the location endpoint, and the contacts,
  check-number and groups stubs that always answer 501.

Responses are an abstract `Response` datatype: `Success(data)` stands for HTTP
200 with `success: true`, and `Error(code, message)` for `success: false`.

Two consequences of the code's order of checks:

- `handlers.go:194` rejects only an empty `to` as received, and
  `handlers.go:200` cleans it afterwards. A `to` without digits therefore
  passes validation and reaches the manager as the empty string.
- `handlers.go:320-326` answers 400 on a body that does not decode before it
  answers 501. The contacts, check-number and groups endpoints answer 501
  unconditionally.

## Model

| member | source | states |
|---|---|---|
| PhoneNumber.Clean | whatsmeow/internal/api/handlers.go:437-445 | the normalised number contains only '0'..'9' and is never longer than the input |
| PhoneNumber.CleanPhoneNumber | whatsmeow/internal/api/handlers.go:437-445 | the character-by-character loop that appends each digit returns exactly `Clean(number)` |
| PhoneNumber.CleanAppend | whatsmeow/internal/api/handlers.go:439-443 | each character is filtered independently: `Clean(a + b) == Clean(a) + Clean(b)` |
| PhoneNumber.CleanFixpointIff | whatsmeow/internal/api/handlers.go:437-445 | a string is returned unchanged if and only if it consists of digits only |
| PhoneNumber.CleanIdempotent | whatsmeow/internal/api/handlers.go:437-445 | normalising an already normalised number changes nothing |
| PhoneNumber.CleanEmptyIff | whatsmeow/internal/api/handlers.go:439-444 | the normalised number is empty if and only if the input holds no digit |
| PhoneNumber.CleanCounts | whatsmeow/internal/api/handlers.go:439-444 | every digit occurs in the output exactly as often as in the input, and no other character occurs |
| PhoneNumber.CleanIsSubsequence | whatsmeow/internal/api/handlers.go:439-444 | the output keeps the input's order (it is a subsequence of the input) |
| PhoneNumber.DigitSubsequenceBound | whatsmeow/internal/api/handlers.go:439-444 | no all-digit subsequence of the input is longer than the output |
| PhoneNumber.CleanIsLongestDigitSubsequence | whatsmeow/internal/api/handlers.go:439-444 | any all-digit subsequence of the input at least as long as the output equals it, so the output is the unique longest one |
| PhoneNumber.FormattedNumberExample | whatsmeow/internal/api/handlers.go:437-445 | `"+1 (555) 123-4567"` normalises to `"15551234567"` |
| Handlers.ConnectMessage | whatsmeow/internal/api/handlers.go:87-92 | the hint is "Already connected" if and only if the status is "connected", and "Scan the QR code with WhatsApp" otherwise |
| Handlers.ConnectInstance | whatsmeow/internal/api/handlers.go:67-93 | a manager error gives 500 with its text; otherwise success echoes the status, QR code and number read back, with "Already connected" when the status is "connected" and "Scan the QR code with WhatsApp" for any other status |
| Handlers.GetQRCode | whatsmeow/internal/api/handlers.go:154-171 | success if and only if the QR code is non-empty or the status is "connected"; a non-empty QR is returned whatever the status; an empty QR when connected gives "no QR code needed"; any other case is 400 |
| Handlers.QRPayloadNeverEmpty | whatsmeow/internal/api/handlers.go:157-171 | a QR payload in a success response never carries an empty code |
| Handlers.HandleSend | whatsmeow/internal/api/handlers.go:186-219 | 400 if and only if the body does not decode or a required field is empty; the manager is called if and only if validation passes, with the request whose `to` is replaced by its all-digit cleaned form; success if and only if the manager succeeds, echoing the message id and cleaned `to`; a manager error is 500 with its text |
| Handlers.SendTextRejectedIff | whatsmeow/internal/api/handlers.go:194-197 | a text request is refused with 400 exactly when instanceId, to or text is empty |
| Handlers.SendMediaRejectedIff | whatsmeow/internal/api/handlers.go:238-241 | a media request is refused with 400 exactly when instanceId, to or mediaUrl is empty; caption and mediaType are optional |
| Handlers.SendPresenceRejectedIff | whatsmeow/internal/api/handlers.go:282-285 | a presence request is refused with 400 exactly when instanceId, to or presence is empty |
| Handlers.DigitlessDestinationPassesValidation | whatsmeow/internal/api/handlers.go:194-200 | a complete request whose `to` has no digit passes validation, and the manager is handed an empty destination |
| Handlers.PunctuationOnlyDestination | whatsmeow/internal/api/handlers.go:194-200 | the text request with `to == "+()"` reaches the manager with `to == ""` |
| Handlers.SendTextScenario | whatsmeow/internal/api/handlers.go:194-211 | `"+1 (555) 123-4567"` reaches the manager as `"15551234567"`, and the manager's "rate limited" failure comes back as 500 "rate limited" |
| Handlers.SendLocation | whatsmeow/internal/api/handlers.go:318-327 | never succeeds; 400 "Invalid request body" if and only if the body does not decode, otherwise 501 "Location sending not yet implemented" |
| Handlers.Unsupported | whatsmeow/internal/api/handlers.go:334-349 | contacts, check-number and groups always answer 501 "Not yet implemented" and never succeed |

## Left out

- `WebSocketHandler`: it consists of a reader goroutine, a channel `select`, a ping ticker and read deadlines, so its substance is concurrency and network I/O.
- `DisconnectInstance`, `LogoutInstance` and `GetInstanceStatus`: they only forward the manager's result or error, and the manager is not part of this model.
- `whatsapp.Manager` (`Connect`, `GetQRCode`, `GetStatus`, `Send*`, `Subscribe`, ...) is not part of this model. Its results are parameters: an `InstanceSnapshot` result for connect, the QR and status strings for the QR lookup, and a `reply` function for the send handlers.
- JSON decoding and encoding, `mux.Vars`, `http.ResponseWriter` and the response helpers are left out. A body that fails to decode is `None` (or `decoded == false`), and a response is the abstract `Response` datatype.
- The two-second wait and the read lock in `ConnectInstance` are timing and locking. The snapshot read after them is a parameter.
- The location request's `Latitude`/`Longitude` floats and its other fields are left out. The handler never reads them.
- Logging is left out.
- Go iterates a string as UTF-8 runes and turns invalid bytes into U+FFFD. The model takes the number as a sequence of characters. U+FFFD is not a digit, so it would be dropped either way.
- Handlers.HandleSend: the presence handler's manager call returns only an error. It is modelled with the same `reply` as the other two handlers, and the value of a successful presence reply is ignored.
