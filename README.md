# maigo core, modelled in Dafny

maigo is a Go client for the Medsenger agent API. This project models three parts of it.

- **The message options builder** (`send_message_options.go`). `newSendMessageOptions` allocates a record of fourteen fields with fixed defaults. It then runs each option's closure on that record, in the order given. The model has:
  - `MessageOptions.Payload` with `Applied`, `AppliedAll` and `Built`, which state what the builder computes;
  - the class `MessageOptions.SendMessageOptions`, whose methods update the fields in place, as the closures do;
  - the method `MessageOptions.NewSendMessageOptions`, whose loop is proved to compute `Built`.

  Lemmas describe the result:
  - the defaults;
  - that each option writes only its own fields, with a value that does not depend on the record;
  - that the last writer of a field wins;
  - that an option is idempotent;
  - that each flag is decided by whether its option occurs at all.
- **`StringDate.UnmarshalJSON`** (`internal/json/string_date.go`). It leaves the date alone on `null` and on input that is not quote-delimited. Otherwise it strips the quotes and parses the text with the layout `02.01.2006`. `JsonStringDate.ParseLayout` follows the checks Go's `time.Parse` makes for that layout, in the same order, so that it reports the same first error:
  - two digits of day, then a '.';
  - two digits of month, rejected at once when outside 1..12;
  - a '.', then four digits of year;
  - no text left over;
  - a day that exists in that month under the Gregorian leap-year rule.

  The model proves that the parser accepts exactly the texts `Format` writes for valid dates, and that each of them parses back to its date.
- **The `Client` facade** (`client.go`):
  - `Init` with its key-length check, `UpdateHost` and `DebugData`;
  - the request each client method sends (`CallFor`: endpoint, host, key, contract id, extra fields);
  - what each method makes of the pair `(*Response, error)` that the transport returns (`ListResult`, `AddRecordResult`, `SendMessageResult`).

  The transport is I/O. Its outcome enters the model as a `Reply` value.

Go's zero `time.Time` is `Date(1, 1, 1)`. A Go nil pointer or nil slice is `None`. A nil dereference, which panics in Go, is the `NilDereference` outcome.

`Init` asserts `len(apiKey) > 10`, so a key of exactly ten characters ends the process, although its message says "at least 10 characters". The model follows the code: `KeyAccepted` is `|apiKey| > 10`.

## Model

| member | source | states |
|---|---|---|
| MessageOptions.SendMessageOptions.constructor | send_message_options.go:27-37 | the record starts with the text, forwardToDoctor, actionOneTime and actionBig true, action type `action`, the other flags false, and empty link, name, role, deadline and attachments |
| MessageOptions.SendMessageOptions.SetAction | send_message_options.go:85-91 | the WithAction closure sets name, link and action type, and changes no other field |
| MessageOptions.SendMessageOptions.SetReusableAction | send_message_options.go:95-99 | the closure clears actionOneTime and changes nothing else |
| MessageOptions.SendMessageOptions.SetSmallAction | send_message_options.go:103-107 | the closure clears actionBig and changes nothing else |
| MessageOptions.SendMessageOptions.SetActionDeadline | send_message_options.go:110-114 | the closure sets the deadline to a timestamp of the given time and changes nothing else |
| MessageOptions.SendMessageOptions.SetOnlyDoctor | send_message_options.go:117-121 | the closure sets onlyDoctor and changes nothing else |
| MessageOptions.SendMessageOptions.SetOnlyPatient | send_message_options.go:124-128 | the closure sets onlyPatient and changes nothing else |
| MessageOptions.SendMessageOptions.SetAnsweredForDoctor | send_message_options.go:131-135 | the closure clears forwardToDoctor and changes nothing else |
| MessageOptions.SendMessageOptions.SetNeedAnswer | send_message_options.go:138-142 | the closure sets needAnswer and changes nothing else |
| MessageOptions.SendMessageOptions.SetUrgent | send_message_options.go:145-149 | the closure sets isUrgent and changes nothing else |
| MessageOptions.SendMessageOptions.SetPatientSenderRole | send_message_options.go:152-156 | the closure sets the role to patient and changes nothing else |
| MessageOptions.SendMessageOptions.SetAttachments | send_message_options.go:159-163 | the closure sets the attachments to the given slice, nil included, and changes nothing else |
| MessageOptions.SendMessageOptions.Apply | send_message_options.go:73-75 | running an option's closure turns the record into `Applied` of its old contents |
| MessageOptions.NewSendMessageOptions | send_message_options.go:26-42 | returns a new record holding the defaults with every option applied first to last (`Built`) |
| MessageOptions.AppliedAll | send_message_options.go:38-40 | a field that no option in the list writes keeps its value through the whole loop |
| MessageOptions.AppliedKeepsField | send_message_options.go:83-163 | a field an option does not write keeps its value |
| MessageOptions.AppliedKeepsOtherFields | send_message_options.go:83-163 | an option changes no field outside the ones it writes, and never the text |
| MessageOptions.AppliedOverwrites | send_message_options.go:83-163 | the value an option writes does not depend on the record it is applied to |
| MessageOptions.AppliedWrites | send_message_options.go:83-163 | the value each option writes into each of its fields |
| MessageOptions.LaterWriterWins | send_message_options.go:38-40 | an option whose fields a later option all rewrites leaves no trace |
| MessageOptions.AppliedIdempotent | send_message_options.go:83-163 | applying the same option twice is applying it once |
| MessageOptions.AppliedAllAppend | send_message_options.go:38-40 | applying `a` and then `b` equals applying `a + b` |
| MessageOptions.LastWriterDecides | send_message_options.go:38-40 | a field ends with the value given by the last option that writes it |
| MessageOptions.AppliedFlags | send_message_options.go:93-156 | after one option, each flag and the role are as before unless that option is the one naming them |
| MessageOptions.FlagsAfter | send_message_options.go:38-40 | after a list of options, each flag is set (or cleared) exactly when its option occurs, in any order and any number |
| MessageOptions.BuiltWithoutOptions | send_message_options.go:27-37 | with no options, the built payload is exactly the defaults |
| MessageOptions.TextNeverChanges | send_message_options.go:26-42 | the built payload's text is the text passed in |
| MessageOptions.BuiltFlags | send_message_options.go:26-42 | each flag of the built payload differs from its default if and only if its option occurs |
| MessageOptions.SendFromDefaultIsEmpty | send_message_options.go:151-156 | the role is patient if and only if WithPatientSenderRole occurs, and is empty otherwise; it is never doctor |
| MessageOptions.OnlyDoctorAndOnlyPatientCoexist | send_message_options.go:116-128 | OnlyDoctor and OnlyPatient together set both flags, with no conflict check |
| MessageOptions.ActionFromLastWithAction | send_message_options.go:85-91 | name, link and type come from the last WithAction |
| MessageOptions.ActionDefaultsWithoutWithAction | send_message_options.go:27-37 | without a WithAction, name and link are empty and the type is `action` |
| MessageOptions.DeadlineFromLastSetting | send_message_options.go:110-114 | the deadline is the one given by the last WithActionDeadline |
| MessageOptions.AttachmentsFromLastSetting | send_message_options.go:159-163 | the attachments are the ones given by the last WithAttachments |
| JsonStringDate.StringDate.constructor | internal/json/string_date.go:10-12 | a new StringDate holds the zero time |
| JsonStringDate.StringDate.UnmarshalJSON | internal/json/string_date.go:14-28 | on `null`: no error and the date is unchanged; on input that is not quote-delimited: the "not a JSON string" error and the date is unchanged; otherwise the date and error are those of parsing the unquoted text, with the zero time on failure |
| JsonStringDate.ParseLayout | internal/json/string_date.go:24-26 | every date the layout accepts is valid and formats back to the text it came from |
| JsonStringDate.FormatParses | internal/json/string_date.go:24-26 | every valid date written as DD.MM.YYYY parses back to itself |
| JsonStringDate.ParseLayoutAcceptsExactlyFormattedDates | internal/json/string_date.go:24-26 | a text parses if and only if it is the DD.MM.YYYY text of some valid date |
| JsonStringDate.DottedDateParses | internal/json/string_date.go:24-26 | "05.03.1990" is March 5, 1990 (day first) |
| JsonStringDate.OtherLayoutsRejected | internal/json/string_date.go:24-26 | an ISO date and a one-digit day are refused as a layout mismatch |
| JsonStringDate.MonthThirteenRejected | internal/json/string_date.go:24-26 | month 13 is refused as out of range |
| JsonStringDate.LeapDayFollowsGregorianRule | internal/json/string_date.go:24-26 | 29.02.1900 is refused and 29.02.2000 is accepted |
| JsonStringDate.TrailingTextRejected | internal/json/string_date.go:24-26 | text after the year is refused as extra text |
| JsonStringDate.QuotedDateDecodes | internal/json/string_date.go:19-26 | the quoted text of any valid date passes the quote check and decodes to that date |
| MaigoClient.Client.Init | client.go:42-45 | needs a key longer than ten characters; the client holds that key and the host "medsenger.ru" |
| MaigoClient.Client.UpdateHost | client.go:48-51 | sets the host, keeps the key and returns the same client |
| MaigoClient.Client.DebugData | client.go:23-25 | the line is "apiKey: ", the key's first ten characters, "..., host: " and the host |
| MaigoClient.Client.UrlAppendingPath | client.go:28-30 | an https URL on the client's current host with the given path |
| MaigoClient.Client.TokenAndContract | client.go:32-37 | the base body carries the client's key and the given contract id |
| MaigoClient.Client.CallFor | client.go:55-236 | every client method posts to its own endpoint on the current host over https, with the client's key, and with its contract id when it has one |
| MaigoClient.ValidClientCanDebug | client.go:23-45 | a key that `Init` accepts is long enough for `DebugData` to slice |
| MaigoClient.DebugDataHidesKeyTail | client.go:23-25 | keys that share their first ten characters give the same debug line |
| MaigoClient.CallsDifferOnlyInHost | client.go:47-51 | changing the host changes the URL's host and nothing else in any request |
| MaigoClient.SendMessageCarriesBuiltPayload | client.go:79-83 | SendMessage posts to /api/agents/message the payload built from its text and options, with the text unchanged |
| MaigoClient.RecordInsertsAskForIds | client.go:176-236 | AddRecord and AddRecords both post to /api/agents/records/add with return_id set |
| MaigoClient.ListResult | client.go:115-126 | on an error, nil and that error; otherwise the decoded list, unchanged; on every `WellFormed` reply it returns rather than dereferencing nil |
| MaigoClient.AddRecordResult | client.go:194-201 | on an error, nil and that error; on an empty decoded list, nil and the "empty id response" error; an id is returned only without error, and it is the first of a non-empty decoded list |
| MaigoClient.AddRecordNarrowsAddRecords | client.go:194-235 | AddRecord reports the same transport errors as AddRecords, the "empty id response" error if and only if the list is empty, and otherwise the list's first id |
| MaigoClient.SendMessageResultAsWritten | client.go:84-85 | returns if and only if the reply pointer is non-nil |
| MaigoClient.SendMessageAsWrittenPanicsOnTransportError | client.go:84-85 | any transport error that comes with a nil pointer (encode, network, status, or a decode error that fails before allocating) makes SendMessage dereference nil |
| MaigoClient.SendMessageResult | client.go:84-85 | on every `WellFormed` reply it returns rather than dereferencing nil; reports an error if and only if the transport did; otherwise returns the new message's id |
| MaigoClient.SendMessageReportsTransportErrors | client.go:84-85 | every reply carrying an error, with or without a partly decoded value, gives that error and a zero id |

## Left out

- HTTP, JSON encoding and decoding, and the response dump to the log (internal/net/make_request.go) are I/O. Their outcome is a `Reply` parameter, constrained by `WellFormed`. Bodies are datatypes, not JSON text.
- The `log.Fatal` after a failed response dump ends the process. The model does not cover that path.
- The epoch-seconds codec of `Timestamp` (internal/json/timestamp.go) is not part of this model. `Instant` and `Timestamp` are opaque values.
- `StringDate` encoding is not part of this model. The file holds only `UnmarshalJSON`.
- The `GetRecordsOption` values and `applyGetRecordsOptions` are not part of this model. `GetRecords` carries the resulting category filter directly.
- `AddHooksForCategories` and `RemoveHooksForCategories` are not modelled: they only panic with "not implemented".
- `UserRole` and `MessageActionType` are Go string types, so callers may convert any string to them. The model has only the named constants. An empty `SendFrom` is `None`.
- `MessageOptions.SendMessageOptions.SetActionDeadline`: each call allocates a new `json.Timestamp`. Pointer identity is not modelled, only the time it holds.
- `MaigoClient.Client.Init`: `log.Fatalln` on a short key ends the process. The model states this as a precondition.
- `MaigoClient.Client.DebugData`: Go slices the key in bytes and measures length in bytes; the model measures characters. Its precondition is the slice bound, ten characters.
- `MaigoClient.Client.Init`: Go's `len(apiKey) > 10` counts bytes, so a key of fewer than eleven characters with multi-byte characters can pass in Go; the model counts characters.
- `MaigoClient.Client.Valid`: Go does not force clients to come from `Init`. The zero value (`var c maigo.Client` or `maigo.Client{}`) has an empty key, and code inside the package can build a literal with a short key; `DebugData` panics on such a client. The model assumes clients come from `Init`, and `DebugData` requires ten characters.
- A 200 reply whose body is `null` decodes to a nil pointer without an error. `GetRecords`, `AddRecord`, `AddRecords` and `SendMessage` (as written and as corrected) then dereference nil. This is the `NilDereference` outcome of `ListResult`, `AddRecordResult`, `SendMessageResultAsWritten` and `SendMessageResult`, outside what `WellFormed` admits.
- A nil `SendMessageOption` in the options panics when `newSendMessageOptions` calls `opt.apply` on it. The option datatype has no nil value, so this panic is not modelled.
- Client methods that return the transport's pointer and error unchanged do not get a projection of their own. `CallFor` gives their requests:
  - `GetContractInfo`, `GetClinicsInfo`, `GetCategories`, `GetAvailableCategories`, `GetRecord` and `GetAgentTokenForContractId`;
  - `OutDateMessage` and `SendRecordAddition`, whose empty-response call returns only the error.
- Concurrency is not modelled. A `Client` is shared by pointer, and `UpdateHost` writes `host` without synchronisation.

## Findings

| source | as written | input that shows it | evidently intended | confidence | as-written member | corrected member |
|---|---|---|---|---|---|---|
| client.go:84-85 | `SendMessage` returns `resp.Id, err` without first checking `err`. On an encode, network or non-200 status error, or a decode error that fails before allocating (an empty or malformed body), the transport returns a nil `resp`, so reading `resp.Id` panics. | a reply with status 500: `MakeRequest` returns `(nil, error)` | return `0, err` when `err != nil`, as the other client methods do, and the id otherwise | not executed | MaigoClient.SendMessageResultAsWritten, MaigoClient.SendMessageAsWrittenPanicsOnTransportError | MaigoClient.SendMessageResult, MaigoClient.SendMessageReportsTransportErrors |
