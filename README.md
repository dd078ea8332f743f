# Enel invoice flow — a verified Dafny model

This project models the core of `enel_invoice`. The program fetches the current
invoice of one account holder from the customer portal of an electricity utility.
It has two variants:

- **The browser flow** (`enel.go`). A `Flow` record logs in, reads the second
  item of the invoice list to classify the status, drills into the detail page
  when the invoice is pending or overdue, and reads and normalises the value,
  due date and barcode. Each `chromedp.Run` call is modelled as one step of an
  abstract browser (`Enel.Browser`, a function from `Enel.Step` to
  `Text(s) | Fail(msg)`). The one exception is `invoiceData`, whose three `Text`
  reads are taken as three separate steps. The login step carries the e-mail
  and password it types (`Enel.LoginRun(email, pw)`).
- **The token flow** (`v2/enel.go`). A `Flow` record logs in through a JSON
  endpoint, keeps the response cookies and the bearer token, and then posts an
  authenticated request that replays them. The HTTP client is an oracle
  (`EnelV2.Network`), and response bodies are given already decoded (`EnelV2.Body`).

Files:

- `common.dfy`: `Option` and `Result`.
- `strings.dfy`: the Go `strings` functions the flows use. These are
  `Replace` with a one-character pattern, `TrimPrefix`, `Contains` and an
  ASCII-only `ToLower`.
- `enel.dfy`: the browser flow. It holds pure specification functions for each
  step (`LoginSpec`, `ListSpec`, `DataSpec`, `FlowSpec`), lemmas about them, and
  the class `Flow`, whose methods are proved equal to those functions.
- `enel_v2.dfy`: the token flow. It holds the class `HttpRequest`, the `Request`
  method with its header and cookie loops, and the class `Flow` with `Login`
  and `GetInvoice`.

Behaviour of the code that is easy to misread:

- The identity check after login is case-insensitive equality (`enel.go:92`),
  not containment in either direction. `Strings.SameLowerExamples` shows that
  "JOAO SILVA" does not match "joao".
- Only U+0020 is removed from the barcode (`enel.go:237`). Tabs and newlines stay.
- A settled invoice has no short cut. `invoiceData` runs whatever the status is
  (`enel.go:65`). A status with neither marker keeps its previous value, which is
  "" on a fresh flow. So a successful flow can return an empty status (`Enel.SettledStillReadsDetail`).
- When both markers are present, "Vencido" wins, because its check runs second
  (`enel.go:114-119`).
- The name check comes before the transport error check (`enel.go:92-98`). A
  failed login run leaves the name "", so it reports the name mismatch unless
  the expected name is itself empty (`Enel.FailedRunReportsMismatch`).

## Model

| member | source | states |
|---|---|---|
| Strings.ReplaceRune | enel.go:237-238 | replacing a character by a string that does not contain it leaves none of it; a one-character replacement keeps the length |
| Strings.ReplaceRuneAt | enel.go:238 | replacing by one character changes exactly the positions that held the pattern, and keeps every other character where it was |
| Strings.DeleteRuneCounts | enel.go:237 | deleting a character keeps the count of every other character, and shortens the string by the number of occurrences |
| Strings.ReplaceRuneAppend | enel.go:237-238 | replacement distributes over concatenation, so untouched characters keep their order |
| Strings.ReplaceRuneAbsent | enel.go:237-238 | a string without the pattern character is returned unchanged |
| Strings.ContainsIffOccurs | enel.go:114-117 | the `Contains` scan succeeds exactly when the marker occurs at some position of the list text |
| Strings.TrimPrefix | enel.go:238 | with the prefix present the result is what follows it (`prefix + r == s`); without it the string is returned unchanged |
| Strings.Contains | enel.go:114-117 | a string only contains something no longer than itself, and every string contains the empty string |
| Strings.Lower | enel.go:92 | lower-casing keeps the length and maps each character by ASCII lower-casing |
| Strings.SameLower | enel.go:92 | names that match case-insensitively have the same length, and every name matches itself |
| Strings.SameLowerExamples | enel.go:92 | the name match ignores case ("Ana"/"ANA") but is equality, not containment ("JOAO SILVA"/"joao" fail) |
| Enel.StripSpaces | enel.go:237 | the barcode holds no space afterwards and every other character keeps its count |
| Enel.StripSpacesLength | enel.go:237 | the barcode's length drops by exactly the number of spaces it held |
| Enel.StripSpacesKeepsOrder | enel.go:237 | space removal works piece by piece (order kept), leaves a space-free string alone and is idempotent |
| Enel.NormalizeValue | enel.go:238 | no ',' remains; the length drops by 2 exactly when "R$" is at position 0; each remaining character is the original one at the same offset (after the prefix) with ',' turned into '.' and every other character, '.' included, kept |
| Enel.Formatted | enel.go:236-240 | formatInvoice leaves due date and status unchanged and leaves no space in the barcode and no comma in the value |
| Enel.OneCommaReplaced | enel.go:238 | in a value with one decimal comma only that comma becomes a dot |
| Enel.ValueExample | enel.go:238 | "R$123,45" becomes "123.45" |
| Enel.ValueKeepsThousandsSeparator | enel.go:238 | "R$1.234,56" becomes "1.234.56": thousands separators are not removed |
| Enel.ValuePrefixOnlyAtStart | enel.go:238 | an "R$" that is not at position 0 stays |
| Enel.OneSpaceRemoved | enel.go:237 | two space-free groups joined by one space are joined without it |
| Enel.BarcodeExample | enel.go:237 | "12 34" becomes "1234" |
| Enel.BarcodeKeepsOtherWhitespace | enel.go:237 | tabs and newlines in a barcode are kept |
| Enel.DisplayedName | enel.go:75-91 | when the login run fails no name is read, so the name check passes only for an empty expected name |
| Enel.LoginDecision | enel.go:92-98 | login fails with the name error whenever the lower-cased names differ, even after a failed run; with matching names it returns the run's error; it succeeds exactly when the run read a matching name |
| Enel.FailedRunReportsMismatch | enel.go:86-98 | a failed login run is reported as the name mismatch when an expected name is set, and as the run's own error only when it is empty |
| Enel.Classify | enel.go:114-119 | the status either stays as it was or becomes one that drills down (pending or overdue); from a status that does not drill down and with no "Pendente", it drills down exactly when "Vencido" is present |
| Enel.HeaderCheck | enel.go:137-142 | the drill-down succeeds exactly when the header read is "Detalhamento de conta"; a failed run gives its own error; any other header is the wrong page |
| Enel.ClassifyCases | enel.go:114-119 | "Vencido" anywhere gives overdue even beside "Pendente"; "Pendente" alone gives pending; neither keeps the previous status |
| Enel.ListFailureKeepsInvoice | enel.go:110-112 | a failed list read returns its error before the status is touched, and issues no drill-down |
| Enel.ListDrillDown | enel.go:114-147 | after a list read the status is the classified one; the drill-down runs exactly when the status is pending or overdue, and then succeeds exactly when the header is "Detalhamento de conta"; otherwise the step succeeds |
| Enel.ListRunsShape | enel.go:101-148 | invoiceList issues the list run and at most the drill-down; an error comes from the last of them |
| Enel.DataRunsShape | enel.go:150-177 | invoiceData issues a non-empty prefix of value, due date and barcode reads, all three on success; a data error carries the failure reply of the last read issued |
| Enel.DataFailureKeepsRawReads | enel.go:150-171 | after a failed read the reads before it are stored raw and the rest of the invoice is untouched: formatInvoice does not run |
| Enel.RunsInOrder | enel.go:48-71 | login, the list runs and a prefix of the reads form a prefix of the full run order; with all three reads they form it exactly, with the drill-down present exactly when a detail run is |
| Enel.FlowOrder | enel.go:48-71 | login, with the user's e-mail and password, runs first; runs follow login, list, (detail), value, due date, barcode; a successful flow issues all of them |
| Enel.FlowStopsAtFailure | enel.go:53-69 | an error arises at the last run issued, and every run before it answered with a text, so nothing runs after the step that failed |
| Enel.FailureIsLastRun | enel.go:53-69 | an error that carries a message carries the failure reply of the last run issued; a wrong page comes from a header other than "Detalhamento de conta" |
| Enel.EarlierRunsAnswered | enel.go:48-177 | every run before the last one answered with a text, so no run follows a failed one |
| Enel.MismatchStopsFlow | enel.go:53-57 | a name mismatch ends the flow after the login run, with the invoice untouched |
| Enel.FlowSuccess | enel.go:48-71 | on success every read succeeded, the result is the normalised value and barcode, the raw due date and the classified status, and a drill-down saw the exact header |
| Enel.SettledStillReadsDetail | enel.go:59-70 | with neither marker on a fresh flow there is no drill-down, the detail fields are still read, and success leaves the status "" |
| Enel.ReversedRunsEachOnce | enel.go:49-51 | deferred calls run each registered cancel function exactly once (same multiset), the last registered first |
| Enel.SetContext | enel.go:185-197 | the allocator cancel is registered before the context cancel, so the context cancel is released first |
| Enel.RunEventsAppend | enel.go:48-71 | the history of runs issued step after step is the history of all of them, in order |
| Enel.ReleaseEventsAppend | enel.go:49-51 | the history of cancel calls made one after another is the history of all of them, in order |
| Enel.ReleasesAfterRuns | enel.go:49-51 | in a history of runs followed by deferred calls, no run comes after a cancel call, so the browser context is alive for every run |
| Enel.Flow.constructor | enel.go:180-183 | a new flow has the given user, an empty invoice and the two cancel functions in registration order |
| Enel.Flow.Run | enel.go:76-167 | each `chromedp.Run` answers with the oracle's reply and appends that run to the flow's history |
| Enel.Flow.Invoke | enel.go:50 | calling a cancel function appends its call, and only that, to the flow's history |
| Enel.Flow.ReleaseAll | enel.go:49-51 | the deferred calls append the registered functions to the history in reverse order |
| Enel.Flow.Login | enel.go:73-99 | login issues exactly one run, which carries the user's e-mail and password, and returns the decision of `LoginSpec` |
| Enel.Flow.InvoiceList | enel.go:101-148 | the two status assignments and the drill-down give exactly the runs, status and error of `ListSpec` |
| Enel.Flow.InvoiceData | enel.go:150-177 | the three reads stop at the first failure and keep what was read; formatInvoice runs only when all succeeded (`DataSpec`) |
| Enel.Flow.FormatInvoice | enel.go:236-240 | the invoice becomes `Formatted` of the old one |
| Enel.Flow.InvoiceFlow | enel.go:48-71 | the runs, invoice and error are those of `FlowSpec`; the empty invoice is returned on any error and the flow's invoice on success; after the last run, on every exit path, every cancel function registered at entry is called once, in reverse order |
| EnelV2.LoginRequest | v2/enel.go:57-72 | the login request is a POST to the login endpoint with no cookies, with the canal forced to "ZINT" and e-mail and password unchanged in its payload, and with the three login headers |
| EnelV2.InvoiceRequest | v2/enel.go:87-105 | the invoice request carries "Authorization: Bearer " followed by the bearer, the stored cookies, the user as it stands, and one value per header |
| EnelV2.Sprint | v2/enel.go:80-83 | a rendering is empty exactly for the empty JSON string; nil renders "<nil>"; a string renders as itself |
| EnelV2.Rendered | v2/enel.go:79-83 | `fmt.Sprint(data[key])` after `parseBody` (v2/enel.go:135-143) is empty exactly for a present empty JSON string, and "<nil>" for a missing key or an unreadable or undecodable body; used for both E_MSG and token |
| EnelV2.Request | v2/enel.go:117-133 | the request sent holds every header entry once and every supplied cookie in order; no response comes back when building or sending fails |
| EnelV2.HttpRequest.constructor | v2/enel.go:118 | a new request has its method, URL and payload, and no headers or cookies |
| EnelV2.HttpRequest.AddHeader | v2/enel.go:123 | adding a header appends the value under its key and changes no other key |
| EnelV2.HttpRequest.AddCookie | v2/enel.go:126 | adding a cookie appends it to the request's cookie list and leaves the header untouched |
| EnelV2.Flow.constructor | v2/enel.go:38-40 | a new flow holds the e-mail and password, an empty canal, no cookies and no bearer |
| EnelV2.Flow.Login | v2/enel.go:57-85 | the canal becomes "ZINT", e-mail and password unchanged; a request error returns before cookies or bearer change; otherwise cookies are replaced first, the login is rejected with the bearer unchanged when E_MSG renders non-empty, and the bearer becomes the rendering of `token` otherwise |
| EnelV2.Flow.GetInvoice | v2/enel.go:87-115 | the request carries the bearer and the stored cookies; a request error leaves the cookies; otherwise they are replaced by the response cookies |

## Left out

- The chromedp actions (navigation, waits, sleeps, clicks, key input, text
  extraction) are foreign browser automation with timeouts. Each `chromedp.Run`
  is one oracle step. Selectors and URLs are part of what a step means. The
  three `Text` actions of `invoiceData` are three steps. Since `Text` is the last
  action of the login, list and detail runs, a failed run leaves its text "".
- Browser bootstrap in `setContext` (allocator options, GPU and headless flags)
  is left out. Only the two cancel functions and their order are kept. The
  `headless` parameter of `NewFlow` and the package global `user` it reads
  become the constructor's `browser` and `user` parameters.
- `textByPath`, `textByID` and `waitVisible` are unused wrappers over chromedp.
- Logging, the `init` flag registration and the globals `configPath` and `user` are process plumbing.
- What a cancel function does (ending the browser) is left out. Only its
  invocation is recorded, in the ghost history `events` beside the browser runs. Idempotence of a second
  call is not modelled, because the flow calls each function once.
- `Strings.Lower`: models `strings.ToLower` on ASCII letters only, because
  Unicode case mapping is out of reach here.
- The v2 `main` is a driver with fixed credentials.
- The v2 `Invoice` type (a float value and a structured date) is never filled in.
- `json.Marshal` is left out. The payload is the `User` record itself. Its
  error branches (`v2/enel.go:61-64`, `90-93`) cannot be taken for a struct of
  three strings, so they are left out too.
- `ioutil.ReadAll` and `json.Unmarshal` are left out. A body arrives as
  `Unreadable`, `Undecodable` or a decoded `Object`. `fmt.Sprint` is kept only as
  far as it tells values apart: nil prints "<nil>", a string prints itself, and
  any other JSON value prints something non-empty.
- `EnelV2.HttpRequest.AddHeader`: header keys are not canonicalised. Go's
  `Header.Add` rewrites "DNT" as "Dnt", for example; the model keeps the key as given.
- `EnelV2.HttpRequest.AddCookie`: a cookie is appended to a list on the request,
  not serialised into the `Cookie` header that Go's `AddCookie` writes, so the
  header map does not show it.
- `EnelV2.Request`: header keys are kept as given, as in `AddHeader`, and cookies
  are kept as a list, as in `AddCookie`. The network's own behaviour, and the
  closing of response bodies, are left out.
- `enel_test.go` is a live test against the portal. Its non-empty field
  assertions are not promised by the code (see `Enel.SettledStillReadsDetail`),
  so they are not contracts.
