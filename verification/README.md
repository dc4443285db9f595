# GreenIt plant-care analyser — Dafny model

GreenIt is a small web application. The browser page takes a plant-care question,
optionally with a photo, and posts it to the `/analyse` route of an Express server. The
server forwards it to a generative model and relays the JSON advice it returns. The page
then shows the advice card, a language label and a list of popular plants.

This project models the two pieces of deterministic logic in that flow and proves their
properties:

* **The `/analyse` handler** (module `Analyse`, `server.dfy`). It defaults the prompt to
  `""` and the mime type to `image/jpeg`. It refuses a request with neither a prompt nor an
  image with 400, before any model call. For any other request it builds the ordered
  content parts: one text part, holding the prompt or a fixed fallback sentence, then the
  inline image if one was sent. Finally it maps the outcome to exactly one of three
  replies: 200 with the parsed model text, 500 `"Analysis failed"`, or the 400.
* **The page's pure helpers** (module `Client`, `client.dfy`):
  * the submit guard and the request body it builds;
  * the split of a file's data URL into base64 text and media type;
  * the language label;
  * the advice card with its placeholders;
  * the lines of the popular-plants list.
* **The JavaScript string operations these rely on** (module `JsText`, `text.dfy`):
  `trim`, `split` on one character, and the decimal rendering of an integer in a template
  literal.
* **Cross-component properties** (module `Flow`, `flow.dfy`): what a request built by the
  page does at the handler, and how the page shows the handler's error replies.

JSON fields are `Option` values. An absent field and `null` are both `None`. JavaScript
truthiness on a string field is `Values.Truthy`: the field is present and non-empty.

The model call and `JSON.parse` are outside the model. `Analyse.Handle` takes them as
function parameters: `call` gives the model's text, or `None` when the call throws or
returns no text, and `parse` gives the parsed value, or `None` when `JSON.parse` throws.
The handler's result records every model call it makes, so "no call on a rejected
request" and "exactly one call otherwise" are stated about the result. On the page,
reading the chosen file is a parameter too: `Client.Submit` receives the data URL that
`FileReader.readAsDataURL` would produce.

The server has no popularity ledger, no `/stats/top` route, no 502 status for malformed
model output, no schema validator and no language-hint field. It does not trim the prompt;
only the page does. A parse failure gives the same 500 reply as a failed model call.

The page requests `/stats/top`, which the server does not define. Only the formatting of
the rows it would receive is modelled.

## Model

| member | source | states |
|---|---|---|
| `Analyse.Normalise` | server/server.js:65-67 | A missing or empty prompt becomes `""` and any other prompt is kept as sent. A missing or empty mime type becomes `image/jpeg` and any other is kept. The image is passed through untouched. The resulting mime type is never empty. |
| `Analyse.NormaliseIdempotent` | server/server.js:65-67 | Normalising a body that already carries the normalised values gives the same request back. |
| `Analyse.BuildParts` | server/server.js:76-93 | The parts list has one or two entries, and two exactly when an image is present. The first part is text: the prompt verbatim when it is non-empty, the fixed fallback sentence otherwise. The second part, when present, carries the image data unchanged and the defaulted mime type. |
| `Analyse.Prepare` | server/server.js:64-93 | A request is rejected with "Please provide a prompt or an image." if and only if neither the prompt nor the image is truthy. Every other request produces the parts built from the normalised request. |
| `Analyse.AcceptedPartsShape` | server/server.js:76-93 | Every accepted request has exactly one text part. It has one inline-data part if an image was sent and none otherwise. |
| `Analyse.BuildPartsInjective` | server/server.js:76-93 | Two requests give the same parts if and only if they send the same text and agree on the image. Both must carry one or neither, and when they do, the data and the mime type match. The only collision in the text is an empty prompt against a prompt equal to the fallback sentence. |
| `Analyse.FallbackPromptIndistinguishable` | server/server.js:78-84 | With an image present, a prompt equal to the fallback sentence produces the same invocation as no prompt at all. |
| `Analyse.Handle` | server/server.js:64-109 | The status is always 200, 400 or 500. It is 400 with the empty-request error exactly when neither prompt nor image is truthy, and then the model is never called. Any other request calls the model exactly once, with the built parts. The status is 200 exactly when the call returns text that parses, and the body is then the parsed value. Every other case is 500 `"Analysis failed"`. |
| `Analyse.CallAndParseFailuresAgree` | server/server.js:95-108 | A failed model call and unparseable model text give the same 500 `"Analysis failed"` reply. |
| `JsText.Trim` | client/src/main.js:9 | The result is a contiguous slice of the input. Only JavaScript white space and line terminators are cut from either end, and the result neither starts nor ends with one. |
| `JsText.TrimEmptyIffAllSpace` | client/src/main.js:9-13 | The trimmed prompt is empty exactly when the raw prompt is all white space. |
| `JsText.TrimIdempotent` | client/src/main.js:9 | Trimming twice gives the same string as trimming once. |
| `JsText.Split` | client/src/main.js:66 | The input splits into at least one piece, and into exactly one when it has no separator. The first piece is everything before the first separator. No piece contains the separator. |
| `JsText.JoinSplit` | client/src/main.js:66 | Joining the pieces of a split with the same separator gives back the input, so the split loses nothing. |
| `JsText.SplitJoin` | client/src/main.js:66 | Splitting a join of separator-free pieces gives back exactly those pieces. |
| `JsText.NatToDecimal` | client/src/main.js:158 | A natural number renders as at least one decimal digit, with no leading zero. |
| `JsText.NatToDecimalRoundTrip` | client/src/main.js:158 | A natural number's decimal digits read back as that number. |
| `JsText.IntToDecimal` | client/src/main.js:158 | A rendered count is non-empty. It starts with `-` exactly when the count is negative, and all its other characters are decimal digits. |
| `JsText.IntToDecimalRoundTrip` | client/src/main.js:158 | A rendered integer count, negative counts included, reads back as itself. |
| `Client.MatchBase64Prefix` | client/src/main.js:69-70 | A capture exists only when the prefix is exactly `data:` + capture + `;base64` and the capture has no line terminator. A prefix shorter than those two markers never matches. |
| `Client.MatchBase64PrefixComplete` | client/src/main.js:69-70 | Every media type without a line terminator, including the empty one, is captured back exactly from `data:<type>;base64`. |
| `Client.FileToBase64AndType` | client/src/main.js:65-71 | The base64 text is `""` when the data URL has no comma. Otherwise it is the segment after the first comma, up to the next comma or the end. The type is the capture of the text before the first comma, or `image/jpeg` when that text does not match. |
| `Client.DataUrlRoundTrip` | client/src/main.js:65-71 | `data:<type>;base64,<payload>` gives back exactly `<payload>` and `<type>`, provided neither contains a comma and the type has no line terminator. |
| `Client.Submit` | client/src/main.js:9-35 | Submission is refused with the alert exactly when the prompt is all white space and no file is chosen. Otherwise the body carries the trimmed prompt. It also carries the file's base64 text and type when a file is chosen, and `null` for both when none is. |
| `Client.View` | client/src/main.js:81-135 | Names missing or empty show "Not available" and a missing or empty problem shows "No visible issues". A missing causes object or list shows as an empty list. The five care texts show "Not available" when missing or empty. Every present non-empty value is shown unchanged. |
| `Client.ShowsAdviceUnique` | client/src/main.js:81-135 | The description of the card fixes it completely: two cards that both show the same advice record are equal. |
| `Client.ViewIdempotent` | client/src/main.js:81-135 | Showing an already-shown card again changes nothing, because no placeholder is empty. |
| `Client.NoAdviceShowsPlaceholders` | client/src/main.js:81-135 | A body with none of the advice fields shows every placeholder and four empty lists. |
| `Client.RenderList` | client/src/main.js:96-126 | The rendered list has the same length as its input, and each item is shown in its input position. |
| `Client.DisplayAdvice` | client/src/main.js:78-138 | The card rendered item by item shows the advice as described: each name, problem and care text is the value when present and non-empty, else its placeholder. Each list is the given array, or empty when missing. |
| `Client.LanguageLabel` | client/src/main.js:41-50 | The label is visible exactly when the code or the name is truthy, and it is non-empty exactly when visible. With a code it reads (name or code) + ` (` + code + `)`. With only a name it is the name. |
| `Client.ShowReply` | client/src/main.js:38-57 | The language label is always computed. A `null` reply renders no card for this reply, so an earlier card stays visible, and it raises the request-failed alert. Any other reply shows a card that shows its advice, and no alert. |
| `Client.RowLineParts` | client/src/main.js:158-160 | A row line starts with the plant name and ` — `. It ends with ` search` when the count is 1 and with ` searches` otherwise. Between them is the count in decimal. |
| `Client.DecodeCountOf` | client/src/main.js:158-160 | The `<count> search(es)` tail of a row line reads back as the count. |
| `Client.RowLineDecodes` | client/src/main.js:155-161 | Given the plant name, a row line reads back as exactly the row's count. |
| `Client.RowLineSingularIff` | client/src/main.js:158-160 | A row line ends in ` search` exactly when the count is 1. |
| `Client.TopPlantLines` | client/src/main.js:148-161 | A missing or empty list of rows gives the single line "No searches yet.". Otherwise there is one line per row, in input order. |
| `Flow.NonBlankPromptReachesModel` | client/src/main.js:9-35 | A prompt that is not all white space is always sent. The handler accepts it, and its first part is the trimmed prompt. |
| `Flow.ImageReachesModel` | client/src/main.js:61-71 | A chosen image with a non-empty payload reaches the model as the second part. That part carries the data URL's media type, or `image/jpeg` when that type is empty. |
| `Flow.BlankPromptEmptyFileRejectedByServer` | server/server.js:69-73 | Take a blank prompt with a file whose data URL has an empty payload. The page sends it, the handler replies 400, and the model is not called. |
| `Flow.FailedReplyShowsPlaceholders` | client/src/main.js:38-52 | The page ignores the status, so it reads any 400 or 500 reply as a body with no advice fields. The language label is then hidden and the card shows its placeholders and empty lists. |

## Left out

- The generative-model call: it is an external, non-deterministic service, so it is the
  parameter `call`. The system instruction text is a constant prompt with no behaviour,
  so it is not modelled either.
- `JSON.parse` and `response.json()`: library parsers, represented by the parameter
  `parse` and by the `decode` function in `Flow`.
- Express, CORS, dotenv, body-size limits, `listen` and the `/` route: HTTP and process
  plumbing.
- DOM writes, `alert`, `fetch`, `FileReader` and event wiring: only the values written
  to the page are modelled.
- JSON values that are not strings, arrays of strings or absent: the request body and the
  advice fields are assumed absent, `null` or of the expected type. A number or object in a
  text field, or a string where a list is expected, is not modelled. The popular-plants rows
  are narrower still; see the `Client.TopPlantLines` lines below.
- Strings are sequences of Unicode scalar values rather than UTF-16 code units. Data URLs
  and trimming behave the same for the characters involved.
- `Client.TopPlantLines`: counts are integers rendered with all their decimal digits. This
  matches JavaScript only up to 2^53 (`Number.MAX_SAFE_INTEGER`). Above it, JavaScript prints
  the shortest digits that round-trip, padded with zeros: a count of 2^64 shows as
  `18446744073709552000`, but `JsText.IntToDecimal` gives `18446744073709551616`. Counts
  beyond 2^53 and non-integral counts are not modelled.
- `Client.TopPlantLines`: every row is assumed to be an object with a string `plant_name` and
  a numeric `count`. A missing or `null` field is not modelled. The page would print it as
  `undefined` or `null`, as in `undefined — 3 searches`. A `null` row is not modelled either.
  On the page it throws while the line is formatted; the catch logs the error, and the lines
  already appended stay on the page.
- `JsText.IntToDecimal`: agrees with JavaScript's rendering of a number only for integers
  of magnitude at most 2^53, for the reason given in the first `Client.TopPlantLines` line.
- `Client.RowLineParts`: the count part of the line is `JsText.IntToDecimal`, so it agrees with
  the page only for counts of magnitude at most 2^53.
- A request that fails on the network, and the failed `/stats/top` fetch: both are I/O
  errors caught and logged by the page, not modelled.
