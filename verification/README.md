# LinkedIn Intelligence extractor — Dafny model

The application takes a profile reference from the user: a URL, or a screenshot
read into a data URI. It asks a generative model to extract contact and career
data, then shows the result on a card. The model covers its three pieces of
logic:

- **The extraction session** (`App.dfy`, module `App`). The page state is an
  immutable `Session` with these fields:
  - the status (`IDLE`, `UPLOADING`, `ANALYZING`, `SUCCESS`, `ERROR`);
  - the result `data`;
  - the `error` banner;
  - the image `previewUrl`;
  - the URL field.

  Each handler is a pure function giving the net effect of the state updates
  it issues, and `Step` dispatches an `Event` to it. The events are: editing
  the URL field, submitting the form, choosing a file, the file reader
  finishing, the extraction settling, and "Remove" on the preview.
  The session also keeps a `job` field. It holds the continuation that is
  waiting for the outside world: the awaited URL extraction, the file reader,
  or the awaited image extraction. A settlement is therefore applied to the
  request that is in flight. With `job`, "one request at a time" becomes a
  state invariant (`Inv`), and every run of events keeps it.
- **Service post-processing** (`GeminiService.dfy`). This covers:
  - the two requests: the image payload, the fixed PNG type, the URL name
    hint, search grounding, and the shared response schema;
  - reading the reply: `response.text || '{}'`;
  - defaulting `linkedinUrl` to the submitted URL on the URL path.

  The backend call and `JSON.parse` are parameters.
- **Card derivations** (`DataCard.dfy`). This covers:
  - the confidence tier;
  - the primary phone and the numbered alternatives;
  - the email rows;
  - the first-name label of the direct number;
  - the rules for "Not found", the copy button, the primary badge, the
    profile link and the summary.

`Types.dfy` holds the two shapes of a result:
- `ExtractedData` is the declared interface.
- `Record` is what the service actually returns: the parsed JSON object after
  an unchecked cast. In it any key may be missing or `null` (`Field` is
  `Absent | Null | Present`).

The card and the session work on `Record`, as the running code does.
`JsStrings.dfy` models the JavaScript built-ins the code relies on:
- `trim`, with the ECMAScript whitespace and line-terminator characters;
- `split` on one character, with its `join` round trip;
- `split(...)[1]`, `split(...).pop()` and `split(...)[0]`;
- the decimal rendering of `${idx + 1}`.

Three points of the code's behaviour shape the model:

- The URL form handler checks only that the trimmed field is non-empty
  (App.tsx:23); it has no status check. The status check is the submit
  button's `disabled` condition (App.tsx:102), and that condition does not
  trim the field. `Submit` runs the handler exactly when the button is
  enabled, because a disabled default button blocks form submission.
- The image payload is `split(',')[1]` of the data URI
  (services/geminiService.ts:25), the second comma-separated piece. For a
  data URI with one comma this is everything after the comma
  (`ImagePayloadOfDataUri`). With more commas it stops at the second one
  (`JsStrings.SecondFieldStopsAtNextSeparator`). Without a comma it is
  `undefined` (`None`).
- No code turns absent lists into empty ones. The cast of the parsed reply
  is unchecked (services/geminiService.ts:52 and :90), and the card guards every
  access instead. An empty reply gives `EmptyRecord`, which does not conform
  to the declared type (`Types.EmptyRecordDoesNotConform`). It still
  renders, with the low confidence tier.

## Model

| member | source | states |
|---|---|---|
| Types.FromDeclared | types.ts:2-12 | a declared result, read as a parsed object, has every key of the declared shape, with the lists and the score carried over |
| Types.ToDeclared | types.ts:2-12 | a parsed object of the declared shape reads back as a declared value and loses nothing (round trip) |
| Types.DeclaredRoundTrip | types.ts:2-12 | declared value to parsed object and back is the identity |
| Types.EmptyRecordDoesNotConform | services/geminiService.ts:52 | the object cast from `{}` lacks the lists and the score, so it is the image of no declared value |
| Types.StatusValuesDistinct | types.ts:14-20 | the five statuses carry five different enum strings |
| JsStrings.TrimStart | App.tsx:23 | the result is a suffix of the input; everything cut is whitespace; it does not start with whitespace |
| JsStrings.TrimEnd | App.tsx:23 | the result is a prefix of the input; everything cut is whitespace; it does not end with whitespace |
| JsStrings.Trim | App.tsx:23 | the result is the slice of the input between its leading and its trailing whitespace, with only whitespace before and after it; it is empty exactly when the input is all whitespace, and otherwise starts and ends with non-whitespace |
| JsStrings.BeforeFirst | components/DataCard.tsx:99 | the result is the longest separator-free prefix: followed by the separator or by the end |
| JsStrings.Split | services/geminiService.ts:25 | there is at least one piece, and no piece holds the separator; there is exactly one piece iff the string has no separator |
| JsStrings.JoinSplit | services/geminiService.ts:25 | joining the pieces of a split gives back the string |
| JsStrings.SplitJoin | services/geminiService.ts:25 | splitting the join of separator-free pieces gives back the pieces |
| JsStrings.SecondField | services/geminiService.ts:25 | `split(sep)[1]` is defined iff the string has a separator, and it holds none |
| JsStrings.SecondFieldOfOneSeparator | services/geminiService.ts:25 | with one separator, the second piece is all the text after it |
| JsStrings.SecondFieldStopsAtNextSeparator | services/geminiService.ts:25 | with two or more separators, the second piece ends at the second separator |
| JsStrings.LastField | services/geminiService.ts:60 | `split(sep).pop()` is a separator-free suffix, preceded by the separator unless it is the whole string |
| JsStrings.LastFieldUnique | services/geminiService.ts:60 | exactly one suffix has those properties, so the last piece is well defined |
| JsStrings.DecimalString | components/DataCard.tsx:145 | the rendering of a number is a non-empty string of digits with no leading zero |
| JsStrings.DecimalRoundTrip | components/DataCard.tsx:145 | reading the digits back gives the number |
| JsStrings.DecimalStringInjective | components/DataCard.tsx:122 | different numbers render differently |
| JsStrings.NumberedLabelsDistinct | components/DataCard.tsx:122 | a fixed prefix followed by different numbers gives different labels |
| GeminiService.ImageRequestFor | services/geminiService.ts:18-50 | the image request declares `image/png` whatever the URI; its payload is present iff the URI has a comma, and holds no comma; it asks for JSON with the shared schema |
| GeminiService.ImagePayloadOfDataUri | services/geminiService.ts:23-26 | for a data URI `header,base64` the payload is exactly the base64 text |
| GeminiService.NameHint | services/geminiService.ts:60 | the name hint is the slash-free suffix after the last `/`, or the whole URL when it has no `/` |
| GeminiService.NameHintIsLastSegment | services/geminiService.ts:60 | a URL `prefix/segment` hints `segment` |
| GeminiService.NameHintOfTrailingSlash | services/geminiService.ts:60 | a URL that ends in `/` hints the empty name |
| GeminiService.UrlRequestFor | services/geminiService.ts:58-85 | the URL request carries the submitted URL unchanged and its name hint; search grounding is on; it uses the shared schema |
| GeminiService.BothPathsDeclareOneSchema | services/geminiService.ts:34-83 | both paths declare one schema; its properties are the nine fields of `ExtractedData`, in order; exactly `fullName` and `confidenceScore` are required |
| GeminiService.BodyText | services/geminiService.ts:87 | a missing or empty reply text reads as `{}`; any other text is kept |
| GeminiService.Decode | services/geminiService.ts:52 | a reply resolves iff the call succeeded and its body parsed, and then to the parsed object |
| GeminiService.ExtractFromImage | services/geminiService.ts:15-53 | the image path rejects iff the call fails or the body does not parse; otherwise it resolves to the parsed object untouched |
| GeminiService.DefaultLinkedinUrl | services/geminiService.ts:88 | a falsy `linkedinUrl` becomes the submitted URL and a truthy one is kept; no other field changes |
| GeminiService.DefaultLinkedinUrlIdempotent | services/geminiService.ts:88 | defaulting twice equals defaulting once |
| GeminiService.ExtractFromUrl | services/geminiService.ts:55-91 | the URL path resolves iff the parsed reply does, with `linkedinUrl` defaulted; for a non-empty URL the resolved result always has a truthy `linkedinUrl` |
| GeminiService.MissingTextIsEmptyObjectForImage | services/geminiService.ts:52 | on the image path, a reply without text or with empty text resolves to the object with every key missing |
| GeminiService.MissingTextIsEmptyObjectForUrl | services/geminiService.ts:87-90 | on the URL path, the same reply resolves to the empty object carrying only the submitted URL |
| GeminiService.ReportedProfileIsKept | services/geminiService.ts:88 | when the reply names a profile, the URL path returns the parsed object unchanged |
| DataCard.ConfidenceTier | components/DataCard.tsx:22-26 | high iff the score is at least 0.9; medium iff it is in [0.7, 0.9); low otherwise, including a missing or `null` score |
| DataCard.ConfidenceTierMonotone | components/DataCard.tsx:22-26 | a higher score never gets a lower tier |
| DataCard.ShowRow | components/DataCard.tsx:28-56 | a falsy value shows "Not found" and never the copy button or the badge; a truthy value shows itself, with the copy button iff the row is copyable and the badge iff it is primary |
| DataCard.PrimaryPhone | components/DataCard.tsx:58 | the primary phone exists iff the list is present and non-empty, and it is the first entry |
| DataCard.AlternativeRows | components/DataCard.tsx:141-155 | with two or more numbers, there is one copyable, non-primary row per number after the first, in order, labelled "Alternative Number k" from 1; otherwise there are none |
| DataCard.PhonesPartition | components/DataCard.tsx:58-150 | the primary phone followed by the alternatives is exactly the phone list, in order |
| DataCard.AlternativeLabelsDistinct | components/DataCard.tsx:142-145 | different alternatives have different labels |
| DataCard.EmailRows | components/DataCard.tsx:118-131 | there is one copyable row per email, in order, and only the first is primary; rows are labelled "Email Address k" when there are several and "Email Address" for exactly one; a missing or empty list gives one empty, non-copyable row |
| DataCard.EmailLabelsDistinct | components/DataCard.tsx:119-122 | different email rows have different labels |
| DataCard.FirstName | components/DataCard.tsx:99 | the label name is the first space-separated word of the full name; it is "Person" when the name is missing, `null`, empty or starts with a space |
| DataCard.IdentityRows | components/DataCard.tsx:96-108 | the identity section has five rows in order: "Full Name" with the name, the direct number (the primary phone under the first-name label), "Current Role" with the job title, "Organization" with the company and "Geography" with the location; the direct number is the only primary row; only the first two are copyable |
| DataCard.Render | components/DataCard.tsx:60-171 | the identity, email and alternative sections show the rows of `IdentityRows`, `EmailRows` and `AlternativeRows`; the profile link shows iff `linkedinUrl` is truthy; the summary shows iff `summary` is truthy; the "no secondary numbers" note shows iff the record does not hold two or more phone numbers, which is exactly when there are no alternatives |
| DataCard.EmptyListsShowNoPrimary | components/DataCard.tsx:58-155 | with empty or missing lists, the direct number and the single email row read "Not found"; no badge shows, and the no-secondary note shows |
| DataCard.EmptyRecordRendersPlaceholders | components/DataCard.tsx:97-107 | the empty object renders "Not found" in every identity row, the low tier, and no link or summary |
| App.FailureMessagesDistinct | App.tsx:34-58 | the URL-path and image-path failure messages differ |
| App.ResetState | App.tsx:15-19 | clears `data`, `error` and `previewUrl`, and nothing else |
| App.HandleUrlSubmit | App.tsx:21-37 | a field that is empty or all whitespace changes nothing; otherwise the result, error and preview are cleared, the status becomes ANALYZING, and the raw field is sent |
| App.SubmitEnabled | App.tsx:100-102 | the submit button is enabled iff the status is not ANALYZING and the raw, untrimmed field is non-empty |
| App.Submit | App.tsx:83-102 | submitting while ANALYZING, or with an empty raw field, changes nothing; submitting with the button enabled runs the form handler |
| App.BlankButEnabledSubmitIsInert | App.tsx:102 | a non-empty field made only of whitespace (spaces, tabs, no-break spaces, line breaks) enables the button, yet submitting it changes nothing: the button checks the raw field, the handler (App.tsx:23) the trimmed one |
| App.HandleFileUpload | App.tsx:39-45 | choosing no file changes nothing; choosing one clears the result, error and preview, and the status becomes UPLOADING |
| App.OnFileDecoded | App.tsx:47-53 | the decoded text becomes the preview, the status becomes ANALYZING, and data and error are untouched |
| App.OnSettled | App.tsx:28-59 | success stores the result with status SUCCESS; failure stores the failing path's message with status ERROR; the preview is kept either way |
| App.OnRemovePreview | App.tsx:160 | clears the preview only; the status, data and error are unchanged |
| App.RemovePreviewIdempotent | App.tsx:160 | removing twice equals removing once; removing an absent preview is a no-op |
| App.Step | App.tsx:83-122 | editing the field changes only the field (App.tsx:95); submitting is `Submit`; a settlement with no extraction in flight, or a reader completion with no read pending, changes nothing |
| App.InitialInv | App.tsx:8-11 | the session starts IDLE and consistent |
| App.StepPreservesInv | App.tsx:15-63 | every event keeps the session invariant |
| App.RunPreservesInv | App.tsx:15-63 | every run of events keeps the session invariant |
| App.ReachableSessionsAreConsistent | App.tsx:15-63 | in every run of the model from the initial session, where a superseded request never settles, SUCCESS has a result and no error, and ERROR has an error and no result |
| App.UrlExtractionSettles | App.tsx:21-37 | from any session, an enabled, non-blank submit goes to ANALYZING, then to SUCCESS with the result or to ERROR with the URL message, with no preview |
| App.ImageExtractionKeepsPreview | App.tsx:39-63 | a chosen file goes UPLOADING, then ANALYZING, then SUCCESS or ERROR with the image message; the decoded preview survives |
| App.SuccessfulUrlResultLinksToProfile | App.tsx:29-31 | a URL extraction that ends in SUCCESS leaves a result with a truthy `linkedinUrl` |

## Left out

- The generative backend call is the `backend` parameter. This covers client
  construction, the API key, the model name, the system instruction and the
  prompt wording. The URL request keeps only the URL and the name hint it
  embeds.
- `JSON.parse` is the `parse` parameter. A parsed value whose keys have the
  wrong JSON type is not modelled, nor is a non-object value such as `null`.
  For `null`, the URL path's `data.linkedinUrl` would throw.
- `FileReader` decoding is asynchronous browser input. A file is opaque, and
  its decoded text arrives as the `FileDecoded` event.
- Overlapping requests are not modelled: the model keeps one request at a
  time. The file path has no in-flight guard (App.tsx:122), so a second
  request can start while one is pending. In the source, the earlier request
  would still apply its updates when it settles. In the model, starting a
  request replaces `job`, and a settlement with no matching job changes
  nothing.
- App.ReachableSessionsAreConsistent: holds of the model's runs only. In the
  source, this run ends in SUCCESS with the URL error banner still shown:
  submit a URL; choose a file, which resets the session (App.tsx:43-44); the
  URL request rejects (App.tsx:34-35); the reader loads (App.tsx:49-52); the
  image request resolves (App.tsx:54-55). The model drops the superseded
  URL settlement instead.
- The browser's handling of the `type="url"` input is not modelled: value
  sanitisation and constraint validation before submit. The model takes the
  field's value as given.
- `Math.round(confidenceScore * 100)`, the percentage text, is floating-point
  rounding. Scores are exact reals, and the thresholds 0.9 and 0.7 are exact
  decimals.
- JsStrings.DecimalString: gives plain digits for every number. JavaScript
  switches to exponent notation from 10^21, which no list index reaches.
- Strings are sequences of Unicode scalar values, not UTF-16 code units.
- Also out: clipboard writes, console logging, the spinner condition, JSX
  layout, CSS classes, icons and the footer.
