# Cyber-crime complaint portal: browser-side rules, modelled in Dafny

The portal's browser code (`frontend/js/main.js`, `frontend/js/api_client.js`) is mostly DOM
wiring. This project models the parts of it that follow exact rules and proves what they promise:

- **Validators and classifiers** (`validation.dfy`, `upload.dfy`):
  - the password-strength score and its weak/medium/strong bands;
  - the e-mail and phone patterns;
  - the required-field test (`trim`) and whole-form validation with its inline errors;
  - the description counter's colour bands;
  - the 10 MiB upload filter and the MIME-type icon.
- **Page helpers** (`page.dfy`): `showToast`, `showLoader` and `hideLoader`. Page state is
  reduced to a log of notifications and loader actions plus the number of loader overlays
  in the document.
- **The REST client** (`api_client.dfy`): the `APIClient` class.
  - Its session token is mirrored into local storage, which is modelled as a string map the
    client owns.
  - `request` builds the URL, the headers and the body, runs the loader through
    try/catch/finally and normalises errors.
  - Also modelled: `login`, `logout`, `uploadEvidence`, the named passthroughs (grouped as a
    `Call` value and one `Invoke` method), the path builders and `getStatusClass`.
  - `fetch` and `response.json()` are an input to each call. A `FetchOutcome` is a rejection
    with its message, or a reply with its `ok` flag and a parsed or unparsable body.
- **Strings** (`text.dfy`, `wrappers.dfy`): the JavaScript string operations the rules use.
  - `\s` and `trim()` share one whitespace set.
  - `.length` counts UTF-16 code units, so a character outside the Basic Multilingual Plane
    counts twice.
  - `toLowerCase` is modelled for ASCII.

Four behaviours of the code that the model keeps:

- **Bearer header.** `request` attaches `Authorization` only when the token is truthy
  (`frontend/js/api_client.js:29`), so a stored empty token sends no header.
- **Upload header.** `uploadEvidence` always sends `Authorization`
  (`frontend/js/api_client.js:113-115`), which reads `Bearer null` without a token.
- **Ordering.** `request` parses the body before it looks at `ok`
  (`frontend/js/api_client.js:45-49`), so a failed reply with an unparsable body reports the
  parse error, not the fallback message.
- **`null` replies.** A reply whose JSON is `null` passes `request` when it is ok. When it is
  not ok, reading `result.message` throws a TypeError, and that error is the toast. An ok
  `null` reply to `login` throws at `data.token`, after the loader is gone: no toast, and the
  token is unchanged.

## Model

| member | source | states |
|---|---|---|
| `Text.Trim` | frontend/js/main.js:242 | `trim()`: leading and then trailing whitespace of the shared JavaScript whitespace set is removed |
| `Text.TrimEmptyIff` | frontend/js/main.js:242 | `value.trim()` is empty exactly when every character of the value is whitespace |
| `Text.ToLowerIdempotent` | frontend/js/api_client.js:352 | lower-casing an already lower-cased status changes nothing |
| `Text.Utf16Length` | frontend/js/main.js:304-305 | `.length` is between the number of characters and twice that number |
| `Page.Page.ShowToast` | frontend/js/main.js:323-342 | one notification with its message and type is added; the overlays are untouched |
| `Page.Page.ShowLoader` | frontend/js/main.js:418-423 | one overlay is added |
| `Page.Page.HideLoader` | frontend/js/main.js:425-428 | the first overlay is removed if there is one, otherwise the overlay count stays 0; the hide is logged either way |
| `Validation.StrengthOf` | frontend/js/main.js:296-320 | an empty password gives ('', 'Enter password'); otherwise the score picks the weak, medium or strong band |
| `Validation.Score` | frontend/js/main.js:297-311 | the score counts six conditions, so it never exceeds 6 |
| `Validation.CheckPasswordStrength` | frontend/js/main.js:296-320 | the step-by-step score and its classification give the result defined by the score bands |
| `Validation.StrengthCases` | frontend/js/main.js:299-319 | an empty password gives class '' and 'Enter password'; any other password gets exactly one of weak (score ≤ 2), medium (3..4) and strong (≥ 5) |
| `Validation.ScoreAppendMonotone` | frontend/js/main.js:304-311 | appending a character never lowers the score |
| `Validation.StrengthMonotone` | frontend/js/main.js:304-319 | appending a character to a non-empty password never lowers its level |
| `Validation.StrengthExamples` | frontend/js/main.js:296-320 | "abc" is weak, "Abc12345" is medium, "Abc123!@#xyz" is strong |
| `Validation.IsValidEmail` | frontend/js/main.js:271-273 | `/^[^\s@]+@[^\s@]+\.[^\s@]+$/`: the value splits at an '@' and a later '.' into three non-empty parts free of whitespace and '@' |
| `Validation.EmailMatchHasShape` | frontend/js/main.js:271-273 | every match of the e-mail pattern has the plain-words shape |
| `Validation.EmailShapeMatches` | frontend/js/main.js:271-273 | every string of the plain-words shape matches the e-mail pattern |
| `Validation.EmailPatternIff` | frontend/js/main.js:271-273 | the pattern holds iff there is no whitespace, exactly one '@' with something before it, and a '.' after it that is neither first nor last there |
| `Validation.EmailAccepts` | frontend/js/main.js:271-273 | "a@b.com" passes the e-mail pattern |
| `Validation.EmailRejects` | frontend/js/main.js:271-273 | "bad", "a@b.", "@b.com" and "a@b@c.com" fail the e-mail pattern |
| `Validation.IsValidPhone` | frontend/js/main.js:275-277 | `/^[0-9]{10}$/`: exactly 10 characters, each an ASCII digit |
| `Validation.PhoneExamples` | frontend/js/main.js:275-277 | "9876543210" passes; "12345" and a 10-character string with a space fail |
| `Validation.ValidateField` | frontend/js/main.js:239-248 | a field is accepted iff its trimmed value is not empty |
| `Validation.ValidateFieldIff` | frontend/js/main.js:239-248 | a field is accepted iff its value has a character that is not whitespace |
| `Validation.FindById` | frontend/js/main.js:214-230 | a field found by `querySelector('#id')` is one of the form's fields and carries that id |
| `Validation.FindByIdFirst` | frontend/js/main.js:214-230 | the field found is the first with that id, and none is found exactly when no field has it |
| `Validation.RequiredErrorsSound` | frontend/js/main.js:205-211 | every "required" error names a blank required field that was visited |
| `Validation.RequiredErrorsComplete` | frontend/js/main.js:205-211 | with no short-circuit, each blank required field gets its own "required" error and no other field does |
| `Validation.RequiredErrorsEmptyIff` | frontend/js/main.js:205-211 | no "required" error is placed iff no required field is blank |
| `Validation.FormErrors` | frontend/js/main.js:203-237 | the inline errors of the form in source order: one per blank required field, then the confirmation mismatch, then a bad non-empty e-mail, then a bad non-empty phone |
| `Validation.FormErrorsEmptyIff` | frontend/js/main.js:203-237 | no inline error is placed iff the required fields are filled, the confirmation (when both fields exist) equals the password, and a non-empty e-mail and phone are valid |
| `Validation.ValidateForm` | frontend/js/main.js:203-237 | gives exactly those inline errors in source order; the result is true iff there are none, iff the form meets the rule above |
| `Validation.CounterColorOf` | frontend/js/main.js:353-357 | gray iff count ≤ 900, warning iff 901..1000, danger iff count > 1000 |
| `Validation.CounterColorFor` | frontend/js/main.js:349-357 | more than 1000 characters is always danger; at most 900 code units is gray |
| `Upload.FileIcon` | frontend/js/main.js:141-147 | the first test that holds picks the icon: `image/`, exactly `application/pdf`, `video/`, `audio/`, else the generic icon |
| `Upload.FileIconIff` | frontend/js/main.js:141-147 | each icon goes to exactly one kind of type: the `image/`, `video/` and `audio/` prefixes, exactly `application/pdf`, or none of these |
| `Upload.Accepted` | frontend/js/main.js:111-138 | the chips of the files of at most 10 MiB, each with its icon, name and size, in input order |
| `Upload.Rejections` | frontend/js/main.js:111-138 | one "too large" error toast per file over 10 MiB, in input order |
| `Upload.AcceptedAppend` | frontend/js/main.js:111-138 | the chips and notifications for `a + b` are those for `a` followed by those for `b`, so input order is kept |
| `Upload.AcceptedSingle` | frontend/js/main.js:113-137 | one file gives one chip when it fits, or exactly one error notification and no chip |
| `Upload.AcceptedPartition` | frontend/js/main.js:111-138 | chips and reports together number the files; every chip is at most 10 MiB; every report is the "too large" error |
| `Upload.AcceptedAllFit` | frontend/js/main.js:111-138 | when all files fit, each becomes a chip in input order and nothing is reported |
| `Upload.SizeBoundary` | frontend/js/main.js:114 | 10485760 bytes is accepted; 10485761 bytes is rejected with one notification |
| `Upload.FileList.HandleFiles` | frontend/js/main.js:111-139 | the list grows by exactly the accepted chips; the page gets exactly the rejection notifications |
| `Upload.FileList.RemoveItem` | frontend/js/main.js:133-135 | the clicked chip is removed and the others keep their order |
| `ApiClient.Settle` | frontend/js/api_client.js:43-54 | a rejected fetch or unparsable body fails with its own error; a not-ok reply fails with its truthy message or the fallback, a not-ok `null` reply with the TypeError; an ok reply is the result |
| `ApiClient.SettleUnchecked` | frontend/js/api_client.js:109-124 | a rejected fetch or unparsable body fails with its own error; any parsed reply is the result, whatever its status |
| `ApiClient.SettleLogin` | frontend/js/api_client.js:61-67 | like `request`, except that an ok `null` reply fails with the TypeError of reading `data.token` |
| `ApiClient.SettleCases` | frontend/js/api_client.js:44-54 | a request succeeds iff the reply is ok and parsable, and then returns the reply unchanged (`null` included); a not-ok reply fails with its truthy message or 'Something went wrong', never an empty message; a not-ok `null` reply fails with the TypeError; a parse failure keeps its own error |
| `ApiClient.SettleUncheckedAgrees` | frontend/js/api_client.js:109-124 | the upload returns a parsable not-ok reply (`null` included) instead of raising it; otherwise it settles like `request` |
| `ApiClient.SettleLoginCases` | frontend/js/api_client.js:61-67 | `login` succeeds iff `request` returns a reply object, and then returns it; a failure of `request` is kept; an ok `null` reply fails with no toast |
| `ApiClient.BracketDiscipline` | frontend/js/api_client.js:42-57 | on every exit path the loader is shown once first and hidden once last; the overlay count returns to its old value; exactly the failures raise one toast |
| `ApiClient.RouteOf` | frontend/js/api_client.js:69-169 | each passthrough's endpoint, method and body as it passes them to `request` |
| `ApiClient.PathsInjective` | frontend/js/api_client.js:87-98 | each path builder maps distinct ids to distinct paths |
| `ApiClient.RouteShape` | frontend/js/api_client.js:69-169 | a passthrough is a GET iff it sends no body; every method is GET, POST or PUT; every endpoint starts with '/' |
| `ApiClient.ComplaintIdCollides` | frontend/js/api_client.js:83-89 | ids are not escaped: complaint id "my" gives the same request as the list of one's own complaints |
| `ApiClient.StatusClass` | frontend/js/api_client.js:351-359 | the badge class of the lower-cased status: 'in progress' and unknown statuses are warning, 'resolved' success, 'escalated' danger, 'assigned' info |
| `ApiClient.StatusClassIff` | frontend/js/api_client.js:351-359 | success iff 'resolved', danger iff 'escalated', info iff 'assigned', warning for anything else ('in progress' included), all compared lower-cased |
| `ApiClient.StatusClassIgnoresCase` | frontend/js/api_client.js:351-352 | lower-casing the status first does not change its badge class |
| `ApiClient.APIClient.constructor` | frontend/js/api_client.js:4-7 | the base URL is fixed; the token is the stored `token` entry or null; the token mirrors the store |
| `ApiClient.APIClient.SetToken` | frontend/js/api_client.js:10-13 | the token field and `store['token']` both become t; no other key changes |
| `ApiClient.APIClient.ClearToken` | frontend/js/api_client.js:16-19 | the token becomes null and the `token` key is removed; no other key changes |
| `ApiClient.APIClient.Request` | frontend/js/api_client.js:22-58 | one fetch goes to `baseURL + endpoint`. `Content-Type: application/json` is always set. `Authorization: Bearer <token>` is set iff the token is truthy. There is a JSON body iff data is given. When the token mirrors the store, a stored truthy token is what the header carries. The result is the settled reply. Page events are exactly the loader bracket, with the failure toast inside it |
| `ApiClient.APIClient.Login` | frontend/js/api_client.js:61-67 | posts the credentials and settles by `SettleLogin`; the page sees only `request`'s bracket; the token and the store change iff the reply is an object with a truthy token, and then hold that token |
| `ApiClient.APIClient.Logout` | frontend/js/api_client.js:73-76 | clears the token and its store entry, sends no request and reports success |
| `ApiClient.APIClient.Invoke` | frontend/js/api_client.js:69-169 | each passthrough issues exactly the request its route names, with `request`'s guarantees, the stored token's header included |
| `ApiClient.APIClient.UploadEvidence` | frontend/js/api_client.js:101-125 | one multipart POST to the evidence path carries every file. Its only header is `Authorization: Bearer <token>` (`Bearer null` without a token): no Content-Type. The reply's status is not checked. It uses the same loader bracket |
| `ApiClient.LoginThenFetch` | frontend/js/api_client.js:61-67 | after a login whose reply carries token "t1", the stored token is "t1" and the next request carries `Authorization: Bearer t1` |

## Left out

- DOM work and event wiring are not modelled: the menu and sidebar toggles, password visibility, tooltips, smooth scrolling, notifications, logout confirmation, toast markup and timers, and the exact placement and removal of `.field-error` elements. Inline errors are modelled as a list of (field index, message).
- The submit handlers' timers, redirects and button states are not modelled. Neither are the login, register and complaint form handlers, `window.trackCase` or `loadDashboardData`. These are timers and presentation around the modelled calls.
- The 1-second debounce of description analysis and `showAIPreview` are not modelled: one is event-loop timing, the other uses `Math.random`.
- `formatFileSize` uses floating-point logarithms and `toFixed`, so the chip keeps the size in bytes instead.
- `updateStats`, `updateRecentComplaints` and `updateInsights` only build HTML, so they are not modelled.
- `JSON.stringify`, `FormData` and the JSON payload are opaque values. A reply exposes only `message` and `token`, and the messages of native errors are inputs.
- A JSON reply is an object, `null`, or unparsable. A reply that is a number, a string or an array reads like an object with neither `message` nor `token`, which is how a `Payload` with neither models it.
- `SettleLogin`: the TypeError of reading `data.token` on a `null` reply is given the message the reply carries for reading a property of `null`; engines word the two messages differently, and the model does not tell them apart.
- `StatusClass`: `toLowerCase` is modelled for ASCII letters only. The result is still the source's: no other character lowercases to a letter of the four keywords on its own.
- Local storage is a map owned by the client. Other tabs, quota errors and storage that is not string-valued are not modelled.
- Requests are modelled one at a time. Overlapping in-flight requests, which share overlays in the page, are not modelled.
- The passthroughs whose argument is an object at every call site (`register`, `fileComplaint`, `updateProfile`) take a record, never `null`. The month and year of the monthly report are strings.
- A status that is not a string makes `getStatusClass` throw. That case is not modelled.
