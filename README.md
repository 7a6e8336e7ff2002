# DraftVerify front end, modelled in Dafny

DraftVerify is a browser page that reads a tag identifier from the `tag` query
parameter or a text box and asks a backend whether the tag is genuine. The page
shows the answer as a status pill and a result card. A service worker keeps the
app shell available offline.

This project models two parts of it:

- **The tag-verification logic of `app.js`**, separated from the DOM:
  - `getTagFromUrl`'s normalisation of the query parameter.
  - `verifyTag`'s guard and outcome classification.
  - `renderResult`'s choice between a structured card and raw text.
  - The alias and default rules for each displayed field.
  - The status-to-pill mapping.
  - The updates that `setStatus`, `setLoading`, `showError`, `clearError`,
    `renderEmptyState`, `renderResult` and `verifyTag` make to the page.
- **The cache-generation store of `service-worker.js`**: the `install`,
  `activate` and `fetch` handlers acting on cache storage, which maps each
  generation name to that generation's entries.

Files:

- `wrappers.dfy`: `Option`, standing for JavaScript `null`.
- `json.dfy`: the values `JSON.parse` yields (numbers limited to integers).
  Also JavaScript truthiness (`Truthy`), property reads (`Member`) and `String(x)`
  (`ToJsString`).
- `js_text.dfy`: `trim`, `toLowerCase` and `includes`. `trim` strips exactly
  the ECMAScript WhiteSpace and LineTerminator characters.
- `app_logic.dfy` (module `AppLogic`): the pure decisions of `app.js`.
- `app_page.dfy` (module `AppPage`): the page.
  - `PageState` is the page's visible state as a value, plus the tags it has
    requested.
  - A function on `PageState` specifies each helper.
  - The class `Page` holds the same state in fields. Each of its methods
    updates those fields in place and is proved to match its function.
  - `Elements` records which looked-up elements exist. As in the source, a
    helper whose element is missing does nothing.
- `service_worker.dfy` (module `ServiceWorker`): the storage.
  - The functions `Installed`, `Activated` and `Stored` describe the handlers
    for any current generation name.
  - The class `CacheStorage` runs them on its `caches` map for `CACHE_NAME`.
    `activate` deletes stale generations one at a time in a loop.

What crosses the boundary:

- The backend's answer to `verifyTag` is a `FetchResult` parameter: a transport
  error, or an HTTP status with its body text.
- `JSON.parse` is a parameter `parse: string -> Option<Json>`. `None` means the
  body is not JSON, which leaves `parsed` at `null` as in the source.
- The network outcome of the worker's `fetch` is an `Option<Response>`
  parameter.
- The shell files' responses at install come from a `fetchShell` function
  parameter.

Two points of the code that the model keeps exactly:

- A displayed field takes the first *truthy* alias, so `0`, `false` and `""`
  fall through to the next alias or the default.
- `renderResult` runs inside `verifyTag`'s `try`. Converting a value to a
  string throws when the value is a parsed object with its own `"toString"`
  key, or an array holding one. Such a status or displayed value makes the
  card impossible to draw, and the page ends in the `catch`'s "Error" pill and
  retry message. `Printable` says which values convert, and `Rendered`
  reports the exception as a flag that `Settled` hands to the `catch`.

## Model

| member | source | states |
|---|---|---|
| `AppLogic.TagFromQuery` | app.js:7-11 | no tag when the parameter is missing, empty or all whitespace; otherwise the trimmed parameter, which is non-empty and its own trim |
| `JsText.Trim` | app.js:10 | the result is the slice of the input left once the whitespace at both ends is removed; it is empty exactly when the input is all whitespace, else it starts and ends with non-whitespace |
| `JsText.TrimIdempotent` | app.js:10 | trimming the trimmed tag changes nothing |
| `JsText.TrimFixesTrimmed` | app.js:10 | a string with no whitespace at either end is its own trim |
| `Json.Truthy` | app.js:74-84 | JavaScript truthiness of a JSON value: `null`, `false`, `0` and `""` are falsy, every other value (including every array and object) is truthy |
| `Json.Member` | app.js:75-84 | a property read gives the object's value for a present key, and something falsy for a missing key or a non-object |
| `AppLogic.OrChain` | app.js:78-84 | an `a \|\| b \|\| …` chain yields one of its operands, and that operand is truthy exactly when some operand is truthy |
| `AppLogic.OrChainPicks` | app.js:78-84 | the chain yields the first truthy operand, or the last operand when all before it are falsy |
| `AppLogic.IsStructured` | app.js:74-77 | the card condition as written: `parsed` is truthy and one of `tagId`, `tag`, `brewery`, `product` reads as truthy; `StructuredIff` characterises it |
| `AppLogic.StructuredIff` | app.js:74-77 | the card is chosen exactly for an object with a truthy `tagId`, `tag`, `brewery` or `product`; `null`, numbers, strings, arrays and objects with only other keys give raw text |
| `AppLogic.ParsedOrNull` | app.js:153-160 | a body that is not JSON leaves `parsed` null, which is never structured |
| `AppLogic.Alias` | app.js:78-84 | a displayed field is its first alias if truthy, else its second alias if truthy, else the default |
| `AppLogic.CardOf` | app.js:78-84 | the card of a structured response: each of the seven values is its `\|\|` chain of two aliases and a default (`Alias`); its properties are the lemmas below |
| `AppLogic.CardPopulated` | app.js:78-84 | every field of the card is truthy (none is null, `""`, `0` or `false`); an array-valued field can still print as the empty string (`BlankArrays`) |
| `AppLogic.CardPrintable` | app.js:87-119 | the card can be written exactly when its status and all six displayed values convert to strings without throwing |
| `AppLogic.CardPrefersPrimaryAliases` | app.js:78-84 | when every primary key is truthy the card shows exactly those values, whatever the secondary aliases hold |
| `AppLogic.RegistryRowMembers` | app.js:74-84 | reading a property of a row with status, tagId, brewery and product gives that value, and `null` for every other key the page reads |
| `AppLogic.RegistryRowIsStructured` | app.js:74-77 | such a row is shown as a card |
| `AppLogic.RegistryRowCard` | app.js:78-84 | its card keeps the row's status, tagId, brewery and product, with type "Tag" and dashes for line and location |
| `AppLogic.Classify` | app.js:86-93 | the status mapping as written: `includes("fail")` tested first, then `includes("not")`, else Verified, on the lowercased `String(status)`; defined only for a printable status, because `String` throws on the others; `ClassifyByOccurrence` characterises it |
| `AppLogic.StatusText` | app.js:87 | `String(status).toLowerCase()` for a status that converts: the lowercased text the mapping searches |
| `AppLogic.ClassifyByOccurrence` | app.js:86-93 | on the lowercased `String(status)`, an occurrence of "fail" gives Flagged/bad; otherwise an occurrence of "not" gives Not found/bad; otherwise Verified/ok |
| `AppLogic.FailTakesPrecedence` | app.js:87-90 | a string status mentioning both "fail" and "not" (such as "not failed") is Flagged, because "fail" is tested first |
| `AppLogic.ClassifyIgnoresCase` | app.js:87-89 | a string status and its lowercase form map to the same pill |
| `AppLogic.NoFlagLettersIsVerified` | app.js:86-93 | a status whose lowercased text has no "a" and no "o" is Verified |
| `AppLogic.LowercaseStatusText` | app.js:87 | a string status without capitals is its own lowercased text |
| `AppLogic.ObjectStatusIsUnprintable` | app.js:74-87 | a row with a truthy `tagId` and a status object with its own "toString" key is structured, yet `String(status)` cannot convert its status, so its card cannot be written |
| `AppLogic.DefaultStatusIsVerified` | app.js:84-93 | the default status "verified" maps to Verified |
| `AppLogic.AbsentStatusIsVerified` | app.js:84-93 | with no truthy `status` or `state`, the card reports "verified" and the pill is Verified |
| `AppLogic.NumericStatusIsVerified` | app.js:87-93 | a numeric status is never Flagged or Not found |
| `AppLogic.OkStatusIsVerified` | app.js:87-93 | the status "ok" maps to Verified |
| `JsText.Lower` | app.js:87-89 | lowering keeps the length and lowers each ASCII capital in place |
| `JsText.LowerIdempotent` | app.js:87-89 | lowering a lowered text changes nothing |
| `JsText.LowerKeepsLowercase` | app.js:87-89 | a text without ASCII capitals is its own lowercase form |
| `JsText.LowerChar` | app.js:87-89 | a capital becomes the lowercase letter at the same position in the alphabet, every other character is unchanged, and no capital remains |
| `JsText.Contains` | app.js:87-89 | `s.includes(sub)`: `sub` is a prefix of `s` or of one of its suffixes; `ContainsIff` characterises it |
| `JsText.ContainsIff` | app.js:87-89 | `includes` holds exactly when the substring occurs at some index |
| `Json.Printable` | app.js:87-119 | whether `String(v)` returns: false for an object with its own "toString" key (its `valueOf` returns the object itself, so the conversion throws) and for an array with such an element, which `join` reaches; true for everything else |
| `Json.ToJsString` | app.js:87-119 | `String(v)` for a printable value: a string is itself, an integer is its decimal text (`IntegerText`), `null`, `true` and `false` are their names, an array is `Join` of its elements, and an object is "[object Object]" |
| `Json.Join` | app.js:87-119 | `join(",")` of printable elements: each element's `ToJsString` separated by commas, with a `null` element written as the empty string |
| `Json.IntegerText` | app.js:87-119 | the text of an integer has a minus sign exactly when it is negative, and the digits after it denote its magnitude |
| `Json.BlankArrays` | app.js:96-119 | `[]`, `[null]` and `[""]` are truthy and printable, yet print as the empty string |
| `Json.Digits` | app.js:87 | the decimal text of a natural number consists of digits that denote exactly that number, with no leading zero |
| `AppPage.OkStatus` | app.js:149 | `res.ok`: the status is in 200-299 |
| `AppPage.PillFor` | app.js:25-27 | "ok" gives `pill-ok`, "bad" gives `pill-bad`, every other variant gives `pill-muted` |
| `AppPage.WithStatus` | app.js:18-28 | the pill shows the text and carries exactly one of the three variant classes; its other classes and the rest of the page are unchanged; nothing changes without a pill |
| `AppPage.Page.SetStatus` | app.js:18-28 | updates the page fields in place as `WithStatus` prescribes |
| `AppPage.WithLoading` | app.js:30-42 | with both elements present, the indicator is hidden and the button enabled exactly when not loading; nothing else changes |
| `AppPage.Page.SetLoading` | app.js:30-42 | updates the page fields in place as `WithLoading` prescribes |
| `AppPage.WithError` | app.js:44-49 | the error box shows the message and is visible; nothing else changes |
| `AppPage.Page.ShowError` | app.js:44-49 | updates the page fields in place as `WithError` prescribes |
| `AppPage.WithoutError` | app.js:51-56 | the error box is empty and hidden; nothing else changes |
| `AppPage.Page.ClearError` | app.js:51-56 | updates the page fields in place as `WithoutError` prescribes |
| `AppPage.WithEmptyState` | app.js:58-64 | the container shows the waiting prompt; nothing else changes |
| `AppPage.Page.RenderEmptyState` | app.js:58-64 | updates the container in place as `WithEmptyState` prescribes |
| `AppPage.RenderedShows` | app.js:67-129 | nothing happens without a container; otherwise the error box is cleared; a structured response whose values all convert to strings becomes its card with the mapped pill; one whose status does not convert throws before the pill changes, and one whose other values do not convert throws after the pill is set, both leaving the container as it was; anything else shows the raw text under a muted "Result" pill |
| `AppPage.Rendered` | app.js:67-129 | `renderResult` on the page state, returning the new state and whether an exception escaped: no container returns at once; otherwise the error box is cleared, then raw text, a card, or a throw at `String(status)` or at the card markup; `RenderedShows` lists its effects |
| `AppPage.Page.RenderResult` | app.js:67-129 | updates the page fields in place as `Rendered` prescribes (the function whose effects `RenderedShows` lists) and reports whether it threw |
| `AppPage.Started` | app.js:138-143 | the steps before the request: error cleared, "Checking…" on a muted pill, loading shown, the trimmed tag requested |
| `AppPage.Caught` | app.js:163-166 | the `catch`: "Error" on a bad pill and the retry message; `CaughtOverridesStatus` and `CaughtOverridesClear` state that it erases an earlier pill or cleared box |
| `AppPage.Settled` | app.js:142-166 | the `try`/`catch`: a 2xx answer is rendered and a render that throws goes to the `catch`; a transport error or another status goes to the `catch` |
| `AppPage.AfterVerify` | app.js:132-170 | `verifyTag` on the page state: empty or whitespace input shows the prompt and stops; otherwise `Started`, `Settled` and loading off in `finally`; `EmptyInputSendsNothing`, `NonEmptyInputSendsOnceAndSettles`, `FailureShowsRetry`, `SuccessRenders`, `UnprintableCardShowsRetry` and `MissingContainerLeavesChecking` characterise it |
| `AppPage.Page.VerifyTag` | app.js:132-170 | updates the page fields in place as `AfterVerify` prescribes: guard, clear, "Checking…", loading, request, render or error, loading off |
| `AppPage.EmptyInputSendsNothing` | app.js:133-136 | empty or whitespace input shows "Please enter a Tag ID.", sends no request, and leaves pill, loading state and result untouched |
| `AppPage.NonEmptyInputSendsOnceAndSettles` | app.js:138-169 | any other input is requested once, trimmed, and afterwards the loading indicator is hidden and the button enabled, whatever the outcome |
| `AppPage.FailureShowsRetry` | app.js:149-166 | a transport error or non-2xx status gives an "Error" bad pill and the retry message, and no result is rendered |
| `AppPage.SuccessRenders` | app.js:153-162 | a 2xx answer that is not JSON, or JSON without a truthy registry key, shows the raw text under a muted "Result" pill; a structured one whose values all convert shows its card under the mapped pill; both clear the error box |
| `AppPage.CaughtOverridesStatus` | app.js:163-166 | the `catch` sets the pill again, so a pill set just before the exception leaves no trace |
| `AppPage.CaughtOverridesClear` | app.js:163-166 | the `catch` shows the retry message, so the error box cleared just before the exception leaves no trace |
| `AppPage.UnprintableCardShowsRetry` | app.js:142-166 | a 2xx structured answer whose card cannot be written leaves the page exactly as a failed request does |
| `AppPage.MissingContainerLeavesChecking` | app.js:67-70 | without a result container a 2xx answer renders nothing and the pill keeps saying "Checking…" |
| `ServiceWorker.Installed` | service-worker.js:15-19 | the current generation holds every shell file's fetched response and keeps its other entries; no other generation changes |
| `ServiceWorker.CacheStorage.Install` | service-worker.js:6-19 | storage becomes `Installed` for `CACHE_NAME` = "draftverify-v2" and the four shell files |
| `ServiceWorker.Activated` | service-worker.js:21-31 | no generation other than the current one remains, and the current one's entries are unchanged |
| `ServiceWorker.CacheStorage.Activate` | service-worker.js:21-31 | deleting the stale generations one by one leaves exactly `Activated` for `CACHE_NAME` |
| `ServiceWorker.ActivateIdempotent` | service-worker.js:23-29 | activating twice leaves the same storage as activating once |
| `ServiceWorker.InstallThenActivate` | service-worker.js:15-31 | install then activate leaves exactly one generation, holding at least the shell files |
| `ServiceWorker.UpgradeEvictsPreviousGeneration` | service-worker.js:3-31 | after a version with a new generation name installs and activates, the previous generation is gone |
| `ServiceWorker.ShellAvailableOffline` | service-worker.js:15-41 | after install and activate every shell file can be answered from cache |
| `ServiceWorker.Stored` | service-worker.js:35-40 | the request now maps to the response in the current generation, overwriting any earlier entry; every other entry and generation is kept |
| `ServiceWorker.StoreIdempotent` | service-worker.js:38 | writing the same response twice leaves the same storage as writing it once |
| `ServiceWorker.StoredSurvivesActivate` | service-worker.js:21-40 | a written-through response stays in the current generation after activation |
| `ServiceWorker.CacheStorage.Match` | service-worker.js:41 | returns a response that some generation holds for exactly this request, and none only when no generation holds one |
| `ServiceWorker.CacheStorage.Fetch` | service-worker.js:33-43 | a network response is returned unchanged and written through to `CACHE_NAME`; on network failure storage is unchanged and the answer is any cached copy of the request, else none |

## Left out

- DOM lookup by id and the event wiring: the click and Enter handlers and the `DOMContentLoaded` initialisation (app.js:13-15, 173-219). Only which elements exist and the state changes they cause are modelled.
- The HTML that `renderEmptyState` and `renderResult` write, and the container's class name. The model records which view is shown and the values it displays. The raw text and field values are interpolated into markup unescaped; that is a presentation concern outside the model.
- `fetch`, `res.text()`, `JSON.parse`, `encodeURIComponent`, `URLSearchParams`/`window.location` and `console.error` are foreign calls. `fetch`, `res.text()` and `JSON.parse` appear as parameters (`FetchResult` and `parse`), and `URLSearchParams.get` as the parameter of `TagFromQuery`; `encodeURIComponent` and `console.error` are not modelled: the request is recorded as the trimmed tag rather than as the encoded URL. A rejection while reading the body reaches the same `catch` as a transport error and is represented by `TransportError`.
- JSON numbers with a fraction or exponent are not modelled; numbers are integers.
- Strings are sequences of Unicode scalar values. JavaScript strings holding a lone UTF-16 surrogate cannot be written, so the URIError that `encodeURIComponent` throws on such input inside `verifyTag`'s `try`, which ends in the "Error" pill and the retry message without a request, is not modelled.
- Json.Digits: writes every integer in plain decimal. JavaScript numbers are doubles, so an integer above 2^53 is rounded before it is printed, and one of 1e21 or more prints in exponent form (`"1e+21"`). Neither text contains "fail" or "not", so the status mapping is unaffected.
- AppPage.Page.VerifyTag: runs each call as one atomic step. The source awaits the fetch and the body, and the Enter key calls `verifyTag` even while the button is disabled. Two calls can therefore overlap: the first call's `finally` re-enables the button while the second request is pending, and whichever response settles last sets the pill and the result. Interleaved calls are not modelled.
- AppPage.Page.RenderResult: an exception is modelled as a returned flag that `VerifyTag` handles as its `catch` does; exceptions other than the string conversions of the card values are not modelled.
- JsText.Lower: lowers ASCII letters only; the full Unicode case mapping of `toLowerCase` is not modelled.
- ServiceWorker.CacheStorage.Fetch: on a network failure answers with what `Match` returns, so it has the same gap as the next line.
- ServiceWorker.CacheStorage.Match: says a response comes from some generation holding the request. The browser's choice of the oldest such cache is not modelled, because storage is a map without creation order.
- Requests in the worker are URL strings compared exactly. Relative URL resolution and the matching options of the Cache API (method, `Vary`) are not modelled.
- The worker's event and promise machinery (`waitUntil`, `respondWith`) is not modelled. Each handler is one atomic step.
- `cache.put` is not awaited, so the write races with later requests. The model applies it before the response is returned. `response.clone()` is the identity.
- The rejections of `cache.put` (non-GET requests, partial responses, non-HTTP schemes) are not modelled: the write-through always lands.
- The failure behaviour of `addAll`, and the empty generation `caches.open` leaves behind when `addAll` fails, are not modelled. The browser handles those; the worker code does not.
