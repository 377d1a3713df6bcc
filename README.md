# pb-chat-widget, modelled in Dafny

An embeddable chat widget: a floating bubble opens a small window. The user
types a message, the widget POSTs `{ chatInput, sessionId }` to a webhook,
and the reply, taken out of whatever JSON shape the server returns, is shown
as a bot message. The repository holds two variants of the same runtime:

- `pb-chat-widget.js`, a script-tag variant configured by the `data-*`
  attributes of its own `<script>` element;
- `src/widget.ts`, a variant configured by a global
  `window.PB_CHAT_WIDGET_CONFIG` object, rendered inside a shadow root, that
  locks the host page's scroll while open.

The model keeps the logic of both and drops the DOM, CSS and network.

| module | file | models |
|---|---|---|
| `Wrappers` | wrappers.dfy | `Option` |
| `Json` | json.dfy | the decoded reply as a JSON value; JavaScript truthiness, `||` and `&&` on it |
| `Normalize` | normalize.dfy | `pickText` / `pickAnswer`, with a flat reference definition it is proved equal to |
| `Escape` | escape.dfy | `escapeHtml` as five `replaceAll` passes, its per-character form, and an unescaper for the round trip |
| `JsString` | jsstring.dfy | `String.prototype.trim` over the ECMAScript white-space and line-terminator set |
| `Session` | session.dfy | `getSessionId` over `localStorage`, as a `Storage` class with a map field |
| `Chat` | chat.dfy | the message container as a sequence of rows and typing indicators, `addMsg` and `setTyping` on it |
| `ScriptConfig` | script_config.dfy | the script-tag variant's configuration (`||` defaults, abort, `posStyles`) |
| `GlobalConfig` | global_config.dfy | the global-config variant's configuration (`??` defaults, abort, host placement) |
| `ScriptWidget` | script_widget.dfy | the script-tag variant's state (open flag, send button, input, container) and its handlers |
| `ShadowWidget` | shadow_widget.dfy | the shadow-DOM variant's state (open flag, scroll lock, input, container) and its handlers |
| `ScriptScenarios`, `ShadowScenarios` | scenarios.dfy, shadow_scenarios.dfy | client methods that drive the handlers and check what a page sees |

The asynchronous `send` is split at its `await fetch`. `Send` is the
synchronous part: it returns the request it would issue, or None when the
input is blank. `Complete(c)` is what runs after the request ends, where `c`
is either `Replied(data)` or `Failed`. `data` is None when `res.json()`
failed; the code then uses `{}`. A ghost counter `inFlight` counts issued
requests that have not been answered yet. The page tracks no such thing; the
counter only lets the scenarios state that a second request can be issued
while the first is pending. Neither variant prevents this: the TypeScript
variant has no guard at all, and in the script-tag variant Enter bypasses
the disabled send button.

Where the code and its documentation disagree, the model follows the code.
`pickText` returns whatever truthy value it finds, not only non-empty
strings, so a reply `{"output": 42}` is shown as the number (`Normalize.NonStringAnswer`).
`unlockBodyScroll` clears the page's inline overflow styles. It does not
restore their earlier values. A truthy answer that is an object with its own
`toString` key (or an array holding one) makes `String(...)` throw while the
row is built; the `catch` then shows the connection error although the
request succeeded (`ScriptWidget.UnrenderableAnswerShownAsError`).

## Model

| member | source | states |
|---|---|---|
| `Normalize.PickText` | pb-chat-widget.js:251-263 | the result is "" or a truthy value, and a truthy result needs a truthy input |
| `Normalize.FirstTruthy` | pb-chat-widget.js:255-262 | the first truthy value of a list, or "": the result is "" or one of the list |
| `Normalize.FromFieldsIsFirstCandidate` | pb-chat-widget.js:255-262 | the `||` / `&&` chain equals the first truthy of `output`, `text`, `response`, `answer`, `data.output`, `data.text` |
| `Normalize.FirstTruthyCons` | pb-chat-widget.js:255-262 | the first truthy of a list is the head `||` the first truthy of the rest |
| `Normalize.PickTextIsReference` | src/widget.ts:41-53 | `pickAnswer` equals the reference: descend through first array elements, then a falsy value gives "", a string itself, an object its first truthy candidate |
| `Normalize.PickTextFirstElementOnly` | src/widget.ts:44 | an array's answer depends on its first element only |
| `Normalize.PickTextFromPayload` | pb-chat-widget.js:251-263 | the answer is "", the value the array rule stops at, or one of that value's candidate fields |
| `Normalize.OutputReply` | pb-chat-widget.js:247 | `{output:"hi there"}` gives "hi there" |
| `Normalize.FirstOfArrayReply` | pb-chat-widget.js:249 | `[{text:"first"},{text:"second"}]` gives "first" |
| `Normalize.NestedDataReply` | pb-chat-widget.js:260 | `{data:{text:"nested"}}` gives "nested" |
| `Normalize.EmptyReplies` | pb-chat-widget.js:252-262 | `{}`, `[]`, null and an object with no known field give "" |
| `Normalize.OutputBeforeText` | pb-chat-widget.js:256-257 | `output` wins over `text` unless it is empty |
| `Normalize.NonStringAnswer` | src/widget.ts:46 | a truthy non-string field is returned as it is |
| `Escape.ReplaceAllAppend` | pb-chat-widget.js:20-24 | `replaceAll` distributes over concatenation |
| `Escape.ReplaceAllAbsent` | pb-chat-widget.js:20-24 | `replaceAll` of a character that does not occur changes nothing |
| `Escape.EscapeHtmlAppend` | pb-chat-widget.js:18-24 | `escapeHtml` distributes over concatenation |
| `Escape.ReplaceAllSingle` | pb-chat-widget.js:20-24 | `replaceAll` on one character replaces it exactly when it matches |
| `Escape.EscapeHtmlOneChar` | pb-chat-widget.js:18-24 | the five passes turn one character into its entity, or leave it, because `&` goes first and no later pass touches an earlier entity |
| `Escape.EntityStaysPut` | pb-chat-widget.js:21-24 | a later pass leaves an entity without its character untouched |
| `Escape.EscapeHtmlIsPerChar` | src/widget.ts:21-27 | the `replaceAll` chain equals escaping each character on its own |
| `Escape.EscapeHtmlNoMarkup` | pb-chat-widget.js:18-24 | the output contains no `<`, `>`, `"` or `'` |
| `Escape.EscapedNoMarkup` | src/widget.ts:21-27 | the same for the per-character form |
| `Escape.EscapeCharNoMarkup` | src/widget.ts:23-27 | no single-character escape contains `<`, `>`, `"` or `'` |
| `Escape.EscapeHtmlAmpersands` | pb-chat-widget.js:18-24 | every `&` in the output starts `&amp;`, `&lt;`, `&gt;`, `&quot;` or `&#039;` |
| `Escape.EscapedAmpersands` | src/widget.ts:21-27 | the same for the per-character form |
| `Escape.UnescapeEscapeHtml` | pb-chat-widget.js:18-24 | decoding the five entities gives back the input |
| `Escape.UnescapeEscaped` | src/widget.ts:21-27 | the same for the per-character form |
| `Escape.UnescapeChar` | src/widget.ts:21-27 | decoding undoes the escape of one character in front of any text |
| `Escape.EscapeHtmlPlainText` | pb-chat-widget.js:18-24 | text without the five characters is left unchanged |
| `JsString.TrimStart` | pb-chat-widget.js:224 | the result is a suffix, only white space was dropped, and it does not start with white space |
| `JsString.TrimEnd` | src/widget.ts:248 | the result is a prefix, only white space was dropped, and it does not end with white space |
| `JsString.TrimBlank` | pb-chat-widget.js:224-225 | the trimmed text is empty exactly when the input is all white space |
| `JsString.TrimIsCore` | src/widget.ts:248 | the trimmed text is a slice of the input with white space only outside it |
| `JsString.CoreOfSuffix` | pb-chat-widget.js:224 | a prefix of a suffix of the input is a slice of it, with only white space dropped after it |
| `JsString.TrimEndsNotSpace` | src/widget.ts:248 | the trimmed text neither starts nor ends with white space |
| `JsString.TrimKeepsTrimmed` | src/widget.ts:248 | text with non-space ends is its own trim |
| `Session.NewId` | pb-chat-widget.js:30-32 | the new id is never empty; a non-empty UUID is used when available |
| `Session.Storage.GetSessionId` | pb-chat-widget.js:26-36 | returns the stored id, or stores and returns the new one; afterwards the key holds the non-empty id returned |
| `Session.ResolveReadsThenWritesIfAbsent` | src/widget.ts:30-38 | a stored non-empty id is returned with storage unchanged; else the new id is returned and only the key `"pb_chat_session_id"` changes |
| `Session.ResolveTwice` | pb-chat-widget.js:26-36 | two consecutive calls return the same id and the second changes nothing |
| `Session.SeededStorage` | pb-chat-widget.js:28-29 | storage holding "abc" gives "abc", unchanged |
| `Chat.MessagesAppend` | pb-chat-widget.js:193 | the message log of a concatenation is the concatenation of the logs |
| `Chat.TypingCountAppend` | pb-chat-widget.js:204 | indicator counts add up over a concatenation |
| `Chat.AddRowAppends` | pb-chat-widget.js:189-195 | `addMsg` extends the log by exactly that message and leaves the indicator alone |
| `Chat.RemoveFirstTypingKeepsMessages` | src/widget.ts:220-221 | removing the indicator drops exactly one indicator and no message |
| `Chat.SetTypingOn` | pb-chat-widget.js:197-206 | `setTyping(true)` leaves exactly one indicator, also when repeated, and keeps the log |
| `Chat.SetTypingOff` | src/widget.ts:212-223 | `setTyping(false)` leaves no indicator, keeps the log, and is a no-op when there is none |
| `ScriptConfig.ReadConfigAborts` | pb-chat-widget.js:3-15 | the widget aborts exactly when there is no script, or its webhook URL is missing or empty |
| `ScriptConfig.ReadConfigNoEmptyField` | pb-chat-widget.js:5-9 | with `||` no resolved field is empty |
| `ScriptConfig.ReadConfigDefaults` | pb-chat-widget.js:5-8 | a non-empty attribute wins; a missing or empty one gives the default |
| `ScriptConfig.PosStylesSide` | pb-chat-widget.js:38-44 | bubble and window sit right exactly for "bottom-right", and left for anything else |
| `GlobalConfig.ReadConfigAborts` | src/widget.ts:70-77 | `mount` returns early exactly when the config or its webhook URL is missing, or the URL is empty |
| `GlobalConfig.ReadConfigDefaults` | src/widget.ts:79-83 | `??` fills only absent fields: a supplied value, even "", is kept |
| `GlobalConfig.HostAnchors` | src/widget.ts:91-92 | right is "16px" only for "bottom-right", left only for "bottom-left", never both; any other text gives "auto" on both sides |
| `GlobalConfig.EmptyTitleKeptOnlyHere` | src/widget.ts:79 | an empty title is kept here and replaced by the default in the script-tag variant |
| `GlobalConfig.PlacementAcrossVariants` | src/widget.ts:91-115 | the variants agree on the two named corners; on other text one pins left, the other leaves the host "auto" |
| `ScriptWidget.BotReply` | pb-chat-widget.js:265-270 | the bot message after a request is always truthy and always renders: the answer, the placeholder, or the connection error |
| `ScriptWidget.BotReplyOnReply` | pb-chat-widget.js:244-270 | a truthy answer that renders is shown, one whose `String(...)` throws gives the connection error, no answer gives the placeholder; a decode failure behaves like `{}`; a failed request gives the connection error |
| `ScriptWidget.UnrenderableAnswerShownAsError` | pb-chat-widget.js:265-270 | the reply `{"output":{"toString":1}}` is shown as the connection error |
| `ScriptWidget.HiThereShown` | pb-chat-widget.js:247-265 | the reply `{output:"hi there"}` is shown as "hi there" |
| `ScriptWidget.Widget.constructor` | pb-chat-widget.js:284 | after mounting the window is closed, the button enabled, the input empty, and the log holds only the greeting |
| `ScriptWidget.Widget.AddMsg` | pb-chat-widget.js:189-195 | appends exactly one row |
| `ScriptWidget.Widget.SetTyping` | pb-chat-widget.js:197-210 | the container after `setTyping`, at most one indicator kept |
| `ScriptWidget.Widget.Open` | pb-chat-widget.js:212-215 | the window is open |
| `ScriptWidget.Widget.Close` | pb-chat-widget.js:216 | the window is closed, whatever it was before |
| `ScriptWidget.Widget.Toggle` | pb-chat-widget.js:217-220 | the open flag flips |
| `ScriptWidget.Widget.EditInput` | pb-chat-widget.js:181 | the input holds the typed text |
| `ScriptWidget.Widget.Send` | pb-chat-widget.js:223-242 | blank input changes nothing; otherwise one user message with the trimmed text, input cleared, button disabled, one indicator, and a request to the webhook with that text and the stored session id |
| `ScriptWidget.Widget.ClickSend` | pb-chat-widget.js:278 | a disabled button or blank input changes nothing; otherwise the exact container, input, button, storage and request of `send` |
| `ScriptWidget.Widget.PressKey` | pb-chat-widget.js:279-281 | Enter runs `send` whatever the button's state, with its exact new state; Enter on blank input and any other key change nothing |
| `ScriptWidget.Widget.Complete` | pb-chat-widget.js:244-275 | the indicator is removed, exactly one bot message is appended, and the button is enabled again |
| `ScriptWidget.Boot` | pb-chat-widget.js:3-15 | nothing is created exactly when the configuration aborts; otherwise a closed widget, button enabled, no request pending, whose container holds only the greeting row |
| `ShadowWidget.BotReply` | src/widget.ts:265-271 | the bot message after a request is always truthy and always renders: the answer, "Ок", or "Ошибка соединения" |
| `ShadowWidget.BotReplyCases` | src/widget.ts:265-271 | a failure shows "Ошибка соединения"; a truthy answer that renders is shown, one whose `String(...)` throws gives "Ошибка соединения", no answer gives "Ок"; a decode failure behaves like `{}` |
| `ShadowWidget.NestedUnrenderableShownAsError` | src/widget.ts:265-271 | an answer array holding an object with its own `toString` key is shown as "Ошибка соединения" |
| `ShadowWidget.FirstOfArrayShown` | src/widget.ts:44 | the reply `[{text:"first"},{text:"second"}]` is shown as "first" |
| `ShadowWidget.Widget.constructor` | src/widget.ts:280 | after mounting the window is closed, the input empty, the page's overflow untouched, and the log holds only the configured greeting |
| `ShadowWidget.Widget.AddMsg` | src/widget.ts:204-210 | appends exactly one row |
| `ShadowWidget.Widget.SetTyping` | src/widget.ts:212-223 | the container after `setTyping`, at most one indicator kept |
| `ShadowWidget.Widget.LockBodyScroll` | src/widget.ts:57-60 | both overflow styles are "hidden", whatever they were, so locking is idempotent |
| `ShadowWidget.Widget.UnlockBodyScroll` | src/widget.ts:62-65 | both overflow styles are cleared, whatever they were |
| `ShadowWidget.Widget.Open` | src/widget.ts:225-229 | the window is open and the page cannot scroll |
| `ShadowWidget.Widget.CloseWin` | src/widget.ts:231-234 | the window is closed and the page's overflow styles are cleared |
| `ShadowWidget.Widget.ClickBubble` | src/widget.ts:236-238 | the open flag flips, with the scroll locked when it opens and unlocked when it closes |
| `ShadowWidget.Widget.PressDocumentKey` | src/widget.ts:241-245 | Escape closes an open window; Escape while closed, or any other key, changes nothing |
| `ShadowWidget.Widget.EditInput` | src/widget.ts:199 | the input holds the typed text |
| `ShadowWidget.Widget.Send` | src/widget.ts:247-263 | blank input changes nothing; otherwise one user message with the trimmed text, input cleared, one indicator, and a request to the webhook with that text and the stored session id; nothing stops a second request |
| `ShadowWidget.Widget.PressInputKey` | src/widget.ts:276-278 | Enter runs `send`, with its exact new state and request; Enter on blank input and any other key change nothing |
| `ShadowWidget.Widget.Complete` | src/widget.ts:265-272 | the indicator is removed and exactly one bot message is appended |
| `ShadowWidget.Mount` | src/widget.ts:69-83 | nothing is created exactly when the config is rejected; otherwise a closed widget with the resolved settings, no request pending, whose container holds only the greeting row |

## Left out

- The DOM, CSS, shadow root, `innerHTML` and `querySelector` plumbing are left out. Message rows are kept as values, not as markup, because these browser APIs hold no logic of their own.
- How a message is rendered is left out: a row holds the value, not its markup. Only whether `String(...)` of the answer throws is modelled (`Json.ToStringThrows`), because that decides which bot message is appended. `escapeHtml` itself is modelled on strings.
- ScriptWidget.BotReply: does not model a stack overflow in `pickText` on a reply nested thousands of arrays deep, which the `catch` would turn into the connection error; Dafny values have no depth limit.
- ShadowWidget.BotReply: does not model a stack overflow in `pickAnswer` on a reply nested thousands of arrays deep, which the `catch` would turn into the connection error; Dafny values have no depth limit.
- `scrollTop` updates, `focus()`, `setTimeout` and event-listener registration are left out, because they are event-loop plumbing.
- `waitForBody` and its `requestAnimationFrame` retry (src/widget.ts:12-19) are left out. `Mount` is modelled as if `document.body` exists.
- `fetch`, `res.json()` and `JSON.stringify` are left out. Only their outcome is modelled, as `Completion`, and the request as the `Request` value they would carry.
- `crypto.randomUUID`, `Math.random().toString(16)` and `Date.now()` become parameters of `GetSessionId`, because they are non-deterministic.
- The exceptions `localStorage` can throw (for example storage disabled) are left out. In the code they would surface as the connection error.
- `console.error` diagnostics are left out. The abort is modelled as a null widget.
- Numbers are reals, with no NaN, so `!d` on NaN is not modelled.
- ScriptConfig.ReadConfig: keeps `zIndex` as the attribute text. The `Number(...)` conversion only feeds the CSS, and is not modelled.
- GlobalConfig.ReadConfig: `zIndex` is an integer. `Number(...)` of a number leaves it unchanged; non-integer and non-numeric values supplied at run time are not modelled.
- Interleaving is left out. Two requests can be in flight at once, and they may complete in either order. The model lets any `Complete` answer any pending request, but it does not track which reply belongs to which message.
- vite.config.js and src/global.d.ts are not part of this model: one is build configuration, the other a type declaration.
