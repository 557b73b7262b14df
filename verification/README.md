# Word diary — a verified model

The word diary app asks for 3, 5 or 7 words and has a language model write a
short Japanese diary entry that uses them. Three parts make up its core, and
this project models each of them in Dafny:

- **The relay** (`netlify/functions/generate.js`, module `Relay`). A serverless
  handler checks the HTTP method, the API key and the `words` array, in that
  order. It builds a two-message chat request and maps the upstream answer
  onto one response envelope: `{text}` with 200, or `{error, detail?}` with a
  failure status. `Relay.Handle` is a function of the event, the configured key
  and the upstream outcome. It returns the response and the upstream request it
  sent, if any.
- **The client wrapper** (`src/utils/api.js`, module `Api`). `generateDiary`
  posts the words to the relay. It reads the reply as JSON or as text,
  depending on the content type. It returns the text, or throws one error
  whose message is composed from the envelope. `Api.GenerateDiary` is a
  function of the words and the reply.
- **The app component and the draft store** (`src/App.jsx` and
  `src/hooks/useDraft.js`, modules `App` and `Draft`). The component's five
  pieces of state are the fields of the class `App.App`. Each event handler is
  a method, and the effect that empties the inputs when the word count changes
  is a separate method, `WordCountEffect`. The single-slot local-storage draft
  is the class `Draft.DraftStore`, whose field is the storage map.

JavaScript's dynamic values are modelled by `JsValues.JsValue`. The module
also gives the conversions the code relies on: truthiness, `String(v)`,
`join`, `Number(v)` and property reads that throw on `null`/`undefined`.
`JsValues.Convertible` says which values have a primitive form. A parsed
object with its own `toString` key has none, and every conversion of it
throws a TypeError. The relay, the wrapper and the draft loader each check it
where the code converts.
`JsStrings` models `String.prototype.trim`, `includes`, joining and splitting,
and decimal spelling. Module `Http` holds the JSON media type and `response.ok`, which both
sides share. Module `Integration` connects the wrapper to the relay.

Behaviour the proofs bring out:

- Loading a draft whose count differs from the selected one restores the
  count and the result. The effect that the count change triggers then
  replaces the restored words with empty inputs (`App.RestoreOtherCountLosesWords`).
- A stored count outside {3, 5, 7} with a non-array `words` yields
  `Array(count)` inputs while `wordCount` keeps its old value, so the number of
  inputs no longer matches the count (`App.OddCountGivesMismatchedInputs`).
  A count that is not a valid array length throws a RangeError and changes
  nothing (`App.BadCountThrows`).
- The relay's error responses carry no Content-Type header. Unless the hosting
  platform supplies a JSON type, the wrapper therefore throws the raw JSON text
  of the envelope as its error message (`Integration.RelayFailureThrowsRawText`).
  The app only logs that message and shows its fixed failure status
  「生成でエラー（Functions未起動／ネットワーク）」 (src/App.jsx:76-78).

Three behaviours of the code a reader might not expect:

- The wrapper returns `data.text` whenever it is truthy, not only when it is a
  string (`Api.OkReturnsText`).
- A non-array stored `words` is rebuilt as `Array(count)` from the *stored*
  count, the same value the count check reads (`App.LoadStep`).
- The relay does not check that the words are strings: any non-empty array
  passes its check, and `join` renders each element (`Relay.Prompt`). A word
  that is an object with its own `toString` key has no primitive form, so
  `join` throws and the catch block answers 500 before anything is sent
  (`Relay.UnconvertibleWordFails`).

## Model

| member | source | states |
|---|---|---|
| Relay.Handle | netlify/functions/generate.js:8-113 | the handler as a function of the event, the key and the upstream outcome; its properties are `NonPostIsRefused`, `MissingKeyIsRefused`, `SentIffValid` and `EnvelopeShape` |
| Relay.Try | netlify/functions/generate.js:31-72 | the `try` block: body parse, destructuring, the `words` check and the prompt's `join` (which throws on a word with no primitive form), then `Answer`; a thrown message becomes the catch block's 500 in `Handle` |
| Relay.Answer | netlify/functions/generate.js:51-102 | the upstream outcome mapped to a response or an exception; `Forwards` states that the handler's result is this answer once the checks pass |
| Relay.Prompt | netlify/functions/generate.js:44-47 | the prompt text, defined for words that `join` can convert; `PromptListsWords` states its words and count read back |
| Relay.BuildRequest | netlify/functions/generate.js:51-72 | the upstream request; `RequestShape` states its URL, key, messages and token limit |
| Relay.UpstreamError | netlify/functions/generate.js:77-87 | the non-ok reply's envelope; `UpstreamFailurePassesThrough` states its status, error and detail |
| Relay.ExtractText | netlify/functions/generate.js:89-94 | `choices[0].message.content.trim()` or ""; `FirstContentExtracted` states the string case, `MissingChoiceGivesEmptyText` the missing choice, message or content, and `NonStringContentFails` the TypeError that `trim` throws on non-string content |
| Relay.TrimContent | netlify/functions/generate.js:93 | `trim` on the content, a TypeError when it is not a string |
| Relay.NonPostIsRefused | netlify/functions/generate.js:10-15 | any method other than POST gets 405 `{error: "Method Not Allowed"}`, whatever the key, body or upstream, and nothing is sent upstream |
| Relay.MissingKeyIsRefused | netlify/functions/generate.js:17-29 | a POST with an unset or empty key gets 500 with the fixed error and detail, and nothing is sent upstream |
| Relay.NullBodyFails | netlify/functions/generate.js:31-111 | a body that parses to `null` cannot be destructured: the catch block's 500 with that TypeError as detail, and nothing is sent |
| Relay.UnconvertibleWordFails | netlify/functions/generate.js:44-111 | a word with no primitive form makes `join` throw: the catch block's 500 with the conversion TypeError, and nothing is sent |
| Relay.ObjectWordExample | netlify/functions/generate.js:36-51 | `{"words": [{"toString": 1}]}` passes the array check and still sends nothing |
| Relay.UnparsableBodyFails | netlify/functions/generate.js:31-33 | a body that `JSON.parse` rejects gets the catch block's 500, with the parser's message as detail |
| Relay.MissingWordsIsInvalid | netlify/functions/generate.js:35-41 | a parsed body whose `words` is not a non-empty array gets 400 with the fixed message, and nothing is sent upstream |
| Relay.SentIffValid | netlify/functions/generate.js:8-72 | a request goes upstream exactly when the method, the key and the words all pass and every word converts for `join`, and it is built from those words |
| Relay.RequestShape | netlify/functions/generate.js:51-72 | for words that `join` converts, the upstream request goes to the chat-completions URL with a Bearer key, a system message then a user message holding the prompt, and at most 300 tokens |
| Relay.PromptListsWords | netlify/functions/generate.js:43-47 | for string words none of which contains '、': the prompt names the word count and lists the words joined by '、'; splitting that line at '、' gives back the words, and the count reads back as the number of words |
| Relay.FieldOr | netlify/functions/generate.js:83-84 | `x?.key \|\| fallback`: the field when it is truthy, otherwise the fallback, also when `x` is nullish |
| Relay.UpstreamFailurePassesThrough | netlify/functions/generate.js:77-87 | a non-ok upstream reply keeps its status; `error.message` (or the fallback text) becomes `error` and `error.type` (or "") becomes `detail` |
| Relay.SuccessReturnsTrimmedContent | netlify/functions/generate.js:89-102 | any ok reply whose first choice's message has string content gets 200, a JSON content type and `{text}` holding that content trimmed |
| Relay.FirstContentExtracted | netlify/functions/generate.js:91-94 | the text of any reply whose first choice's message has string content is that content trimmed, whatever other choices and fields the reply, the choice and the message carry |
| Relay.FullReplyExample | netlify/functions/generate.js:91-94 | a two-choice reply with `index`, `finish_reason`, `role` and `usage` yields the first choice's content trimmed |
| Relay.MissingChoiceGivesEmptyText | netlify/functions/generate.js:91-94 | an ok reply without choices, a first choice or its message gets 200 with empty text |
| Relay.NonStringContentFails | netlify/functions/generate.js:89-111 | an ok reply whose first message has non-string content (`null`, missing, a number, …): `trim` throws after the request went out, and the catch block answers 500 with that TypeError as detail |
| Relay.NullReplyFails | netlify/functions/generate.js:74-111 | an upstream body that parses to `null`: reading `data.error` (non-ok) or `data.choices` (ok) throws after the request went out, and the catch block answers 500 with that TypeError as detail |
| Relay.ThrownAfterSending | netlify/functions/generate.js:103-111 | an exception after a valid request went out becomes the 500 failure envelope with its message as detail, and the request is recorded as sent |
| Relay.UpstreamExceptionFails | netlify/functions/generate.js:103-111 | a transport failure or an unparsable upstream body after the request went out gets 500 with the exception's message as detail |
| Relay.EnvelopeShape | netlify/functions/generate.js:8-113 | every path returns an envelope: an ok status exactly when the body is `{text}` with a string and a JSON type; otherwise no content type and a truthy `error` |
| JsValues.JoinValuesOfStrings | netlify/functions/generate.js:45 | `join` on an array of strings joins exactly those strings |
| JsStrings.SplitJoin | netlify/functions/generate.js:45 | splitting a join at its separator gives back the parts when none contains the separator |
| JsStrings.TrimSpec | netlify/functions/generate.js:93 | `trim` keeps the infix between the leading and the trailing white space, and the kept text neither starts nor ends with white space |
| JsStrings.TrimIdempotent | netlify/functions/generate.js:93 | trimming a trimmed text changes nothing |
| JsStrings.Contains | src/utils/api.js:20 | `includes` holds exactly when the text occurs at some position |
| JsStrings.TrimEmptyIffBlank | src/App.jsx:71 | the trimmed text is empty exactly when every character is white space |
| Api.GenerateDiary | src/utils/api.js:6-49 | the wrapper as a function of the words and the reply; its properties are the `Api` lemmas below |
| Api.Envelope | src/utils/api.js:18-25 | `data` chosen by content type; `EnvelopeChoice` states both cases |
| Api.ErrorMessage | src/utils/api.js:27-36 | the thrown message, or the TypeError when a truthy `error` or `detail` has no primitive form; `ErrorMessageComposition`, `ErrorMessageFallback`, `ErrorMessageFallbackWithDetail` and `ErrorMessageDisplaysValues` state its cases |
| Api.SuccessText | src/utils/api.js:39-44 | `data.text` or ""; `OkReturnsText` states it |
| Api.ErrorMessageFallbackWithDetail | src/utils/api.js:29-35 | a falsy `error` with a truthy `detail` gives the fallback message followed by " (detail)", or the conversion TypeError when the detail has no primitive form |
| Api.ErrorMessageDisplaysValues | src/utils/api.js:29-36 | a truthy `error` and `detail` of any type with a primitive form are written as `String` writes them, the detail in parentheses only when truthy; either one without a primitive form throws the conversion TypeError |
| Api.ObjectErrorExample | src/utils/api.js:27-36 | a 500 JSON reply `{"error": {"toString": 1}}` throws the conversion TypeError, not a composed message |
| Api.NonStringErrorExample | src/utils/api.js:29-35 | `{error: 429, detail: true}` gives "429 (true)" |
| Api.RequestIsPostOfWords | src/utils/api.js:4-15 | the wrapper always POSTs `{words}` with the given words to the relay endpoint |
| Api.EnvelopeChoice | src/utils/api.js:17-25 | a content type containing "application/json" selects the parsed body; any other type, or none, gives `{error: <raw text>}` |
| Api.ContainsJsonType | src/utils/api.js:20 | a content type with parameters around "application/json" still counts as JSON |
| Api.NonOkThrows | src/utils/api.js:27-37 | a non-ok status always throws |
| Api.ErrorMessageComposition | src/utils/api.js:29-35 | a truthy `error` and `detail` give "error (detail)"; an empty detail adds nothing |
| Api.ErrorMessageFallback | src/utils/api.js:29-32 | a falsy `error` with no detail gives "エラーが発生しました" |
| Api.DetailedErrorExample | src/utils/api.js:27-37 | a 500 JSON reply `{"error":"x","detail":"y"}` throws "x (y)" |
| Api.OkReturnsText | src/utils/api.js:39-44 | an ok JSON reply returns `data.text` when it is truthy and "" otherwise, never the envelope |
| Api.OkWithoutJsonIsEmpty | src/utils/api.js:18-44 | an ok reply that is not declared as JSON returns "" |
| Api.TextExample | src/utils/api.js:39-44 | a 200 JSON reply `{"text":"日記"}` returns exactly "日記" |
| Api.FailuresAreRethrown | src/utils/api.js:45-48 | a transport failure or a JSON parse failure is rethrown with its own message |
| Integration.ClientRequestPassesRelayChecks | src/utils/api.js:9-15 | the wrapper's request passes the relay's checks exactly when it has at least one word, and the relay then uses those words in order |
| Integration.SuccessDelivered | src/utils/api.js:18-44 | any ok relay envelope reaches the caller as its `text` |
| Integration.FailureDeliveredAsText | src/utils/api.js:18-36 | any failure envelope without a JSON type reaches the caller as the raw text, or the fallback message when that is empty |
| Integration.FailureDeliveredAsJson | src/utils/api.js:18-36 | any failure envelope read as JSON throws the composed message, which starts with the envelope's `error`, exactly when `error` and a truthy `detail` have a primitive form; otherwise it throws the conversion TypeError |
| Integration.RelaySuccessReachesClient | netlify/functions/generate.js:96-102 | when the relay answers 200 the wrapper returns exactly the relay's text, an empty text included |
| Integration.RelayFailureThrowsRawText | src/utils/api.js:18-36 | for a relay failure without a JSON content type, the wrapper throws the raw response text as its error message (the fallback message when that text is empty); the app only logs it |
| Integration.RelayFailureWithJsonDefault | src/utils/api.js:27-36 | with a JSON default type a relay failure's message starts with the envelope's `error`, unless an `error` or `detail` passed through from upstream has no primitive form, which throws the conversion TypeError |
| Integration.UpstreamObjectMessageExample | netlify/functions/generate.js:78-87 | an upstream 400 whose `error.message` is `{"toString": 1}` passes through the relay, and the client throws the conversion TypeError |
| Integration.MissingKeyMessageExample | netlify/functions/generate.js:21-29 | with a JSON content type, the wrapper throws a missing key's error as "OPENAI_API_KEY is missing (Please set OPENAI_API_KEY in your .env file)" |
| Draft.Saved | src/hooks/useDraft.js:8-17 | the storage after a save; `LoadAfterSave`, `LastSaveWins` and `OtherKeysUntouched` state its properties |
| Draft.Loaded | src/hooks/useDraft.js:20-28 | the stored draft or `null`; `LoadBeforeSave` and `LoadAfterSave` state it |
| Draft.Cleared | src/hooks/useDraft.js:31-33 | the storage after a clear; `ClearIsFinalAndIdempotent` and `OtherKeysUntouched` state its properties |
| Draft.DraftStore.SaveDraft | src/hooks/useDraft.js:8-17 | the draft key holds `{count, words, result}` afterwards, replacing what it held |
| Draft.DraftStore.LoadDraft | src/hooks/useDraft.js:20-28 | returns the stored draft, or `null` when there is none |
| Draft.DraftStore.ClearDraft | src/hooks/useDraft.js:31-33 | the draft key is removed |
| Draft.LoadBeforeSave | src/hooks/useDraft.js:22-24 | before any save, loading gives `null` |
| Draft.LoadAfterSave | src/hooks/useDraft.js:8-28 | loading right after saving gives back the saved count, words and result |
| Draft.LastSaveWins | src/hooks/useDraft.js:16 | a second save replaces the first wholesale |
| Draft.ClearIsFinalAndIdempotent | src/hooks/useDraft.js:31-33 | after a clear nothing loads, and a second clear changes nothing |
| Draft.OtherKeysUntouched | src/hooks/useDraft.js:4 | save and clear touch only the draft key |
| App.App.constructor | src/App.jsx:15-31 | the first render: count 3, three empty inputs, empty result and status, not generating |
| App.InitialWordsMatchCount | src/App.jsx:15-31 | the initial inputs match the initial count, and the mount-time effect leaves them as they are |
| App.Empties | src/App.jsx:30 | `Array(n).fill('')` has n entries, all empty strings |
| App.Effect | src/App.jsx:28-31 | the effect changes only the inputs, and only when the count changed; they become `wordCount` empty strings |
| App.App.WordCountEffect | src/App.jsx:28-31 | the effect run after a commit: new empty inputs when the count changed, the old ones otherwise |
| App.App.ChangeWord | src/App.jsx:34-39 | only input `index` changes, to the typed value; the length stays |
| App.App.ChangeWordCount | src/App.jsx:42-46 | the selected value becomes the count, the status is cleared, and the effect empties the inputs when the count changed |
| App.SelectorValue | src/App.jsx:180-184 | each option of the count selector reads as a valid count, and that count is shown as the option's value |
| JsValues.NumberOfDisplayedInteger | src/App.jsx:43 | `Number(String(n))` is n, so the selector's "3", "5", "7" become 3, 5, 7 |
| App.Filled | src/App.jsx:51 | the filter fails exactly when an input is not a string; otherwise it keeps at most all inputs, and only non-blank ones |
| App.Keep | src/App.jsx:51 | the filter on strings keeps at most all entries, and only non-blank ones |
| App.KeepKeepsAll | src/App.jsx:51 | with no blank entry the filter keeps every word unchanged |
| App.KeepDropsBlank | src/App.jsx:51 | a blank entry makes the filter keep fewer words than there are entries |
| App.KeepCountsNonBlank | src/App.jsx:51 | the filter keeps exactly as many words as there are non-blank entries, so with `KeepKeepsOrder` no non-blank entry is dropped |
| App.KeepAppend | src/App.jsx:51 | filtering a concatenation filters each part |
| App.KeepKeepsOrder | src/App.jsx:51 | the kept words are a subsequence of the entries, in their entered order |
| App.FilledAll | src/App.jsx:51-57 | the filter keeps as many words as there are inputs exactly when no input is blank, and then keeps them all in order; it keeps one word per non-blank input, in order; with one input per counted word, that is when generation proceeds |
| App.NeedWordsStatusNamesCount | src/App.jsx:55 | the status asking for the words is a fixed prefix, the count's spelling and a fixed suffix, and that spelling reads back as the count |
| App.App.BeginGenerate | src/App.jsx:49-61 | a non-string input throws and changes nothing; a number of non-blank words other than the count sets the "enter all n" status; otherwise the flag is set and the words are sent |
| App.App.CompleteGenerate | src/App.jsx:63-82 | success stores the text and reports empty or done; failure keeps the previous result and reports the error; the flag is always cleared |
| App.App.EditResult | src/App.jsx:218 | editing the result text area replaces the result |
| App.App.Copy | src/App.jsx:88-99 | a blank result does nothing; otherwise the trimmed result is written and the status reports success or failure |
| App.App.Speak | src/App.jsx:102-108 | a blank result does nothing; otherwise the trimmed result is spoken and the status says so |
| App.App.Stop | src/App.jsx:111-114 | the status reports that speech stopped |
| App.App.SaveDraft | src/App.jsx:117-120 | the current count, inputs and result are saved, and the status says so |
| App.App.LoadDraft | src/App.jsx:123-153 | the new state is the load step then the effect on the stored draft; when `Number(draft.count)` or `Array(count)` throws, nothing changes |
| App.App.ClearDraft | src/App.jsx:156-159 | the stored draft is removed and the status says so; words, count and result stay |
| App.ArrayOfEmpties | src/App.jsx:142 | `Array(count).fill('')` exists exactly for an integral count from 0 to 2^32-1, and then holds that many empty strings |
| App.LoadStep | src/App.jsx:123-153 | `handleLoadDraft` then the effect, on a loaded value, with `None` for the TypeError at `Number(draft.count)` and the RangeError at `Array(count)`; the lemmas below state its cases |
| App.LoadWithoutDraft | src/App.jsx:127-130 | without a stored draft only the status changes, to "no draft" |
| App.RestoreSameCount | src/App.jsx:133-152 | a draft with the current count restores its words and result |
| App.RestoreOtherCountLosesWords | src/App.jsx:133-152 | a draft with another valid count restores the count and result, but the effect empties the restored words |
| App.OddCountGivesMismatchedInputs | src/App.jsx:133-143 | a stored count outside {3, 5, 7} with non-array words keeps the count and gives that many inputs, which differ from the count |
| App.BadCountThrows | src/App.jsx:139-143 | a count that is not a valid array length, with non-array words, throws |
| App.UnconvertibleCountThrows | src/App.jsx:133 | a stored count with no primitive form makes `Number` throw, and nothing changes, whatever the words and result |
| App.ObjectCountExample | src/App.jsx:133 | `{count: {toString: 1}, words: ["a"], result: "r"}` is not restored |
| App.NonStringResultRestoredEmpty | src/App.jsx:146-150 | a non-string stored result is restored as "" |
| App.SaveThenLoadRestores | src/App.jsx:117-153 | saving then loading restores the same count, inputs and result |
| App.SaveThenLoad | src/App.jsx:117-153 | the two handlers in a row on one component leave count, inputs and result as they were, with the "restored" status |
| App.ClearThenLoadFindsNothing | src/App.jsx:156-159 | after clearing, loading reports that there is no draft |

## Left out

- Speech synthesis (`src/hooks/useSpeech.js`) is not part of this model. `App.App.Speak` returns the text it would speak, and `Stop` sets only the status.
- Rendering, the buttons' disabled states and the clipboard and speech feature checks are not modelled. The disabled generate button appears only as `BeginGenerate`'s precondition `!isGenerating`.
- The network calls are not modelled. The relay's upstream outcome and the wrapper's reply are inputs.
- Whether the hosting platform adds a default Content-Type to a response without one is not modelled; it is the parameter `platformType` of `Integration.Deliver`.
- The JSON text encoding is abstracted. A request body or upstream reply is the value it parses to, and its parse failure is an input carrying its message. Stored drafts hold parsed values only; see the `Draft.DraftStore` lines below.
- The upstream request's sampling temperature (0.8) is not modelled, because `ChatRequest` has no field for a fractional number.
- Logging (`console.error`, `console.log`) is not modelled.
- Numbers are integers. Fractions, NaN, hexadecimal, binary (`0b`), octal (`0o`) and exponent spellings in `Number(...)`, and the 2^53 precision limit are not modelled: `JsValues.StringToNumber` reads only decimal spellings, so a stored count of "0b11" or "0o7", which `Number` reads as 3 and 7, is treated as not integral.
- The messages of engine-raised TypeErrors follow V8's wording. The app only logs them or passes them on as text.
- Draft.DraftStore.LoadDraft: returns the stored value and never throws. A corrupt stored entry, on which `JSON.parse` throws (src/hooks/useDraft.js:27) and aborts `handleLoadDraft` before any state changes (src/App.jsx:124), is not modelled, because the storage map holds parsed values only.
- Draft.DraftStore.SaveDraft: always stores the payload. `localStorage.setItem` throwing (quota exceeded or storage disabled, src/hooks/useDraft.js:16), which would abort `handleSaveDraft` before its status update, is not modelled.
- `useDraft`'s `if (!raw) return null` for an empty stored string is not modelled: every stored entry is a JSON encoding, which is never empty.
- App.App.CompleteGenerate: takes the wrapper's outcome as a string. A truthy non-string `text` from a server other than the relay is not passed in: in the app it would be stored as the result, `text.trim` would throw into the failure status, and the next render's `result.trim()` (src/App.jsx:162) would throw and unmount the component.
- App.LoadStep: a restored word with no primitive form (`{"toString": 1}`, say) is accepted, since only the count is converted. The controlled `<input value>` would then throw at render, which is not modelled.
- App.App.ChangeWord: requires an index inside the inputs, because inputs are rendered only for existing entries.
- The asynchronous interleaving of a generation with other handlers is not modelled. `BeginGenerate` and `CompleteGenerate` are the two halves around the `await`.
