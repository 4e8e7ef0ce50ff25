# Telegram relay to a streaming agent service, modelled in Dafny

The relay is a Telegram bot that forwards user messages to an agent service and answers with
the agent's reply, charging the user in tokens. This project models its core:

- **the agent event-stream decoder** (`Assistant`). Each raw chunk of the service's
  server-sent-event stream is cut on blank lines. Each frame yields its `event:` and `data:`
  fields. The data is decoded, and only `updates` frames are flattened into typed stream
  updates: agent messages, tool calls and tool messages. `JSON.parse` is a parameter (a
  partial function).
- **the stream reducer** (`StreamProcessing`). A class with the `tokenUsage` field, a log of
  message edits and a log of spend calls. It is modelled as written: the response text and the
  last-sent text are constant empty strings passed by value, so nothing accumulates. The
  reducer the code evidently intends is modelled beside it and compared.
- **the bot command rules** (`Bot`):
  - the token estimate and balance pre-check;
  - the choice of the reply text;
  - the `/buy_tokens` argument check;
  - the invoice payload, and how a payment parses it back;
  - bulk sending in batches of 100;
  - the balance history text;
  - the inline-query preview;
  - the rate-limit guard and the development suffix of `onMessage`.

  The results of every outside call are parameters: thread id, balance, agent run, Telegram
  delivery, the rate limiter's verdict, `Number` and `parseInt`.
- **the user store and thread resolver** (`Users`). A class holding the users collection as a
  sequence of documents, with the not-found guards, find-or-create by Telegram id, and the
  per-user assistant-to-thread map. The agent service's `createThread` is recorded in a log,
  and the id it returns is a parameter.
- **translation lookup** (`Localization`). It falls back from the language to the default
  language, then from a missing entry to the key. Each parameter then replaces the first
  occurrence of its `{name}` placeholder.

Supporting modules:

- `Text` holds the JavaScript string operations the code relies on: `split` with a string
  separator, `filter(Boolean)`, `replace` with a string pattern, `trim`, `startsWith`,
  `substring` and `Array.find`.
- `JsNumbers` holds integer numbers that may be `NaN`, and their decimal rendering.
- `Messages` holds the update types.
- `TokenTransactions` holds the ledger record.

Each method that loops or changes state is proved equal to a specification function. The
properties are proved about those functions.

## Model

| member | source | states |
|---|---|---|
| Assistant.Frames | src/modules/assistant/assistant.service.ts:130 | every piece handed to the frame handler is non-empty |
| Assistant.OnData | src/modules/assistant/assistant.service.ts:129-132 | a chunk's updates are the updates of its non-empty blank-line-separated pieces, in chunk order |
| Assistant.FramesOfSerialized | src/modules/assistant/assistant.service.ts:130 | frames without blank lines, written one after another with `\n\n`, are cut back out exactly and in order |
| Assistant.EventData | src/modules/assistant/assistant.service.ts:164-170 | an empty data string yields no data; data is present exactly when the string is non-empty, parses, and the parsed value is truthy |
| Assistant.EncodedFrameFields | src/modules/assistant/assistant.service.ts:152-162 | for `event: T\ndata: D`, the extracted event type is T and the data string is D |
| Assistant.ProcessEvent | src/modules/assistant/assistant.service.ts:151-174 | a frame dispatches only when both its event type and its decoded data are present, and otherwise yields nothing |
| Assistant.Classify | src/modules/assistant/assistant.service.ts:181-194 | an event type is classed as updates exactly when it is `updates` |
| Assistant.HandleEventData | src/modules/assistant/assistant.service.ts:176-195 | the switch yields exactly the dispatch outputs of the event type and data |
| Assistant.OnlyUpdatesDispatch | src/modules/assistant/assistant.service.ts:181-194 | metadata, heartbeat and unknown event types yield nothing |
| Assistant.EncodedUpdatesFrame | src/modules/assistant/assistant.service.ts:151-187 | an `updates` frame whose data parses to a truthy payload yields exactly that payload's flattened updates |
| Assistant.ProcessUpdate | src/modules/assistant/assistant.service.ts:197-219 | the nested loops push exactly the flattening of the payload: agent entries in order, then tool entries |
| Assistant.PushAgentEntry | src/modules/assistant/assistant.service.ts:199-211 | one agent entry pushes its content when truthy, then each of its tool calls, in order |
| Assistant.ToolCallOutputs | src/modules/assistant/assistant.service.ts:206-210 | one tool-call update per tool call, in order |
| Assistant.ToolOutputs | src/modules/assistant/assistant.service.ts:214-218 | one tool-message update per tools entry, in order, carrying its content even when empty |
| Assistant.AgentOutputsCount | src/modules/assistant/assistant.service.ts:198-211 | agent entries yield one update per truthy content plus one per tool call |
| Assistant.UpdateOutputsCount | src/modules/assistant/assistant.service.ts:197-219 | number of updates = truthy agent contents + tool calls + tools entries |
| Assistant.AgentOutputsAppend | src/modules/assistant/assistant.service.ts:199-211 | the agent entries are flattened in order: the updates of a concatenation are the concatenation of the updates |
| Assistant.AgentOutputsShape | src/modules/assistant/assistant.service.ts:200-209 | agent entries yield only agent messages with non-empty text and tool calls |
| Assistant.AgentBeforeTools | src/modules/assistant/assistant.service.ts:197-219 | all agent-derived updates precede the tool messages, and the k-th tool message carries the k-th tools entry's content |
| Assistant.DecodedUpdatesShape | src/modules/assistant/assistant.service.ts:197-219 | the decoder never emits a token-usage update, an unknown update or an empty agent message |
| Assistant.EventLineAloneYieldsNothing | src/modules/assistant/assistant.service.ts:129-174 | a chunk holding only a frame's event line yields nothing |
| Assistant.DataLineAloneYieldsNothing | src/modules/assistant/assistant.service.ts:129-174 | a chunk holding only a frame's data line yields nothing |
| Assistant.SplitFrameIsLost | src/modules/assistant/assistant.service.ts:129-174 | no buffering across chunks: a frame cut in two chunks yields nothing, while delivered whole it yields its updates |
| Assistant.TwoUpdatesFrames | src/modules/assistant/assistant.service.ts:129-132 | two `updates` frames in one chunk decode to the first payload's updates followed by the second's |
| Assistant.HelloFromTheWire | src/modules/assistant/assistant.service.ts:129-219 | two frames carrying "Hel" and "lo!" decode to those two agent messages, in order |
| StreamProcessing.StreamProcessor.ProcessStream | src/modules/bot/stream-processing.service.ts:21-50 | resets `tokenUsage`, so it ends as the last usage reported in this stream; issues each update's edits with `''` as the response and last-sent text; on error adds one error edit; on completion adds exactly one spend |
| StreamProcessing.StreamProcessor.HandleStreamUpdate | src/modules/bot/stream-processing.service.ts:52-88 | an agent message edits with the given text plus its data; tool messages and tool calls edit with their status text; token usage overwrites `tokenUsage`; nothing else changes |
| StreamProcessing.StreamProcessor.UpdateTelegramMessage | src/modules/bot/stream-processing.service.ts:90-112 | edits only when the text differs from the last-sent text given |
| StreamProcessing.StreamProcessor.SendToolMessage | src/modules/bot/stream-processing.service.ts:114-131 | exactly one edit, with the key's translation in the user's language |
| StreamProcessing.StreamProcessor.HandleStreamComplete | src/modules/bot/stream-processing.service.ts:133-147 | exactly one spend of the reported total, else of the length estimate of the response text |
| StreamProcessing.StreamProcessor.HandleStreamError | src/modules/bot/stream-processing.service.ts:149-165 | exactly one edit, with the error translation, and no spend |
| StreamProcessing.CalculateActualTokenUsage | src/modules/bot/stream-processing.service.ts:167-172 | the least r with 4r ≥ the length of the text |
| StreamProcessing.TokensToSpend | src/modules/bot/stream-processing.service.ts:137-139 | a reported total wins, 0 included; otherwise the ceiling of length/4 |
| StreamProcessing.StreamEditCount | src/modules/bot/stream-processing.service.ts:60-87 | one edit per non-empty agent message, per tool call and per tool message; none for anything else |
| StreamProcessing.EditsCarryOneDelta | src/modules/bot/stream-processing.service.ts:27-28 | nothing accumulates: every edit goes to the placeholder and shows a tool status text or the text of one single agent message of the stream |
| StreamProcessing.AgentEditIffNonEmpty | src/modules/bot/stream-processing.service.ts:60-67 | an agent message causes an edit exactly when its own text is non-empty, and that edit shows exactly its text |
| StreamProcessing.LastReportedUsageWins | src/modules/bot/stream-processing.service.ts:82-83 | after a stream, `tokenUsage` is the last reported usage |
| StreamProcessing.UnreportedUsageUnchanged | src/modules/bot/stream-processing.service.ts:82-87 | without a usage report, `tokenUsage` keeps its value |
| StreamProcessing.CompletionChargeAsWritten | src/modules/bot/stream-processing.service.ts:41 | on completion the charge is the last reported total when there is one, else 0, the estimate for `''` |
| StreamProcessing.DecodedStreamAsWritten | src/modules/bot/stream-processing.service.ts:27-41 | fed by the decoder, the processor edits once per update and charges 0 on completion |
| StreamProcessing.HelloAsWrittenAndIntended | src/modules/bot/stream-processing.service.ts:61 | for the reply "Hel" + "lo!", the code as written shows "Hel" and then "lo!" and charges 0; the intended reducer shows "Hello!" and charges 2 |
| StreamProcessing.IntendedAccumulates | src/modules/bot/stream-processing.service.ts:61 | the intended reducer's response is the concatenation of the agent texts, and the last text pushed is never longer |
| StreamProcessing.IntendedPresentsConcatenation | src/modules/bot/stream-processing.service.ts:96-110 | after a non-empty delta, the intended reducer's last edit shows the whole accumulated reply |
| Bot.EstimateTokenUsage | src/modules/bot/bot.service.ts:357-361 | the least r with 4r ≥ the length of the message |
| Bot.CalculateActualTokenUsage | src/modules/bot/bot.service.ts:363-365 | the run's reported total, 0 when there is none |
| Bot.ProcessMessage | src/modules/bot/bot.service.ts:303-355 | below the estimate: the insufficient-tokens text, and no run and no spend; otherwise one run; a failed run rejects with no reply and no spend; a completed run gives one spend of the actual tokens, and the reply is the last run message's content or the apology when there is none |
| Bot.SpendDescriptionQuotesMessage | src/modules/bot/bot.service.ts:345 | the spend description quotes at most the first 50 characters of the message and ends with `...` |
| Bot.OnMessage | src/modules/bot/bot.service.ts:216-251 | throttled exactly when the limiter rejects; otherwise the placeholder is sent; a message without text or a rejected processMessage leaves it unedited with no run or spend beyond processMessage's; otherwise it is edited into the reply, followed in development by exactly `\n\nResponse time: <ms>ms` and by nothing otherwise |
| Bot.BuyTokens | src/modules/bot/bot.service.ts:151-185 | usage hint exactly when the text is not two space-separated parts or `Number` of the second is `NaN`; otherwise an invoice with the payload for that amount and price amount × pricePerToken |
| Bot.PayloadRoundTrip | src/modules/bot/bot.service.ts:178 | for an id without `_`, the payload splits on `_` into `buy`, `tokens`, the id and the rendered amount |
| Bot.OnSuccessfulPayment | src/modules/bot/bot.service.ts:194-213 | tokens are added exactly when the id at index 2 of the payload is the paying user's id; a confirmation is sent only after adding them |
| Bot.BuyerIsCredited | src/modules/bot/bot.service.ts:197-211 | paying the bot's own invoice credits the buyer with the amount and confirms it |
| Bot.OtherBuyerIsIgnored | src/modules/bot/bot.service.ts:199 | a payload naming another user credits nobody and sends nothing |
| Bot.NaNAmountSlipsThrough | src/modules/bot/bot.service.ts:155-166 | an argument that `Number` accepts and `parseInt` rejects gives an invoice for `NaN` tokens at a `NaN` price |
| Bot.BuyTokensChecked | src/modules/bot/bot.service.ts:155-164 | corrected check: also rejects when `parseInt` gives `NaN`, and otherwise behaves as the original |
| Bot.CheckedInvoiceIsNumeric | src/modules/bot/bot.service.ts:164-181 | with the corrected check, the payload's amount is never `NaN`, and the price is a number when the configured price is |
| Bot.BulkText | src/modules/bot/bot.service.ts:84-85 | a message to broadcast is found exactly when the second `/bulk `-separated piece exists and is non-empty, and it is that piece |
| Bot.BulkCommandText | src/modules/bot/bot.service.ts:84-85 | `/bulk <message>` yields exactly `<message>` when the message is non-empty and holds no further `/bulk ` |
| Bot.SendBulkMessage | src/modules/bot/bot.service.ts:73-118 | non-admins and a missing text are answered without any send; otherwise every user gets the text exactly once, in order, batch by batch, and the reply reports the delivered count out of the number of users |
| Bot.SendInBatches | src/modules/bot/bot.service.ts:98-107 | the slices of 100 cover every user exactly once, in order, and the count is the number of sends that succeeded |
| Bot.DeliveredCount | src/modules/bot/bot.service.ts:96-107 | the reported sent count never exceeds the number of users |
| Bot.CheckBalance | src/modules/bot/bot.service.ts:121-148 | the balance line, the heading, then one line per transaction of the first five, in order |
| Bot.AppendHistory | src/modules/bot/bot.service.ts:140-145 | the header followed by one line per transaction, in order |
| Bot.Recent | src/modules/bot/bot.service.ts:140 | at most five transactions, a prefix of the history, and the whole history when it has no more than five |
| Bot.OnlyFiveShown | src/modules/bot/bot.service.ts:140 | transactions after the fifth never change the history text |
| Bot.HistoryLinesAppend | src/modules/bot/bot.service.ts:140-145 | the history text of a concatenation is the concatenation of the history texts |
| Bot.LineShowsSign | src/modules/bot/bot.service.ts:142-144 | each line starts on a new line, with `+` exactly for a credit and `-` exactly for a debit |
| Bot.OnInlineQuery | src/modules/bot/bot.service.ts:267-301 | an empty query gets the prompt article and runs nothing; otherwise the query goes through processMessage (run and spend, no rate limiter), and an answer is given exactly when it resolves: the reply, with a preview that is its first 100 characters followed by `...` |
| Users.UserById | src/modules/user/user.service.ts:22-28 | NotFound exactly when no stored user has the id; otherwise a stored user with that id |
| Users.UserService.GetUserById | src/modules/user/user.service.ts:22-28 | returns the lookup result and changes nothing |
| Users.AfterUpdate | src/modules/user/user.service.ts:30-36 | NotFound exactly when the id is missing; otherwise the returned user has that id and the store keeps its size |
| Users.UpdateChangesOnlyThatUser | src/modules/user/user.service.ts:30-36 | an update stores the patched record of the found user, which a lookup by id then returns, and leaves every document with another id where and as it was |
| Users.UserService.UpdateUser | src/modules/user/user.service.ts:30-36 | the store becomes the updated store, or is unchanged on NotFound |
| Users.AfterDelete | src/modules/user/user.service.ts:38-41 | NotFound exactly when the id is missing; otherwise exactly one document fewer |
| Users.UserService.DeleteUser | src/modules/user/user.service.ts:38-41 | a missing id throws before anything is deleted |
| Users.DeleteRemovesOnlyThatUser | src/modules/user/user.service.ts:38-41 | after a delete, no stored user has that id and every other user is still stored |
| Users.FindByTelegramId | src/modules/user/user.service.ts:49 | a stored user with that Telegram id, and none exactly when no stored user has it |
| Users.FoundOrCreated | src/modules/user/user.service.ts:43-62 | an existing user is returned and the store is unchanged; otherwise one new user with that Telegram id is appended and returned |
| Users.UserService.FindOrCreateUser | src/modules/user/user.service.ts:43-62 | the store and result are those of find-or-create, and no thread is requested |
| Users.FindOrCreateIsIdempotent | src/modules/user/user.service.ts:43-62 | a second find-or-create for the same Telegram id returns the same user and changes nothing |
| Users.WithThread | src/modules/user/user.service.ts:70-73 | the thread map exists afterwards and maps the assistant to the thread; every other entry and every other field is unchanged |
| Users.AfterAddThread | src/modules/user/user.service.ts:64-75 | NotFound exactly when the user is missing; otherwise the store keeps its size |
| Users.UserService.AddThreadToUser | src/modules/user/user.service.ts:64-75 | the store becomes the one with the thread recorded, or is unchanged on NotFound |
| Users.ResolveThread | src/modules/user/user.service.ts:77-96 | NotFound exactly when the user is missing |
| Users.UserService.GetOrCreateThread | src/modules/user/user.service.ts:77-96 | returns the resolved thread; a `createThread` call is logged exactly when a new thread was needed |
| Users.StoredThreadIsReused | src/modules/user/user.service.ts:81-86 | a stored truthy thread id is returned, with no new thread and no store change |
| Users.MissingThreadIsCreated | src/modules/user/user.service.ts:88-95 | without a stored thread, one thread is created, stored under the assistant and returned |
| Users.ResolveIsIdempotent | src/modules/user/user.service.ts:77-96 | resolving again for the same user and assistant returns the same id and creates nothing |
| Users.IndexOfIdAfterReplace | src/modules/user/user.service.ts:31 | replacing a document by one with the same id leaves every lookup position unchanged |
| Users.WritesKeepIdsUnique | src/modules/user/user.service.ts:30-75 | update, thread recording and find-or-create keep document ids unique |
| Localization.EffectiveLanguage | src/modules/localization/localization.service.ts:36 | an empty or missing language uses the default language |
| Localization.Lookup | src/modules/localization/localization.service.ts:37 | the table text when the language has a non-empty entry for the key, else the key |
| Localization.MissingEntryGivesKey | src/modules/localization/localization.service.ts:37 | a missing language, a missing key or an empty entry all give the key back |
| Localization.Translate | src/modules/localization/localization.service.ts:31-49 | the loop returns the lookup with each parameter applied in order |
| Localization.SubstituteLast | src/modules/localization/localization.service.ts:40-45 | parameters apply in order: the last acts on what the others produced |
| Localization.AbsentPlaceholdersUntouched | src/modules/localization/localization.service.ts:40-45 | parameters whose placeholder does not occur leave the text unchanged |
| Localization.UnmatchedPlaceholderSurvives | src/modules/localization/localization.service.ts:40-45 | a `{name}` placeholder that no parameter names stays in the translated text, when all names are brace-free |
| Localization.OneParamReplacesFirstOccurrence | src/modules/localization/localization.service.ts:41-44 | a parameter replaces the first occurrence of its placeholder and nothing else |

## Left out

- Rate limiting: `RateLimiterMemory`'s policy belongs to a library. Its verdict is the
  `admitted` parameter of `Bot.OnMessage`.
- Token ledger: `spendTokens`, `addTokens`, `getTokenBalance`, `getTokenTransactionHistory`
  and `getAllUsers` are not part of this model. Their calls are returned as records, and
  their results are parameters. Balance arithmetic is not modelled.
- Persistence: the Firestore repositories are a sequence of documents. A failed update of a
  missing document is the `NotFound` result. Document ids are a parameter.
- Network and platform I/O: HTTP calls to the agent service, the stream's `end`/`error`
  listeners, Telegram calls, the cache manager and `Date.now` are not modelled. How a run
  settles is the `RunAttempt` parameter (`RunFailed` when `runAssistant` rejects), the
  stream's ending is the `Ending` parameter, Telegram delivery is the `delivered` parameter,
  and the processing time is a parameter.
- Concurrency: the fire-and-forget spend, `Promise.all` batches and subscription callbacks are
  modelled as sequential steps in arrival order. Telegram's "message is not modified" errors
  are not modelled.
- Foreign parsers: `JSON.parse`, `Number` and `parseInt` are parameters. The decoded JSON is
  reduced to the fields the decoder reads.
- Bot.EstimateTokenUsage, Bot.SpendDescription, StreamProcessing.CalculateActualTokenUsage, Bot.OnInlineQuery:
  lengths are counted in Unicode characters. JavaScript counts UTF-16 code units, so texts
  outside the Basic Multilingual Plane give different estimates and previews.
- Assistant.ProcessUpdate, Assistant.PushAgentEntry, StreamProcessing.StreamProcessor.HandleStreamUpdate,
  Bot.ProcessMessage: message content is assumed to be a string (or absent). The agent's JSON
  may hold an array or an object there; such content is not modelled: its truthiness (an
  empty array is truthy), its rendering when appended to a string (`[object Object]`) and a
  non-string reply handed to Telegram are not captured.
- JsNumbers.ToString, JsNumbers.Mul, Bot.PayloadRoundTrip, Bot.BuyTokens: numbers are exact
  integers. Double rounding above 2^53 (in `Number`, `parseInt` and `amount * pricePerToken`)
  and the exponent rendering from 1e21 on (`1e+21` in the payload) are not modelled.
- Localization.Translation: `$` patterns in a replacement string are inserted literally. In
  JavaScript they are expanded. Prototype keys of the translation object are not modelled.
- Reading the locale files (`loadTranslations`), configuration, module wiring, `main.ts`, the
  controller, and the DTOs are not part of this model. `start`, `onPreCheckoutQuery`,
  `handleUser` and the session cache of `onMessage` are not modelled either: they only chain
  calls modelled elsewhere.
- Price per token: the shown bot configuration defines no `pricePerToken`. The price is a
  parameter, and `NaN` stands for the missing value.
- The language code the bot hands to `findOrCreateUser` is not stored on creation, in the
  source as in the model, so a new user's translations use the default language.
- In `processMessage`, the thread id and the balance come from two parallel lookups and are
  parameters. The thread resolver is modelled separately in `Users`.
- The translation-key enum file is not part of this model.
  The key names stand in for its values.

## Findings

| source | as written | input that shows it | evidently intended | confidence | as-written member | corrected member |
|---|---|---|---|---|---|---|
| src/modules/bot/stream-processing.service.ts:27-28, 61, 110 | `responseMessage` and `lastSentMessage` are constant `''` passed by value. Each edit shows only the latest delta, and completion is charged on `''`. | the updates "Hel" then "lo!" with no usage report: the placeholder shows "Hel", then "lo!"; the charge is 0 | the reply accumulates. The placeholder shows "Hello!", and the fallback charge is ceil(6/4) = 2 | high (not executed) | StreamProcessing.HelloAsWrittenAndIntended | StreamProcessing.IntendedPresentsConcatenation |
| src/modules/bot/bot.service.ts:155-164 | the argument is checked with `Number` but converted with `parseInt` | `/buy_tokens .5`: `Number(".5")` is 0.5, while `parseInt(".5")` is `NaN` | reject amounts that `parseInt` cannot read, so that no invoice carries `NaN` | medium (not executed) | Bot.NaNAmountSlipsThrough | Bot.CheckedInvoiceIsNumeric |
