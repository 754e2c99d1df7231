# MultiModel AI Telegram Assistant: session and dispatch model

This project models the core of a Telegram bot that relays user messages to language models. The
repository ships the bot twice. `bot_EN.js` is the English variant, with base language `en`.
`bot.js` is the Persian variant, with base language `fa`. The two files share their structure
and line numbers, and differ only in user-facing text, in the Persian model names and in the base
language. The model is written once, parameterised by `Locale.Texts` (the base language, the
apology, the default photo prompt and the system prompt) and by the model table. The English bot
is `new SessionStore(TextsOf(English), Models(English))` and the Persian one
`new SessionStore(TextsOf(Persian), Models(Persian))`.

The modules follow the program:

- `Registry`: the model table `availableModels`, `defaultModelKey`, the fallback lookup and the
  routing rule of `getAIResponse`.
- `Conversation`: chat messages, the bounded history (push, then keep the last 20), the request
  shaping of `getGeminiResponse`, the extraction of both providers' replies, and `translateText`
  with the auto-translation rule.
- `Inbound`: incoming messages and their classification by the message handler's if-chain, the
  callback data `split('_')[1]` parsing, and which `bot.onText` handlers fire. The patterns are
  unanchored regular expressions, so a handler fires when its text occurs anywhere.
- `Keyboard`: the `/models` inline keyboard, two buttons per row.
- `Session`: the class `SessionStore`. Its fields are `userSettings` and `userChats`, plus what
  has been sent to Telegram (`outbox`) and what has been posted to the providers (`calls`). Its
  methods are the handlers.
  - The message handler is split at its provider `await`. `BeginMessage` runs up to the request,
    then the command handlers run, then `FinishMessage` runs with the reply. This is the order the
    client library gives a text that also contains a command.
  - `HandleUpdate` is one incoming message. It states the whole new state as functions of the old
    one.
- `Scenarios`: first messages and callbacks on a freshly started bot, stated for any table
  shaped like `availableModels` and either variant's texts.

Provider replies, the translator's outcome and the photo download are parameters of the methods
that consume them. Nothing about them is computed by the model.

## Model

| member | source | states |
|---|---|---|
| Registry.RegistryKeys | bot_EN.js:20-96 | the table's keys are exactly the nine declared keys, in declaration order, and the default key is among them |
| Registry.RegistryKeysDistinct | bot_EN.js:20-93 | the nine keys are pairwise distinct |
| Registry.KeysHaveNoUnderscore | bot_EN.js:20-93 | no key contains `_`, so `model_<key>` survives `split('_')[1]` |
| Registry.SoleImageEntryIsDirect | bot_EN.js:20-93 | exactly the Gemini entry takes images, and exactly it is flagged for the direct API |
| Registry.VariantsDifferOnlyInNames | bot.js:20-93 | the Persian table agrees with the English one in every field but `name` |
| Registry.VariantsAgreeOnDispatch | bot.js:188-223 | both variants route every key alike and send the same OpenRouter model id and capabilities |
| Registry.Lookup | bot_EN.js:266 | `availableModels[key]` without fallback: an entry exactly for a key of the table |
| Registry.Resolve | bot_EN.js:190 | the key's entry for a key of the table, otherwise the default entry; this is the source's `availableModels[key] \|\| availableModels[defaultModelKey]` except for inherited member names (`ResolveAgreesOffPrototype`), and the handlers only pass it stored keys, which are keys of the table (`SessionStore.Valid`) |
| Registry.ResolvedProperty | bot_EN.js:190 | the `\|\|` as JavaScript evaluates it: never `undefined`; an inherited member exactly for an inherited name outside the table; otherwise the key's own entry, or the default entry |
| Registry.PostedModelId | bot_EN.js:188-193 | the request's `model: model.id`: `undefined` exactly for an inherited name outside the table, otherwise the id of the key's entry or of the default entry |
| Registry.ResolveAgreesOffPrototype | bot_EN.js:188-193 | for a key of the table or any name not inherited from `Object.prototype`, `Resolve` and `OpenRouterModelId` give what the source's `\|\|` and `model.id` give |
| Registry.BotRoute | bot_EN.js:214-223 | the direct Gemini API is used exactly for the key `gemini-2.5-pro`; any other key, registered or not, goes to OpenRouter |
| Registry.BotModelId | bot_EN.js:188-193 | `OpenRouterModelId` is the key's own id, or the default entry's id for any other name; the source agrees except for inherited member names (`BotPostedModelId`) |
| Registry.BotPostedModelId | bot_EN.js:188-193 | with the bot's table, the request carries `model: undefined` exactly for an inherited member name, and for every other key the id `OpenRouterModelId` gives |
| Registry.ImagesOnlyReachGemini | bot_EN.js:264-271 | every key the image gate admits is routed to the direct Gemini API |
| Registry.PrototypeNamesAreNoKeys | bot_EN.js:20-93 | no member name inherited from `Object.prototype` is a key of the table |
| Registry.PropertyLookup | bot_EN.js:580 | JavaScript property access on the table: an own entry exactly for a key, undefined exactly for a name that is neither a key nor inherited |
| Conversation.AppendBounded | bot_EN.js:320-325 | the appended turn is last, the result holds between 1 and 20 turns, and when the bound is hit the oldest turn is dropped |
| Conversation.AppendAllKeepsLatest | bot_EN.js:320-325 | over any series of appends, the history is the most recent 20 turns in their original order (first in, first out) |
| Conversation.LastUserIndexIsLast | bot_EN.js:141 | `filter(role === 'user').pop()` finds the last user turn, and none only when there is none |
| Conversation.FirstSystemIndexIsFirst | bot_EN.js:152 | `find(role === 'system')` finds the first system turn, and none only when there is none |
| Conversation.GeminiPartsNeedAUserTurn | bot_EN.js:141-156 | the Gemini request can be built exactly when the messages hold a user turn |
| Conversation.GeminiSeesOnlyPromptAndLastTurn | bot_EN.js:141-167 | the direct Gemini API receives the system prompt, a blank line and the last user turn's parts; earlier history does not change the request |
| Conversation.GeminiReplyText | bot_EN.js:172-183 | the first part of the first candidate when there is one; the apology for a missing or empty candidate list, content or parts, and for a failed call |
| Conversation.OpenRouterReplyText | bot_EN.js:203-209 | the first choice's content; the apology when the call fails or there is no choice |
| Conversation.TranslateText | bot_EN.js:122-135 | the translation when the translator returns one; otherwise, with no translator or on an error, the text unchanged |
| Conversation.OutgoingText | bot_EN.js:333-343 | the reply sent differs from the provider's only when auto-translation is on, the preferred language is not the base language and the translator returned that text |
| Conversation.BaseLanguageIsNeverTranslated | bot.js:341-343 | a user whose preferred language is the base language (`fa` in bot.js) is never sent a translation |
| Inbound.Classify | bot_EN.js:255-290 | the if-chain order, each kind exactly when the earlier tests fail and its own holds: non-command text, then photo (caption or the default prompt, or a failed download), voice, document, command text, other |
| Inbound.UpToUnderscore | bot_EN.js:548 | the text before the first `_`, which is what `split('_')[1]` returns after the prefix |
| Inbound.ParseCallback | bot_EN.js:547-579 | `lang_` data is a language choice, other `model_` data a model choice, anything else nothing; the code or key carried is `split('_')[1]`: the longest `_`-free text after the prefix, which the data follows with `_` or ends at |
| Inbound.LanguageCallbackFirstField | bot_EN.js:547-562 | data with further fields, such as `lang_zh_TW`, carries only its first field, `zh` |
| Inbound.ModelCallbackRoundTrip | bot_EN.js:444-579 | `model_<key>` parses back to `key` exactly when `key` has no `_` |
| Inbound.LanguageCallbackRoundTrip | bot_EN.js:513-548 | `lang_<code>` parses back to `code` exactly when `code` has no `_` |
| Inbound.FiredByMembers | bot_EN.js:365-626 | a handler is among those a text fires exactly when its pattern occurs in the text |
| Inbound.SelectedMembers | bot_EN.js:365-626 | the handlers run are exactly the fired ones among the registered ones |
| Inbound.FiringInMembers | bot_EN.js:365-626 | a handler runs for a text exactly when it is registered and its pattern occurs in the text |
| Inbound.SelectedCommands | bot_EN.js:365-626 | the handlers run in registration order: start, help, models, model, clear, language, translate_on, translate_off |
| Inbound.ModelsAlsoFiresModel | bot_EN.js:426-473 | every text that fires `/models` also fires the unanchored `/model` |
| Inbound.PatternPrefixes | bot_EN.js:365-619 | no handler's pattern is a prefix of another's, except `/model` of `/models` |
| Inbound.OneSlashText | bot_EN.js:365-619 | in a text with a single `/`, a `/`-led pattern occurs exactly when it is a prefix of the text from there on |
| Inbound.SlashFreeTextRunsNothing | bot_EN.js:365-619 | a text without `/` runs no command handler |
| Inbound.TrailingCommandRuns | bot_EN.js:365-619 | a text whose only `/` starts a command at its end runs that handler alone; for `/models`, `/model` runs after it |
| Keyboard.ButtonsFor | bot_EN.js:436-451 | one button per key, in order, each with `model_<key>` as its callback data |
| Keyboard.BuildKeyboard | bot_EN.js:430-451 | the `i += 2` loop lays the buttons out in rows of two, the last row holding the odd one |
| Keyboard.PairsShape | bot_EN.js:436-451 | (n + 1) / 2 rows of one or two buttons, every row but the last holding two |
| Keyboard.PairsFlatten | bot_EN.js:436-451 | the rows laid end to end are exactly the buttons in key order |
| Keyboard.ModelKeyboardHasFiveRows | bot_EN.js:430-451 | the nine keys give five rows, the last holding one button |
| Keyboard.ButtonsSelectTheirModel | bot_EN.js:436-451 | pressing any button selects, through the callback parsing, the key it was made for, which is in the table |
| Session.Initialized | bot_EN.js:110-119 | an existing entry is kept; a missing one becomes the default model, no auto-translation and the base language |
| Session.InitializeIsIdempotent | bot_EN.js:110-119 | `initUserSettings` is idempotent |
| Session.UserTurn | bot_EN.js:304-318 | a text becomes a user turn whose content is that string, a photo a user turn of a text part with the prompt and an image part with the bytes |
| Session.ProviderRequestIsPosted | bot_EN.js:138-156 | the Gemini request posted for the history is the one `getGeminiResponse` builds from `[systemMessage, ...history]` |
| Session.HistoryAfterCall | bot_EN.js:145-155 | the request leaves the history unchanged except its last turn, which stays a user turn |
| Session.HistoryAfterCallEffect | bot_EN.js:145-155 | after a direct Gemini call, a photo turn holds the system part in front of its own parts, because `unshift` mutates the stored array; every other turn stays as pushed |
| Session.SettingsAfterNoInit | bot_EN.js:426-536 | handlers that do not call `initUserSettings` (`/models`, `/clear`, `/language`) leave the settings as they were |
| Session.SettingsAfterFrame | bot_EN.js:365-626 | the command handlers change no other user's entry, and create the user's entry only if one of them calls `initUserSettings` |
| Session.SettingsAfterOwnEntry | bot_EN.js:593-626 | after the handlers, the user's model and language are unchanged and `autoTranslate` is what the last toggle set |
| Session.SettingsAfterCreates | bot_EN.js:593-626 | while the user has no entry, no toggle has run |
| Session.ReplyIgnoresAutoTranslate | bot_EN.js:365-626 | no command reply depends on `autoTranslate`, so the replies are the same whichever toggles ran before |
| Session.AsWrittenGuardAdmitsInheritedName | bot_EN.js:578-581 | the guard as written, `availableModels[modelKey]` truthy, admits `model_<name>` for names inherited from `Object.prototype` |
| Session.SessionStore.constructor | bot_EN.js:15-17 | the bot starts with no settings, no histories, nothing sent or posted |
| Session.SessionStore.InitUserSettings | bot_EN.js:110-119 | creates the default entry on first use and returns the user's entry |
| Session.SessionStore.AdmitMessage | bot_EN.js:247-290 | lazy settings, classification and its notices, and the image gate: a photo for a model without image input gets the notice naming the model; a message goes on exactly when it is a text or a photo the model takes |
| Session.SessionStore.BeginMessage | bot_EN.js:243-333 | a rejected message changes no history and posts nothing; an admitted one appends its turn with the bound, posts the request for the new history, and is suspended at the provider call |
| Session.SessionStore.PushUserTurn | bot_EN.js:298-325 | the user's history becomes the bounded append of the turn, with a missing history read as empty |
| Session.SessionStore.PostRequest | bot_EN.js:327-333 | posts the routed request for the stored history and applies the `unshift` to the stored photo turn on the direct Gemini path |
| Session.SessionStore.FinishMessage | bot_EN.js:333-352 | the untranslated reply is appended to the history without trimming (so 21 turns are possible), and the reply is sent translated when the settings ask for it |
| Session.SessionStore.TurnStored | bot_EN.js:318-325 | the stored history before the reply has one turn more than the old one, up to 20, and ends in the user turn |
| Session.SessionStore.OnStart | bot_EN.js:365-385 | `/start` initialises the user and sends the welcome naming the current model |
| Session.SessionStore.OnHelp | bot_EN.js:388-423 | `/help` initialises the user and sends the guide naming the current model |
| Session.SessionStore.OnModels | bot_EN.js:426-470 | `/models` sends the keyboard of all keys without reading or creating settings |
| Session.SessionStore.OnModel | bot_EN.js:473-491 | `/model` initialises the user and sends the current model |
| Session.SessionStore.OnClear | bot_EN.js:494-502 | `/clear` empties the user's history without reading or creating settings |
| Session.SessionStore.OnLanguage | bot_EN.js:505-536 | `/language` sends the language menu without reading or creating settings |
| Session.SessionStore.OnTranslateOn | bot_EN.js:593-616 | `/translate_on` sets only `autoTranslate`, to true, and names the preferred language |
| Session.SessionStore.OnTranslateOff | bot_EN.js:619-626 | `/translate_off` sets only `autoTranslate`, to false |
| Session.SessionStore.Dispatch | bot_EN.js:365-626 | one command handler's effect on the settings, the histories and the outbox |
| Session.SessionStore.RunNext | bot_EN.js:365-626 | the next registered handler runs exactly when it fired, after the ones before it |
| Session.SessionStore.RunFired | bot_EN.js:365-626 | a fired handler runs on the settings the earlier handlers left, and its reply is the one computed from the entry read at the start |
| Session.SessionStore.RunHandlers | bot_EN.js:365-626 | the fired handlers among the given registrations run in order |
| Session.SessionStore.RunCommands | bot_EN.js:365-626 | every handler whose unanchored pattern occurs in the text runs, in registration order: the settings, the cleared history and the replies are those of that sequence |
| Session.SessionStore.OnCallback | bot_EN.js:539-590 | the corrected handler of the "## Findings" row: `lang_<code>` stores the code and sets `autoTranslate` to whether it differs from the base language; `model_<key>` stores the key and replies only when it is a key of the table (the source's guard at bot_EN.js:580 also admits inherited member names, as `Session.AsWrittenGuardAdmitsInheritedName` states); anything else only initialises the user |
| Session.SessionStore.HandleUpdate | bot_EN.js:243-362 | one message: the settings the command handlers leave, every user's history, what is sent (rejection, command replies, the possibly translated reply) and what is posted, each from the old state |
| Scenarios.DefaultIsNoGemini | bot_EN.js:96 | a user who never chose a model is served by OpenRouter with the default entry's id |
| Scenarios.FirstTextMessage | bot_EN.js:243-352 | a first text is posted as `[system, text]`; the history holds the turn and the untranslated reply; the reply is sent, or the apology when the provider fails |
| Scenarios.CommandAloneEffects | bot_EN.js:365-626 | the settings and replies of the handlers one command text runs, for a user with default settings |
| Scenarios.FirstCommand | bot_EN.js:365-626 | a first command runs its handler (and `/model` after `/models`); nothing is posted; only `/clear` creates an (empty) history |
| Scenarios.FirstTextEndingInClear | bot_EN.js:243-352 | a text ending in `/clear` is posted and also clears the history, which then holds only the reply |
| Scenarios.FirstPhotoForTextModel | bot_EN.js:264-271 | a photo for the default text-only model gets the notice naming the model, with no history and no request |
| Scenarios.BotWithChosenModel | bot_EN.js:578-589 | a keyboard choice stores the key and answers the callback |
| Scenarios.GeminiPhotoTurn | bot_EN.js:141-156 | a photo turn for the direct API is posted, and stored, as the system part, the prompt and the image |
| Scenarios.GeminiPhotoAfterChoosingModel | bot_EN.js:141-183 | after choosing the Gemini model, a photo reaches the direct API and the stored turn keeps the system part |
| Scenarios.InheritedNameCallback | bot_EN.js:578-589 | under the corrected handler of the "## Findings" row, `model_<name>` for an inherited member name is ignored: default settings, nothing sent; as written, the source's guard admits such a name and stores it (`Session.AsWrittenGuardAdmitsInheritedName`) |
| Scenarios.BotWithChosenLanguage | bot_EN.js:547-576 | a language choice stores the code and sets `autoTranslate` to whether it differs from the base language |
| Scenarios.LanguageThenText | bot.js:338-352 | after a language choice, replies are translated exactly when it is not the base language; the history keeps the untranslated reply |

## Left out

- Transport: polling, `sendChatAction`, Markdown, and the wording and emoji of every notice. Each notice is a `Reply` constructor carrying the data it shows.
- HTTP: the provider calls are recorded in `calls`, and their outcomes (`GeminiReply`, `OpenRouterReply`) are parameters.
- The Google Translate client: its outcome is the parameter `Translation`.
- Photos: the file download and base64 encoding. A photo is the bytes of its largest size, or a failed download, which the top-level `catch` answers with `ProcessingFailed`.
- Display-only data: the model descriptions, the language-name tables and the menu texts.
- Logging, `polling_error`, `SIGINT`.
- Concurrency: other updates interleaving at an `await` are not modelled. Each handler runs atomically, and the commands of a message run between its request and its reply.
- Conversation.GeminiReplyText: a Gemini part is represented by its `text`, so a part without `text` (which makes the source send `undefined`) is not represented.
- Session.SessionStore.RunCommands: the set of fired handlers is computed once from the text, rather than by each handler testing its own pattern. The two are the same, because no handler changes the text.
- The system prompt: the instruction template is the same on every request, so its exact wording only matters as `Texts.systemPrompt`.
- History: the comment at bot_EN.js:322 speaks of the last 20 messages, but only the user turn is trimmed (bot_EN.js:323-325); the assistant reply pushed at bot_EN.js:346-349 is not, so a history can hold 21 turns (`FinishMessage`, `Valid`).
- Photos: the comment at bot_EN.js:225 speaks of processing without storage, but the photo turn, base64 image included, is pushed onto the in-memory history at bot_EN.js:320 and kept there.
- System prompt: on the direct Gemini path, bot_EN.js:155 `unshift`s the system prompt text into the content of the last user turn. For a photo turn that content is the array held in the history (bot_EN.js:144-146), so the stored turn gains that text (`HistoryAfterCall`).
- Registry.Resolve: an inherited member name outside the table (`toString`, `constructor`, ...) resolves to the default entry, where the source's `||` keeps the inherited member. `ResolvedProperty` states the source's result. No stored model is such a name: the corrected `OnCallback` stores only keys of the table, and initialisation stores the default key (bot_EN.js:113).
- Registry.BotModelId: for an inherited member name the id is the default entry's, where the source posts `model: undefined` (`PostedModelId`, `BotPostedModelId`). The handlers never reach that case, for the reason given for `Registry.Resolve`.
- Conversation.OpenRouterReplyText: a choice is represented by its `message.content` string, so a choice whose content is null or missing is not represented. The source returns that value (bot_EN.js:203), stores it as the assistant turn (bot_EN.js:346-349) and sends it (bot_EN.js:352).

## Findings

| source | as written | input that shows it | evidently intended | confidence | as-written member | corrected member |
|---|---|---|---|---|---|---|
| bot_EN.js:578-581 (and bot.js:578-581) | `if (availableModels[modelKey])` is a JavaScript property read, which also finds the members every object inherits from `Object.prototype` | callback data `model_constructor` (also `model_toString`, `model_valueOf`, `model_hasOwnProperty`, ...): the guard passes and `settings.model` becomes `constructor`, which is no key of the table | only keys of the table can be selected, so every stored model is a registry key (`SessionStore.Valid`) | not executed | Session.AsWrittenGuardAdmitsInheritedName | Session.SessionStore.OnCallback |
