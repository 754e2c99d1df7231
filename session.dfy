/** The per-user session store (`userSettings`, `userChats`) and the bot's event handlers:
    the message pipeline, the command handlers and the callback handler. */
module Session {
  import opened Wrappers
  import opened Locale
  import opened Registry
  import opened Conversation
  import opened Inbound
  import opened Keyboard

  type UserId = int
  type ChatId = int

  /** `userSettings[userId]`. */
  datatype Settings = Settings(model: string, autoTranslate: bool, preferredLanguage: string)

  /** The entry `initUserSettings` creates: the default model, no auto-translation, the base language. */
  function DefaultSettings(baseLanguage: string): Settings
  {
    Settings(DefaultModelKey, false, baseLanguage)
  }

  /** The settings map after `initUserSettings(u)`: an existing entry is kept as it is. */
  function Initialized(baseLanguage: string, s: map<UserId, Settings>, u: UserId): (r: map<UserId, Settings>)
    ensures u in r && r.Keys == s.Keys + {u}
    ensures u in s ==> r == s
    ensures u !in s ==> r[u] == DefaultSettings(baseLanguage)
  {
    if u in s then s else s[u := DefaultSettings(baseLanguage)]
  }

  /** `initUserSettings` is idempotent. */
  lemma InitializeIsIdempotent(baseLanguage: string, s: map<UserId, Settings>, u: UserId)
    ensures Initialized(baseLanguage, Initialized(baseLanguage, s, u), u) == Initialized(baseLanguage, s, u)
  {
  }

  /** What the bot sends. The wording, emoji and Markdown of notices are left out; each notice
      carries the data it shows. */
  datatype Reply =
    | AssistantText(text: string)
    | ImageNotSupported(modelName: string)
    | VoiceNotSupported
    | DocumentNotSupported
    | TypeNotSupported
    | ProcessingFailed
    | Welcome(model: string)
    | HelpText(model: string)
    | ModelMenu(keyboard: seq<seq<Button>>)
    | CurrentModel(model: string)
    | HistoryCleared
    | LanguageMenu
    | TranslationOn(language: string)
    | TranslationOff
    | LanguageChosen(language: string, translationEnabled: bool)
    | ModelChosen(model: string)

  /** One outbound call to the chat platform: `sendMessage` or `answerCallbackQuery`. */
  datatype Outbound = Send(chat: ChatId, reply: Reply) | AnswerCallback(queryId: string)

  /** One request posted to a provider. */
  datatype ProviderCall =
    | GeminiCall(parts: seq<Part>)
    | OpenRouterCall(modelId: string, messages: seq<ChatMessage>)

  /** A message handler suspended at its provider call, to be resumed with the reply. */
  datatype Pending = Pending(chat: ChatId, user: UserId, route: Provider)

  /** The fields of a callback query that the bot reads. */
  datatype CallbackQuery = CallbackQuery(id: string, chat: ChatId, from: UserId, data: string)

  /** `userChats[u]`, with a missing entry read as the empty history. */
  function History(chats: map<UserId, seq<ChatMessage>>, u: UserId): seq<ChatMessage>
  {
    if u in chats then chats[u] else []
  }

  /** The user turn `messageToSend` for a text or photo message. */
  function UserTurn(k: Kind): (m: ChatMessage)
    requires k.Conversational()
    ensures m.UserMessage?
    ensures k.TextKind? ==> m == UserMessage(Text(k.text))
    ensures k.ImageKind? ==> m == UserMessage(Parts([TypedText(k.prompt), ImageUrl(k.jpeg)]))
  {
    if k.ImageKind? then UserMessage(Parts([TypedText(k.prompt), ImageUrl(k.jpeg)]))
    else UserMessage(Text(k.text))
  }

  /** `[systemMessage, ...userChats[userId]]`. */
  function Request(prompt: string, h: seq<ChatMessage>): seq<ChatMessage>
  {
    [SystemMessage(prompt)] + h
  }

  /** The request posted for the history `h`, whose last turn is the user turn being answered:
      the direct Gemini API gets the system prompt and that turn's parts only, OpenRouter gets
      the system message followed by the whole history. */
  function ProviderRequest(prompt: string, c: Catalog, key: string, h: seq<ChatMessage>): ProviderCall
    requires DefaultModelKey in c && |h| > 0 && h[|h| - 1].UserMessage?
  {
    if Route(c, key) == DirectGemini then GeminiCall([BareText(prompt + "\n\n")] + AsParts(h[|h| - 1].content))
    else OpenRouterCall(OpenRouterModelId(c, key), Request(prompt, h))
  }

  /** The Gemini request of ProviderRequest is the one getGeminiResponse builds from
      `[systemMessage, ...h]`. */
  lemma ProviderRequestIsPosted(prompt: string, c: Catalog, key: string, h: seq<ChatMessage>)
    requires DefaultModelKey in c && |h| > 0 && h[|h| - 1].UserMessage?
    ensures Route(c, key) == DirectGemini ==>
              GeminiParts(Request(prompt, h)) == Some(ProviderRequest(prompt, c, key, h).parts)
  {
    var last := h[|h| - 1];
    assert h == h[..|h| - 1] + [last];
    assert Request(prompt, h) == [SystemMessage(prompt)] + h[..|h| - 1] + [UserMessage(last.content)];
    GeminiSeesOnlyPromptAndLastTurn(prompt, h[..|h| - 1], last.content);
  }

  /** The history once the request is issued. The direct Gemini path `unshift`s the system part
      into the array content of the last user turn, and that array is the one the history holds. */
  function HistoryAfterCall(prompt: string, c: Catalog, key: string, h: seq<ChatMessage>): (r: seq<ChatMessage>)
    requires DefaultModelKey in c && |h| > 0 && h[|h| - 1].UserMessage?
    ensures |r| == |h| && r[..|h| - 1] == h[..|h| - 1] && r[|h| - 1].UserMessage?
  {
    if Route(c, key) == DirectGemini && h[|h| - 1].content.Parts? then
      h[|h| - 1 := UserMessage(Parts(ProviderRequest(prompt, c, key, h).parts))]
    else h
  }

  /** A photo turn answered through the direct Gemini API is left in the history with the system
      part in front of its own parts; every other turn is left as it was pushed. */
  lemma HistoryAfterCallEffect(prompt: string, c: Catalog, key: string, h0: seq<ChatMessage>, turn: Content)
    requires DefaultModelKey in c
    ensures HistoryAfterCall(prompt, c, key, h0 + [UserMessage(turn)])
         == if Route(c, key) == DirectGemini && turn.Parts? then
              h0 + [UserMessage(Parts([BareText(prompt + "\n\n")] + turn.parts))]
            else h0 + [UserMessage(turn)]
  {
  }

  /** The reply text the suspended handler resumes with. */
  function ReplyText(apology: string, route: Provider, gemini: GeminiReply, openRouter: OpenRouterReply): string
  {
    match route
    case DirectGemini => GeminiReplyText(apology, gemini)
    case OpenRouter => OpenRouterReplyText(apology, openRouter)
  }

  /** The notice, if any, for a message that is not passed on. */
  function Notice(chat: ChatId, k: Kind): seq<Outbound>
    requires !k.Conversational()
  {
    match k
    case PhotoFailed => [Send(chat, ProcessingFailed)]
    case VoiceKind => [Send(chat, VoiceNotSupported)]
    case DocumentKind => [Send(chat, DocumentNotSupported)]
    case CommandKind => []
    case OtherKind => [Send(chat, TypeNotSupported)]
  }

  /** Whether the message handler passes a message of kind `k` on to the provider when the
      user's model is `key`: a text, or a photo for a model that takes images. */
  predicate Admits(catalog: Catalog, key: string, k: Kind)
    requires key in catalog
  {
    k.Conversational() && (k.ImageKind? ==> ImageInput in catalog[key].capabilities)
  }

  /** What the message handler sends for a message it does not pass on: the kind's notice, or
      the notice naming the text-only model a photo was sent to. */
  function Rejection(catalog: Catalog, key: string, chat: ChatId, k: Kind): seq<Outbound>
    requires key in catalog && !Admits(catalog, key, k)
  {
    if !k.Conversational() then Notice(chat, k) else [Send(chat, ImageNotSupported(catalog[key].name))]
  }

  /** The `onText` handlers a message runs, in registration order: those whose pattern occurs
      in its text; none for a message without text. */
  function FiredFor(m: Message): seq<Command>
  {
    if Present(m.text) then FiringIn(Commands, m.text.value) else []
  }

  /** The command handlers that call `initUserSettings`. */
  predicate Initializes(c: Command)
  {
    c.StartCmd? || c.HelpCmd? || c.ModelCmd? || c.TranslateOnCmd? || c.TranslateOffCmd?
  }

  /** The settings after the handler of command `c` has run for user `u`. */
  function HandlerSettings(baseLanguage: string, c: Command, s: map<UserId, Settings>, u: UserId): map<UserId, Settings>
  {
    var init := Initialized(baseLanguage, s, u);
    match c
    case StartCmd => init
    case HelpCmd => init
    case ModelCmd => init
    case TranslateOnCmd => init[u := init[u].(autoTranslate := true)]
    case TranslateOffCmd => init[u := init[u].(autoTranslate := false)]
    case _ => s
  }

  /** The message the handler of command `c` sends; `s` is the user's settings as it reads them. */
  function HandlerReply(catalog: Catalog, c: Command, chat: ChatId, s: Settings): Outbound
    requires Complete(catalog)
  {
    match c
    case StartCmd => Send(chat, Welcome(s.model))
    case HelpCmd => Send(chat, HelpText(s.model))
    case ModelsCmd => Send(chat, ModelMenu(Pairs(ModelButtons(catalog))))
    case ModelCmd => Send(chat, CurrentModel(s.model))
    case ClearCmd => Send(chat, HistoryCleared)
    case LanguageCmd => Send(chat, LanguageMenu)
    case TranslateOnCmd => Send(chat, TranslationOn(s.preferredLanguage))
    case TranslateOffCmd => Send(chat, TranslationOff)
  }

  /** The settings after the handlers `cs` have run for user `u`, in order. */
  function SettingsAfter(baseLanguage: string, cs: seq<Command>, s: map<UserId, Settings>, u: UserId): map<UserId, Settings>
    decreases |cs|
  {
    if cs == [] then s
    else HandlerSettings(baseLanguage, cs[|cs| - 1], SettingsAfter(baseLanguage, cs[..|cs| - 1], s, u), u)
  }

  /** What the handlers `cs` send, in order; `s` is the user's settings as they read them. */
  function RepliesOf(catalog: Catalog, cs: seq<Command>, chat: ChatId, s: Settings): seq<Outbound>
    requires Complete(catalog)
    decreases |cs|
  {
    if cs == [] then []
    else RepliesOf(catalog, cs[..|cs| - 1], chat, s) + [HandlerReply(catalog, cs[|cs| - 1], chat, s)]
  }

  /** The `autoTranslate` value the last `/translate_on` or `/translate_off` among `cs` sets, if any. */
  function LastToggle(cs: seq<Command>): Option<bool>
    decreases |cs|
  {
    if cs == [] then None
    else match cs[|cs| - 1]
      case TranslateOnCmd => Some(true)
      case TranslateOffCmd => Some(false)
      case _ => LastToggle(cs[..|cs| - 1])
  }

  /** Handlers none of which calls `initUserSettings` leave the settings as they were. */
  lemma {:induction false} SettingsAfterNoInit(baseLanguage: string, cs: seq<Command>, s: map<UserId, Settings>, u: UserId)
    requires forall c | c in cs :: !Initializes(c)
    ensures SettingsAfter(baseLanguage, cs, s, u) == s
    decreases |cs|
  {
    if cs != [] {
      var prefix := cs[..|cs| - 1];
      assert forall c | c in prefix :: c in cs;
      assert !Initializes(cs[|cs| - 1]);
      SettingsAfterNoInit(baseLanguage, prefix, s, u);
    }
  }

  /** Running handlers changes no other user's entry, and the user has an entry afterwards exactly
      when one was there before or one of the handlers calls `initUserSettings`. */
  lemma {:induction false} SettingsAfterFrame(baseLanguage: string, cs: seq<Command>, s: map<UserId, Settings>, u: UserId)
    ensures var r := SettingsAfter(baseLanguage, cs, s, u);
            && (forall v | v != u :: (v in r <==> v in s) && (v in r ==> r[v] == s[v]))
            && (u in r <==> u in s || exists c | c in cs :: Initializes(c))
    decreases |cs|
  {
    if cs != [] {
      var prefix, c := cs[..|cs| - 1], cs[|cs| - 1];
      assert cs == prefix + [c];
      assert forall d | d in cs :: d in prefix || d == c;
      assert forall d | d in prefix :: d in cs;
      SettingsAfterFrame(baseLanguage, prefix, s, u);
      if Initializes(c) {
        assert c in cs;
      } else {
        assert SettingsAfter(baseLanguage, cs, s, u) == SettingsAfter(baseLanguage, prefix, s, u);
      }
    }
  }

  /** The user's entry after running handlers keeps the model and language it had (or the
      defaults), and its `autoTranslate` is the one the last toggle set. */
  lemma {:induction false} SettingsAfterOwnEntry(baseLanguage: string, cs: seq<Command>, s: map<UserId, Settings>, u: UserId)
    ensures var r := SettingsAfter(baseLanguage, cs, s, u);
            var init := Initialized(baseLanguage, s, u)[u];
            u in r ==> r[u] == init.(autoTranslate := LastToggle(cs).GetOr(init.autoTranslate))
    decreases |cs|
  {
    if cs != [] {
      var prefix, c := cs[..|cs| - 1], cs[|cs| - 1];
      SettingsAfterOwnEntry(baseLanguage, prefix, s, u);
      var r0 := SettingsAfter(baseLanguage, prefix, s, u);
      if u !in r0 {
        SettingsAfterFrame(baseLanguage, prefix, s, u);
        SettingsAfterCreates(baseLanguage, prefix, s, u);
      }
    }
  }

  /** Before any handler that calls `initUserSettings`, no toggle has run. */
  lemma {:induction false} SettingsAfterCreates(baseLanguage: string, cs: seq<Command>, s: map<UserId, Settings>, u: UserId)
    requires u !in SettingsAfter(baseLanguage, cs, s, u)
    ensures LastToggle(cs).None? && u !in s
    decreases |cs|
  {
    if cs != [] {
      var prefix, c := cs[..|cs| - 1], cs[|cs| - 1];
      SettingsAfterCreates(baseLanguage, prefix, s, u);
    }
  }

  lemma SettingsAfterSnoc(baseLanguage: string, cs: seq<Command>, c: Command, s: map<UserId, Settings>, u: UserId)
    ensures SettingsAfter(baseLanguage, cs + [c], s, u) == HandlerSettings(baseLanguage, c, SettingsAfter(baseLanguage, cs, s, u), u)
  {
    assert (cs + [c])[..|cs|] == cs;
  }

  lemma RepliesOfSnoc(catalog: Catalog, cs: seq<Command>, c: Command, chat: ChatId, s: Settings)
    requires Complete(catalog)
    ensures RepliesOf(catalog, cs + [c], chat, s) == RepliesOf(catalog, cs, chat, s) + [HandlerReply(catalog, c, chat, s)]
  {
    assert (cs + [c])[..|cs|] == cs;
  }

  /** A handler's reply does not depend on `autoTranslate`. */
  lemma ReplyIgnoresAutoTranslate(catalog: Catalog, c: Command, chat: ChatId, a: Settings, b: Settings)
    requires Complete(catalog)
    requires a.(autoTranslate := false) == b.(autoTranslate := false)
    ensures HandlerReply(catalog, c, chat, a) == HandlerReply(catalog, c, chat, b)
  {
    assert a.model == b.model && a.preferredLanguage == b.preferredLanguage;
  }

  /** The `model_` guard as written: `availableModels[modelKey]` is truthy. */
  predicate AsWrittenModelGuard(c: Catalog, data: string)
  {
    var action := ParseCallback(data);
    action.ModelChoice? && IsTruthy(PropertyLookup(c, action.key))
  }

  /** The guard as written admits `model_<name>` for every member name inherited from
      `Object.prototype` that has no `_` and is no key of the table (`constructor`, `toString`,
      `valueOf`, ...; for the bot's table `PrototypeNamesAreNoKeys` and `RegistryKeys` give the
      second condition): the source would store that name as the user's model. */
  lemma AsWrittenGuardAdmitsInheritedName(c: Catalog, name: string)
    requires name in ObjectPrototypeNames && '_' !in name && name !in c
    ensures ParseCallback("model_" + name) == ModelChoice(name)
    ensures AsWrittenModelGuard(c, "model_" + name)
  {
    ModelCallbackRoundTrip(name);
  }

  /** The in-memory state of the bot, and its handlers. `outbox` records what is sent to the chat
      platform, `calls` what is posted to the providers. */
  class SessionStore {
    /** The texts of the bot's variant. */
    const texts: Texts
    /** The bot's `availableModels`. */
    const registry: Catalog
    var settings: map<UserId, Settings>
    var chats: map<UserId, seq<ChatMessage>>
    var outbox: seq<Outbound>
    var calls: seq<ProviderCall>

    /** The table holds every declared key, every stored model key is one of its keys, and no
        history exceeds one past the bound (the assistant append is not trimmed). */
    ghost predicate Valid()
      reads this
    {
      && Complete(registry)
      && (forall u | u in settings :: settings[u].model in registry)
      && (forall u | u in chats :: |chats[u]| <= HistoryLimit + 1)
    }

    /** The state at start-up: no users, no histories, nothing sent. The bot of a variant `v` is
        `new SessionStore(TextsOf(v), Models(v))`, which meets the requirement by `RegistryKeys`. */
    constructor (t: Texts, c: Catalog)
      requires Complete(c)
      ensures Valid() && texts == t && registry == c
      ensures settings == map[] && chats == map[] && outbox == [] && calls == []
    {
      texts := t;
      registry := c;
      settings := map[];
      chats := map[];
      outbox := [];
      calls := [];
    }

    /** `initUserSettings(userId)`: creates the default entry on first use, returns the entry. */
    method InitUserSettings(u: UserId) returns (s: Settings)
      requires Valid()
      modifies this`settings
      ensures Valid()
      ensures settings == Initialized(texts.baseLanguage, old(settings), u) && s == settings[u]
    {
      if u !in settings {
        settings := settings[u := DefaultSettings(texts.baseLanguage)];
      }
      s := settings[u];
    }

    /** The message handler up to its provider call: lazy settings, classification, the image
        gate, the bounded user-turn append and the request. Voice, document, command, other and
        failed-photo messages, and photos for a text-only model, stop here with their notice,
        without any history change or provider call. */
    method BeginMessage(m: Message) returns (p: Option<Pending>)
      requires Valid()
      modifies this`settings, this`chats, this`outbox, this`calls
      ensures Valid()
      ensures settings == Initialized(texts.baseLanguage, old(settings), m.from)
      ensures p.Some? <==> Admits(registry, settings[m.from].model, Classify(texts.imagePrompt, m))
      ensures p.None? ==>
                && chats == old(chats) && calls == old(calls)
                && outbox == old(outbox) + Rejection(registry, settings[m.from].model, m.chat, Classify(texts.imagePrompt, m))
      ensures p.Some? ==> p.value == Pending(m.chat, m.from, Route(registry, settings[m.from].model)) && outbox == old(outbox)
      ensures p.Some? ==>
                calls == old(calls) + [ProviderRequest(texts.systemPrompt, registry, settings[m.from].model,
                                                       AppendBounded(History(old(chats), m.from), UserTurn(Classify(texts.imagePrompt, m))))]
      ensures p.Some? ==>
                chats == old(chats)[m.from := HistoryAfterCall(texts.systemPrompt, registry, settings[m.from].model,
                                                               AppendBounded(History(old(chats), m.from), UserTurn(Classify(texts.imagePrompt, m))))]
    {
      var kind, key, admitted := AdmitMessage(m);
      if !admitted {
        return None;
      }
      var history := PushUserTurn(m.from, UserTurn(kind));
      var route := PostRequest(m.from, key, history);
      p := Some(Pending(m.chat, m.from, route));
    }

    /** The message handler's checks before the history is touched: lazy settings, the
        classification and its notices, and the image gate. `admitted` is whether the message
        goes on to the history and the provider; `key` is the user's model. */
    method AdmitMessage(m: Message) returns (kind: Kind, key: string, admitted: bool)
      requires Valid()
      modifies this`settings, this`outbox
      ensures Valid()
      ensures settings == Initialized(texts.baseLanguage, old(settings), m.from)
      ensures kind == Classify(texts.imagePrompt, m) && key == settings[m.from].model
      ensures admitted <==> Admits(registry, key, kind)
      ensures outbox == old(outbox) + if admitted then [] else Rejection(registry, key, m.chat, kind)
    {
      var s := InitUserSettings(m.from);
      key := s.model;
      kind := Classify(texts.imagePrompt, m);
      if !kind.Conversational() {
        outbox := outbox + Notice(m.chat, kind);
        return kind, key, false;
      }
      if kind.ImageKind? {
        // no fallback here: the lookup is safe because every stored key is a registry key
        var model := registry[key];
        if ImageInput !in model.capabilities {
          outbox := outbox + [Send(m.chat, ImageNotSupported(model.name))];
          return kind, key, false;
        }
      }
      admitted := true;
    }

    /** The user-turn push of the message handler: `push`, then the trim to the last 20. */
    method PushUserTurn(u: UserId, turn: ChatMessage) returns (history: seq<ChatMessage>)
      requires Valid()
      modifies this`chats
      ensures Valid()
      ensures history == AppendBounded(History(old(chats), u), turn)
      ensures chats == old(chats)[u := history]
    {
      history := if u in chats then chats[u] else [];
      history := history + [turn];
      if |history| > HistoryLimit {
        history := history[|history| - HistoryLimit..];
      }
      chats := chats[u := history];
    }

    /** `getAIResponse(userChats[userId], model)` up to the provider's reply: posts the request for
        the stored history, whose last turn is the new user turn. On the direct Gemini path the
        system part is `unshift`ed into that turn's content array, which the history holds. */
    method PostRequest(u: UserId, key: string, history: seq<ChatMessage>) returns (route: Provider)
      requires Valid() && u in chats && chats[u] == history
      requires |history| > 0 && history[|history| - 1].UserMessage?
      modifies this`chats, this`calls
      ensures Valid()
      ensures route == Route(registry, key)
      ensures calls == old(calls) + [ProviderRequest(texts.systemPrompt, registry, key, history)]
      ensures chats == old(chats)[u := HistoryAfterCall(texts.systemPrompt, registry, key, history)]
    {
      var messages := [SystemMessage(texts.systemPrompt)] + history;
      route := Route(registry, key);
      if route == DirectGemini {
        ProviderRequestIsPosted(texts.systemPrompt, registry, key, history);
        var parts := GeminiParts(messages).value;
        calls := calls + [GeminiCall(parts)];
        var last := history[|history| - 1];
        if last.content.Parts? {
          // `content.unshift` mutated the array that the history's last turn holds
          chats := chats[u := history[|history| - 1 := UserMessage(Parts(parts))]];
        }
      } else {
        calls := calls + [OpenRouterCall(OpenRouterModelId(registry, key), messages)];
      }
    }

    /** The message handler after the provider replied: translation when enabled, the untrimmed
        append of the untranslated reply, and the send of the possibly translated one. */
    method FinishMessage(p: Pending, gemini: GeminiReply, openRouter: OpenRouterReply, translator: Translation)
      requires Valid() && p.user in settings && |History(chats, p.user)| <= HistoryLimit
      modifies this`chats, this`outbox
      ensures Valid()
      ensures var ai := ReplyText(texts.apology, p.route, gemini, openRouter);
              var s := settings[p.user];
              && chats == old(chats)[p.user := History(old(chats), p.user) + [AssistantMessage(ai)]]
              && outbox == old(outbox)
                 + [Send(p.chat, AssistantText(OutgoingText(texts.baseLanguage, s.autoTranslate, s.preferredLanguage, ai, translator)))]
    {
      var ai := if p.route == DirectGemini then GeminiReplyText(texts.apology, gemini)
                else OpenRouterReplyText(texts.apology, openRouter);
      var s := settings[p.user];
      var final := ai;
      if s.autoTranslate && s.preferredLanguage != texts.baseLanguage {
        final := TranslateText(ai, translator);
      }
      var history := if p.user in chats then chats[p.user] else [];
      chats := chats[p.user := history + [AssistantMessage(ai)]];
      outbox := outbox + [Send(p.chat, AssistantText(final))];
    }

    /** `/start`. */
    method OnStart(m: Message)
      requires Valid()
      modifies this`settings, this`outbox
      ensures Valid()
      ensures settings == Initialized(texts.baseLanguage, old(settings), m.from)
      ensures outbox == old(outbox) + [Send(m.chat, Welcome(settings[m.from].model))]
    {
      var s := InitUserSettings(m.from);
      outbox := outbox + [Send(m.chat, Welcome(s.model))];
    }

    /** `/help`. */
    method OnHelp(m: Message)
      requires Valid()
      modifies this`settings, this`outbox
      ensures Valid()
      ensures settings == Initialized(texts.baseLanguage, old(settings), m.from)
      ensures outbox == old(outbox) + [Send(m.chat, HelpText(settings[m.from].model))]
    {
      var s := InitUserSettings(m.from);
      outbox := outbox + [Send(m.chat, HelpText(s.model))];
    }

    /** `/models`: the keyboard of all registry keys; settings are not read. */
    method OnModels(m: Message)
      requires Valid()
      modifies this`outbox
      ensures outbox == old(outbox) + [Send(m.chat, ModelMenu(Pairs(ModelButtons(registry))))]
    {
      var keyboard := BuildKeyboard(registry, ModelKeys);
      outbox := outbox + [Send(m.chat, ModelMenu(keyboard))];
    }

    /** `/model`. */
    method OnModel(m: Message)
      requires Valid()
      modifies this`settings, this`outbox
      ensures Valid()
      ensures settings == Initialized(texts.baseLanguage, old(settings), m.from)
      ensures outbox == old(outbox) + [Send(m.chat, CurrentModel(settings[m.from].model))]
    {
      var s := InitUserSettings(m.from);
      outbox := outbox + [Send(m.chat, CurrentModel(s.model))];
    }

    /** `/clear`: the user's history becomes empty; settings are neither read nor created. */
    method OnClear(m: Message)
      requires Valid()
      modifies this`chats, this`outbox
      ensures Valid()
      ensures chats == old(chats)[m.from := []]
      ensures outbox == old(outbox) + [Send(m.chat, HistoryCleared)]
    {
      chats := chats[m.from := []];
      outbox := outbox + [Send(m.chat, HistoryCleared)];
    }

    /** `/language`: the language menu; settings are not read. */
    method OnLanguage(m: Message)
      modifies this`outbox
      ensures outbox == old(outbox) + [Send(m.chat, LanguageMenu)]
    {
      outbox := outbox + [Send(m.chat, LanguageMenu)];
    }

    /** `/translate_on`: sets only `autoTranslate`, to true. */
    method OnTranslateOn(m: Message)
      requires Valid()
      modifies this`settings, this`outbox
      ensures Valid()
      ensures var init := Initialized(texts.baseLanguage, old(settings), m.from);
              settings == init[m.from := init[m.from].(autoTranslate := true)]
      ensures outbox == old(outbox) + [Send(m.chat, TranslationOn(settings[m.from].preferredLanguage))]
    {
      var s := InitUserSettings(m.from);
      settings := settings[m.from := s.(autoTranslate := true)];
      outbox := outbox + [Send(m.chat, TranslationOn(s.preferredLanguage))];
    }

    /** `/translate_off`: sets only `autoTranslate`, to false. */
    method OnTranslateOff(m: Message)
      requires Valid()
      modifies this`settings, this`outbox
      ensures Valid()
      ensures var init := Initialized(texts.baseLanguage, old(settings), m.from);
              settings == init[m.from := init[m.from].(autoTranslate := false)]
      ensures outbox == old(outbox) + [Send(m.chat, TranslationOff)]
    {
      var s := InitUserSettings(m.from);
      settings := settings[m.from := s.(autoTranslate := false)];
      outbox := outbox + [Send(m.chat, TranslationOff)];
    }

    /** One `bot.onText` handler, run because its pattern occurs in the text. */
    method Dispatch(c: Command, m: Message)
      requires Valid()
      modifies this`settings, this`chats, this`outbox
      ensures Valid()
      ensures settings == HandlerSettings(texts.baseLanguage, c, old(settings), m.from)
      ensures chats == if c == ClearCmd then old(chats)[m.from := []] else old(chats)
      ensures outbox == old(outbox)
        + [HandlerReply(registry, c, m.chat, Initialized(texts.baseLanguage, old(settings), m.from)[m.from])]
    {
      match c
      case StartCmd => OnStart(m);
      case HelpCmd => OnHelp(m);
      case ModelsCmd => OnModels(m);
      case ModelCmd => OnModel(m);
      case ClearCmd => OnClear(m);
      case LanguageCmd => OnLanguage(m);
      case TranslateOnCmd => OnTranslateOn(m);
      case TranslateOffCmd => OnTranslateOff(m);
    }

    /** The handler `c` after the handlers `done`: run when it is among the fired ones. */
    method RunNext(m: Message, fired: set<Command>, ghost done: seq<Command>, c: Command, ghost s0: map<UserId, Settings>,
                   ghost read: Settings, ghost c0: map<UserId, seq<ChatMessage>>, ghost o0: seq<Outbound>)
      requires Valid() && read == Initialized(texts.baseLanguage, s0, m.from)[m.from]
      requires settings == SettingsAfter(texts.baseLanguage, Selected(done, fired), s0, m.from)
      requires chats == if ClearCmd in Selected(done, fired) then c0[m.from := []] else c0
      requires outbox == o0 + RepliesOf(registry, Selected(done, fired), m.chat, read)
      modifies this`settings, this`chats, this`outbox
      ensures Valid()
      ensures settings == SettingsAfter(texts.baseLanguage, Selected(done + [c], fired), s0, m.from)
      ensures chats == if ClearCmd in Selected(done + [c], fired) then c0[m.from := []] else c0
      ensures outbox == o0 + RepliesOf(registry, Selected(done + [c], fired), m.chat, read)
    {
      ghost var before := Selected(done, fired);
      SelectedSnoc(done, c, fired);
      if c in fired {
        RunFired(m, before, c, s0, read, c0, o0);
      } else {
        assert before + [] == before;
      }
    }

    /** The fired handler `c`, after the fired handlers `before` have run. */
    method RunFired(m: Message, ghost before: seq<Command>, c: Command, ghost s0: map<UserId, Settings>,
                    ghost read: Settings, ghost c0: map<UserId, seq<ChatMessage>>, ghost o0: seq<Outbound>)
      requires Valid() && read == Initialized(texts.baseLanguage, s0, m.from)[m.from]
      requires settings == SettingsAfter(texts.baseLanguage, before, s0, m.from)
      requires chats == if ClearCmd in before then c0[m.from := []] else c0
      requires outbox == o0 + RepliesOf(registry, before, m.chat, read)
      modifies this`settings, this`chats, this`outbox
      ensures Valid()
      ensures settings == SettingsAfter(texts.baseLanguage, before + [c], s0, m.from)
      ensures chats == if ClearCmd in before + [c] then c0[m.from := []] else c0
      ensures outbox == o0 + RepliesOf(registry, before + [c], m.chat, read)
    {
      SettingsAfterSnoc(texts.baseLanguage, before, c, s0, m.from);
      RepliesOfSnoc(registry, before, c, m.chat, read);
      SettingsAfterFrame(texts.baseLanguage, before, s0, m.from);
      SettingsAfterOwnEntry(texts.baseLanguage, before, s0, m.from);
      ReplyIgnoresAutoTranslate(registry, c, m.chat, Initialized(texts.baseLanguage, settings, m.from)[m.from], read);
      Dispatch(c, m);
    }

    /** The `bot.onText` handlers for a message with text: every handler whose unanchored pattern
        occurs in the text runs, in registration order, each reading the settings the previous
        ones left. */
    method RunCommands(m: Message)
      requires Valid() && Present(m.text)
      modifies this`settings, this`chats, this`outbox
      ensures Valid()
      ensures settings == SettingsAfter(texts.baseLanguage, FiringIn(Commands, m.text.value), old(settings), m.from)
      ensures chats == if ClearCmd in FiringIn(Commands, m.text.value) then old(chats)[m.from := []] else old(chats)
      ensures outbox == old(outbox)
        + RepliesOf(registry, FiringIn(Commands, m.text.value), m.chat, Initialized(texts.baseLanguage, old(settings), m.from)[m.from])
    {
      var fired := FiredBy(m.text.value);
      RunHandlers(m, fired, Commands);
    }

    /** The handlers of `cs` that are in `fired`, in the order of `cs`. */
    method RunHandlers(m: Message, fired: set<Command>, cs: seq<Command>)
      requires Valid()
      modifies this`settings, this`chats, this`outbox
      ensures Valid()
      ensures settings == SettingsAfter(texts.baseLanguage, Selected(cs, fired), old(settings), m.from)
      ensures chats == if ClearCmd in Selected(cs, fired) then old(chats)[m.from := []] else old(chats)
      ensures outbox == old(outbox)
        + RepliesOf(registry, Selected(cs, fired), m.chat, Initialized(texts.baseLanguage, old(settings), m.from)[m.from])
      decreases |cs|
    {
      if cs != [] {
        var done, c := cs[..|cs| - 1], cs[|cs| - 1];
        RunHandlers(m, fired, done);
        assert cs == done + [c];
        RunNext(m, fired, done, c, old(settings), Initialized(texts.baseLanguage, old(settings), m.from)[m.from],
                old(chats), old(outbox));
      }
    }

    /** The `callback_query` handler. `lang_<code>` stores the code and sets `autoTranslate` to
        whether it differs from the base language; `model_<key>` stores a registry key and is
        otherwise ignored, without a reply or a callback answer. */
    method OnCallback(q: CallbackQuery)
      requires Valid()
      modifies this`settings, this`outbox
      ensures Valid()
      ensures var init := Initialized(texts.baseLanguage, old(settings), q.from);
              var before := init[q.from];
              match ParseCallback(q.data)
              case LanguageChoice(code) =>
                var on := code != texts.baseLanguage;
                && settings == init[q.from := before.(preferredLanguage := code, autoTranslate := on)]
                && outbox == old(outbox) + [Send(q.chat, LanguageChosen(code, on)), AnswerCallback(q.id)]
              case ModelChoice(key) =>
                if key in registry then
                  && settings == init[q.from := before.(model := key)]
                  && outbox == old(outbox) + [Send(q.chat, ModelChosen(key)), AnswerCallback(q.id)]
                else settings == init && outbox == old(outbox)
              case OtherCallback => settings == init && outbox == old(outbox)
    {
      var s := InitUserSettings(q.from);
      var action := ParseCallback(q.data);
      if action.LanguageChoice? {
        var on := action.code != texts.baseLanguage;
        settings := settings[q.from := s.(preferredLanguage := action.code, autoTranslate := on)];
        outbox := outbox + [Send(q.chat, LanguageChosen(action.code, on)), AnswerCallback(q.id)];
      } else if action.ModelChoice? {
        if action.key in registry {
          settings := settings[q.from := s.(model := action.key)];
          outbox := outbox + [Send(q.chat, ModelChosen(action.key)), AnswerCallback(q.id)];
        }
      }
    }

    /** The model key the message handler reads for `u` from the settings `s`. */
    function KeyFor(s: map<UserId, Settings>, u: UserId): string
    {
      Initialized(texts.baseLanguage, s, u)[u].model
    }

    /** Whether the message handler, reading the settings `s`, passes `m` on to a provider. */
    predicate Passes(s: map<UserId, Settings>, m: Message)
      requires KeyFor(s, m.from) in registry
    {
      Admits(registry, KeyFor(s, m.from), Classify(texts.imagePrompt, m))
    }

    /** The history the message handler leaves for `m` before the reply arrives: the bounded
        append of its turn, as the request left it. */
    function TurnStored(s: map<UserId, Settings>, h: seq<ChatMessage>, m: Message): (r: seq<ChatMessage>)
      requires DefaultModelKey in registry && Classify(texts.imagePrompt, m).Conversational()
      ensures |r| == if |h| < HistoryLimit then |h| + 1 else HistoryLimit
      ensures |h| < HistoryLimit ==> r[..|h|] == h
      ensures r[|r| - 1].UserMessage?
    {
      HistoryAfterCall(texts.systemPrompt, registry, KeyFor(s, m.from), AppendBounded(h, UserTurn(Classify(texts.imagePrompt, m))))
    }

    /** The request posted for `m`. */
    function RequestFor(s: map<UserId, Settings>, h: seq<ChatMessage>, m: Message): ProviderCall
      requires DefaultModelKey in registry && Classify(texts.imagePrompt, m).Conversational()
    {
      ProviderRequest(texts.systemPrompt, registry, KeyFor(s, m.from), AppendBounded(h, UserTurn(Classify(texts.imagePrompt, m))))
    }

    /** One incoming message, as the client library dispatches it: the `message` handler runs
        up to its first suspension (the provider call), then every `onText` handler whose pattern
        occurs in the text, then the `message` handler resumes with the provider's reply, reading
        the settings as the command handlers left them. */
    method HandleUpdate(m: Message, gemini: GeminiReply, openRouter: OpenRouterReply, translator: Translation)
      requires Valid()
      modifies this`settings, this`chats, this`outbox, this`calls
      ensures Valid()
      ensures settings == SettingsAfter(texts.baseLanguage, FiredFor(m), Initialized(texts.baseLanguage, old(settings), m.from), m.from)
      ensures m.from in settings
      ensures forall v | v != m.from :: (v in chats <==> v in old(chats)) && (v in chats ==> chats[v] == old(chats)[v])
      ensures !Passes(old(settings), m) ==>
                chats == if ClearCmd in FiredFor(m) then old(chats)[m.from := []] else old(chats)
      ensures Passes(old(settings), m) ==>
                && m.from in chats
                && chats[m.from] == (if ClearCmd in FiredFor(m) then [] else TurnStored(old(settings), History(old(chats), m.from), m))
                                    + [AssistantMessage(ReplyText(texts.apology, Route(registry, KeyFor(old(settings), m.from)), gemini, openRouter))]
      ensures !Passes(old(settings), m) ==>
                outbox == old(outbox) + Rejection(registry, KeyFor(old(settings), m.from), m.chat, Classify(texts.imagePrompt, m))
                          + RepliesOf(registry, FiredFor(m), m.chat, Initialized(texts.baseLanguage, old(settings), m.from)[m.from])
      ensures Passes(old(settings), m) ==>
                outbox == old(outbox)
                          + RepliesOf(registry, FiredFor(m), m.chat, Initialized(texts.baseLanguage, old(settings), m.from)[m.from])
                          + [Send(m.chat, AssistantText(OutgoingText(texts.baseLanguage, settings[m.from].autoTranslate, settings[m.from].preferredLanguage,
                                                                     ReplyText(texts.apology, Route(registry, KeyFor(old(settings), m.from)), gemini, openRouter),
                                                                     translator)))]
      ensures calls == old(calls) + if Passes(old(settings), m) then [RequestFor(old(settings), History(old(chats), m.from), m)] else []
    {
      var p := BeginMessage(m);
      ghost var s1, c1, o1 := settings, chats, outbox;
      if Present(m.text) {
        RunCommands(m);
      } else {
        assert outbox == o1 + RepliesOf(registry, FiredFor(m), m.chat, s1[m.from]);
      }
      SettingsAfterFrame(texts.baseLanguage, FiredFor(m), s1, m.from);
      if p.Some? {
        FinishMessage(p.value, gemini, openRouter, translator);
      }
    }
  }
}
