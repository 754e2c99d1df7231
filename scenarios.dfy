/** End-to-end runs of a freshly started bot, for any table shaped like `availableModels` and
    any variant's texts: what a first message or callback leaves in the store. */
module Scenarios {
  import opened Wrappers
  import opened Locale
  import opened Registry
  import opened Conversation
  import opened Inbound
  import opened Keyboard
  import opened Session

  /** A text message. */
  function TextMessage(chat: ChatId, u: UserId, text: string): Message
  {
    Message(chat, u, Some(text), None, None, false, false)
  }

  /** The default key is not the Gemini key, so a user who never chose a model is served by
      OpenRouter with the default entry's model id. */
  lemma DefaultIsNoGemini(c: Catalog)
    requires DefaultModelKey in c
    ensures Route(c, DefaultModelKey) == OpenRouter && OpenRouterModelId(c, DefaultModelKey) == c[DefaultModelKey].id
  {
    assert DefaultModelKey[0] != GeminiKey[0];
  }

  /** A first text without `/` is sent to the default model through OpenRouter with the system
      message in front; the history holds the turn and the untranslated reply, which is also what
      the user is sent (or the apology when the provider fails). */
  method FirstTextMessage(t: Texts, c: Catalog, u: UserId, chat: ChatId, text: string, reply: OpenRouterReply)
    returns (history: seq<ChatMessage>, sent: seq<Outbound>, posted: seq<ProviderCall>)
    requires Complete(c) && text != "" && '/' !in text
    ensures history == [UserMessage(Text(text)), AssistantMessage(OpenRouterReplyText(t.apology, reply))]
    ensures sent == [Send(chat, AssistantText(OpenRouterReplyText(t.apology, reply)))]
    ensures reply.OpenRouterFailed? ==> sent == [Send(chat, AssistantText(t.apology))]
    ensures posted == [OpenRouterCall(c[DefaultModelKey].id, [SystemMessage(t.systemPrompt), UserMessage(Text(text))])]
  {
    var bot := new SessionStore(t, c);
    var m := TextMessage(chat, u, text);
    SlashFreeTextRunsNothing(text);
    DefaultIsNoGemini(c);
    assert AppendBounded([], UserMessage(Text(text))) == [UserMessage(Text(text))];
    assert Classify(t.imagePrompt, m) == TextKind(text);
    assert bot.KeyFor(bot.settings, u) == DefaultModelKey;
    assert bot.Passes(bot.settings, m);
    assert bot.RequestFor(bot.settings, [], m)
        == OpenRouterCall(c[DefaultModelKey].id, [SystemMessage(t.systemPrompt), UserMessage(Text(text))]);
    bot.HandleUpdate(m, GeminiFailed, reply, NotConfigured);
    history := bot.chats[u];
    sent := bot.outbox;
    posted := bot.calls;
  }

  /** The handlers a text consisting of the command `cmd` runs. */
  function RunFor(cmd: Command): seq<Command>
  {
    if cmd == ModelsCmd then [ModelsCmd, ModelCmd] else [cmd]
  }

  /** What those handlers do to a user who has just been given the default settings. */
  lemma CommandAloneEffects(baseLanguage: string, c: Catalog, u: UserId, chat: ChatId, cmd: Command)
    requires Complete(c)
    ensures SettingsAfter(baseLanguage, RunFor(cmd), map[u := DefaultSettings(baseLanguage)], u)
         == map[u := DefaultSettings(baseLanguage).(autoTranslate := cmd == TranslateOnCmd)]
    ensures ClearCmd in RunFor(cmd) <==> cmd == ClearCmd
    ensures cmd != ModelsCmd ==> RepliesOf(c, RunFor(cmd), chat, DefaultSettings(baseLanguage)) == [HandlerReply(c, cmd, chat, DefaultSettings(baseLanguage))]
    ensures cmd == ModelsCmd ==> RepliesOf(c, RunFor(cmd), chat, DefaultSettings(baseLanguage))
                                 == [Send(chat, ModelMenu(Pairs(ModelButtons(c)))), Send(chat, CurrentModel(DefaultModelKey))]
  {
    if cmd == ModelsCmd {
      var first := [ModelsCmd];
      assert RunFor(cmd)[..1] == first && first[..0] == [];
      var s := map[u := DefaultSettings(baseLanguage)];
      assert SettingsAfter(baseLanguage, first, s, u) == s;
      assert RepliesOf(c, first, chat, DefaultSettings(baseLanguage)) == [Send(chat, ModelMenu(Pairs(ModelButtons(c))))];
    } else {
      assert RunFor(cmd)[..0] == [];
    }
  }

  /** A first message that is exactly a command runs that command's handler (`/models` also runs
      `/model`), with the default settings the message handler has just created; nothing is
      posted, and only `/clear` creates a (empty) history. */
  method FirstCommand(t: Texts, c: Catalog, u: UserId, chat: ChatId, cmd: Command)
    returns (settings: map<UserId, Settings>, chats: map<UserId, seq<ChatMessage>>, sent: seq<Outbound>, posted: seq<ProviderCall>)
    requires Complete(c)
    ensures settings == map[u := DefaultSettings(t.baseLanguage).(autoTranslate := cmd == TranslateOnCmd)]
    ensures chats == if cmd == ClearCmd then map[u := []] else map[]
    ensures cmd != ModelsCmd ==> sent == [HandlerReply(c, cmd, chat, DefaultSettings(t.baseLanguage))]
    ensures cmd == ModelsCmd ==> sent == [Send(chat, ModelMenu(Pairs(ModelButtons(c)))), Send(chat, CurrentModel(DefaultModelKey))]
    ensures posted == []
  {
    var bot := new SessionStore(t, c);
    var m := TextMessage(chat, u, Pattern(cmd));
    PatternShape(cmd);
    TrailingCommandRuns("", cmd);
    assert "" + Pattern(cmd) == Pattern(cmd);
    assert Classify(t.imagePrompt, m) == CommandKind;
    CommandAloneEffects(t.baseLanguage, c, u, chat, cmd);
    assert Initialized(t.baseLanguage, map[], u) == map[u := DefaultSettings(t.baseLanguage)];
    bot.HandleUpdate(m, GeminiFailed, OpenRouterFailed, NotConfigured);
    settings := bot.settings;
    chats := bot.chats;
    sent := bot.outbox;
    posted := bot.calls;
  }

  /** A first text that ends in `/clear`, with no other `/`, is both a conversational message and
      a `/clear` command: the history is cleared after the turn is posted, so only the reply is left. */
  method FirstTextEndingInClear(t: Texts, c: Catalog, u: UserId, chat: ChatId, w: string, reply: OpenRouterReply)
    returns (history: seq<ChatMessage>, sent: seq<Outbound>, posted: seq<ProviderCall>)
    requires Complete(c) && w != "" && '/' !in w
    ensures history == [AssistantMessage(OpenRouterReplyText(t.apology, reply))]
    ensures sent == [Send(chat, HistoryCleared), Send(chat, AssistantText(OpenRouterReplyText(t.apology, reply)))]
    ensures posted == [OpenRouterCall(c[DefaultModelKey].id, [SystemMessage(t.systemPrompt), UserMessage(Text(w + "/clear"))])]
  {
    var bot := new SessionStore(t, c);
    var text := w + Pattern(ClearCmd);
    var m := TextMessage(chat, u, text);
    TrailingCommandRuns(w, ClearCmd);
    DefaultIsNoGemini(c);
    assert text[0] == w[0];
    assert AppendBounded([], UserMessage(Text(text))) == [UserMessage(Text(text))];
    assert Classify(t.imagePrompt, m) == TextKind(text);
    assert bot.Passes(bot.settings, m);
    assert bot.RequestFor(bot.settings, [], m)
        == OpenRouterCall(c[DefaultModelKey].id, [SystemMessage(t.systemPrompt), UserMessage(Text(text))]);
    bot.HandleUpdate(m, GeminiFailed, reply, NotConfigured);
    history := bot.chats[u];
    sent := bot.outbox;
    posted := bot.calls;
  }

  /** A photo for a model without image input gets the notice naming the model, and nothing else
      happens: no history, no request. */
  method FirstPhotoForTextModel(t: Texts, c: Catalog, u: UserId, chat: ChatId, jpeg: seq<bv8>)
    returns (sent: seq<Outbound>, chats: map<UserId, seq<ChatMessage>>, posted: seq<ProviderCall>)
    requires Complete(c) && ImageInput !in c[DefaultModelKey].capabilities
    ensures sent == [Send(chat, ImageNotSupported(c[DefaultModelKey].name))]
    ensures chats == map[] && posted == []
  {
    var bot := new SessionStore(t, c);
    var m := Message(chat, u, None, Some(Downloaded(jpeg)), None, false, false);
    assert bot.KeyFor(bot.settings, u) == DefaultModelKey;
    bot.HandleUpdate(m, GeminiFailed, OpenRouterFailed, NotConfigured);
    sent := bot.outbox;
    chats := bot.chats;
    posted := bot.calls;
  }

  /** A fresh bot after the user chose the model `key` from the keyboard. */
  method BotWithChosenModel(t: Texts, c: Catalog, u: UserId, chat: ChatId, query: string, key: string)
    returns (bot: SessionStore)
    requires Complete(c) && key in c && '_' !in key
    ensures fresh(bot) && bot.Valid() && bot.texts == t && bot.registry == c
    ensures bot.settings == map[u := DefaultSettings(t.baseLanguage).(model := key)]
    ensures bot.chats == map[] && bot.calls == []
    ensures bot.outbox == [Send(chat, ModelChosen(key)), AnswerCallback(query)]
  {
    bot := new SessionStore(t, c);
    ModelCallbackRoundTrip(key);
    bot.OnCallback(CallbackQuery(query, chat, u, "model_" + key));
  }

  /** The request and the stored history for a first photo turn answered by the direct Gemini API:
      the system part goes in front of the turn's own parts, in the request and in the history. */
  lemma GeminiPhotoTurn(prompt: string, c: Catalog, key: string, caption: string, jpeg: seq<bv8>)
    requires DefaultModelKey in c && Route(c, key) == DirectGemini
    ensures var turn := UserMessage(Parts([TypedText(caption), ImageUrl(jpeg)]));
            var parts := [BareText(prompt + "\n\n"), TypedText(caption), ImageUrl(jpeg)];
            && ProviderRequest(prompt, c, key, AppendBounded([], turn)) == GeminiCall(parts)
            && HistoryAfterCall(prompt, c, key, AppendBounded([], turn)) == [UserMessage(Parts(parts))]
  {
    var turn := UserMessage(Parts([TypedText(caption), ImageUrl(jpeg)]));
    assert AppendBounded([], turn) == [turn];
  }

  /** After choosing a model routed to the direct Gemini API (`BotRoute`: the Gemini key), a photo
      without caption is posted to that API as the system part, the default prompt and the image;
      the history keeps that same array, system part included, followed by the reply. */
  method GeminiPhotoAfterChoosingModel(t: Texts, c: Catalog, u: UserId, chat: ChatId, query: string, key: string,
                                       jpeg: seq<bv8>, gemini: GeminiReply)
    returns (history: seq<ChatMessage>, sent: seq<Outbound>, posted: seq<ProviderCall>)
    requires Complete(c) && key in c && '_' !in key && Route(c, key) == DirectGemini && ImageInput in c[key].capabilities
    ensures posted == [GeminiCall([BareText(t.systemPrompt + "\n\n"), TypedText(t.imagePrompt), ImageUrl(jpeg)])]
    ensures history == [UserMessage(Parts([BareText(t.systemPrompt + "\n\n"), TypedText(t.imagePrompt), ImageUrl(jpeg)])),
                        AssistantMessage(GeminiReplyText(t.apology, gemini))]
    ensures sent == [Send(chat, ModelChosen(key)), AnswerCallback(query), Send(chat, AssistantText(GeminiReplyText(t.apology, gemini)))]
  {
    var bot := BotWithChosenModel(t, c, u, chat, query, key);
    var m := Message(chat, u, None, Some(Downloaded(jpeg)), None, false, false);
    assert Classify(t.imagePrompt, m) == ImageKind(t.imagePrompt, jpeg);
    assert bot.KeyFor(bot.settings, u) == key;
    GeminiPhotoTurn(t.systemPrompt, c, key, t.imagePrompt, jpeg);
    bot.HandleUpdate(m, gemini, OpenRouterFailed, NotConfigured);
    history := bot.chats[u];
    sent := bot.outbox;
    posted := bot.calls;
  }

  /** `model_<name>` for a member name inherited from `Object.prototype` (`constructor`, ...)
      that is no key of the table is ignored: the user gets the default entry and nothing is sent. */
  method InheritedNameCallback(t: Texts, c: Catalog, u: UserId, chat: ChatId, query: string, name: string)
    returns (settings: map<UserId, Settings>, sent: seq<Outbound>)
    requires Complete(c) && name in ObjectPrototypeNames && '_' !in name && name !in c
    ensures settings == map[u := DefaultSettings(t.baseLanguage)] && sent == []
  {
    var bot := new SessionStore(t, c);
    ModelCallbackRoundTrip(name);
    bot.OnCallback(CallbackQuery(query, chat, u, "model_" + name));
    settings := bot.settings;
    sent := bot.outbox;
  }

  /** A fresh bot after the user chose the language `code` from the language menu. */
  method BotWithChosenLanguage(t: Texts, c: Catalog, u: UserId, chat: ChatId, query: string, code: string)
    returns (bot: SessionStore)
    requires Complete(c) && '_' !in code
    ensures fresh(bot) && bot.Valid() && bot.texts == t && bot.registry == c
    ensures bot.settings == map[u := Settings(DefaultModelKey, code != t.baseLanguage, code)]
    ensures bot.chats == map[] && bot.calls == []
    ensures bot.outbox == [Send(chat, LanguageChosen(code, code != t.baseLanguage)), AnswerCallback(query)]
  {
    bot := new SessionStore(t, c);
    LanguageCallbackRoundTrip(code);
    bot.OnCallback(CallbackQuery(query, chat, u, "lang_" + code));
  }

  /** After a language is chosen, replies are translated exactly when it is not the base
      language; the history keeps the untranslated reply. */
  method LanguageThenText(t: Texts, c: Catalog, u: UserId, chat: ChatId, query: string, code: string,
                          text: string, reply: OpenRouterReply, translator: Translation)
    returns (history: seq<ChatMessage>, sent: seq<Outbound>)
    requires Complete(c) && '_' !in code && text != "" && '/' !in text
    ensures history == [UserMessage(Text(text)), AssistantMessage(OpenRouterReplyText(t.apology, reply))]
    ensures sent == [Send(chat, LanguageChosen(code, code != t.baseLanguage)), AnswerCallback(query),
                     Send(chat, AssistantText(if code != t.baseLanguage then TranslateText(OpenRouterReplyText(t.apology, reply), translator)
                                              else OpenRouterReplyText(t.apology, reply)))]
  {
    var bot := BotWithChosenLanguage(t, c, u, chat, query, code);
    var m := TextMessage(chat, u, text);
    SlashFreeTextRunsNothing(text);
    assert Classify(t.imagePrompt, m) == TextKind(text);
    assert bot.KeyFor(bot.settings, u) == DefaultModelKey;
    DefaultIsNoGemini(c);
    bot.HandleUpdate(m, GeminiFailed, reply, translator);
    history := bot.chats[u];
    sent := bot.outbox;
  }
}
