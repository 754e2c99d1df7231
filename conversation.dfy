/** Chat messages, the bounded history, the request shaping of the direct Gemini call, the
    extraction of provider replies, and the translation rule. */
module Conversation {
  import opened Wrappers

  /** One element of an array-valued content. `BareText` is `{text}`, the shape the Gemini
      reshaping creates; `TypedText` is `{type: 'text', text}`; `ImageUrl` is the
      `{type: 'image_url', ...}` part, whose base64 data URL is represented by the JPEG's bytes. */
  datatype Part = BareText(text: string) | TypedText(text: string) | ImageUrl(jpeg: seq<bv8>)

  /** A message's `content`: a string, or an array of parts (a photo turn). */
  datatype Content = Text(text: string) | Parts(parts: seq<Part>)

  /** A `{role, content}` message. Assistant turns always hold a string. */
  datatype ChatMessage =
    | SystemMessage(prompt: string)
    | UserMessage(content: Content)
    | AssistantMessage(reply: string)

  /** The bound applied after a user turn is pushed. */
  const HistoryLimit: nat := 20

  /** The user-turn append: `push`, then `slice(-20)` when the length exceeds the limit. */
  function AppendBounded(h: seq<ChatMessage>, m: ChatMessage): (r: seq<ChatMessage>)
    ensures 0 < |r| <= HistoryLimit
    ensures r[|r| - 1] == m
    ensures |h| < HistoryLimit ==> r == h + [m]
    ensures |h| >= HistoryLimit ==> r == h[|h| - HistoryLimit + 1..] + [m]
  {
    var pushed := h + [m];
    if |pushed| > HistoryLimit then pushed[|pushed| - HistoryLimit..] else pushed
  }

  /** The last `n` elements of `s`, or all of `s` when it is shorter. */
  ghost function Latest(s: seq<ChatMessage>, n: nat): seq<ChatMessage>
  {
    if |s| <= n then s else s[|s| - n..]
  }

  /** The history after appending each of `ms`, in order, with AppendBounded. */
  ghost function AppendAll(h: seq<ChatMessage>, ms: seq<ChatMessage>): seq<ChatMessage>
  {
    if ms == [] then h else AppendBounded(AppendAll(h, ms[..|ms| - 1]), ms[|ms| - 1])
  }

  lemma LatestOfSnoc(s: seq<ChatMessage>, m: ChatMessage, n: nat)
    requires n > 0
    ensures Latest(Latest(s, n) + [m], n) == Latest(s + [m], n)
  {
  }

  /** Over any sequence of appends the history is the most recent 20 messages, oldest first:
      eviction is first in, first out. */
  lemma {:induction false} AppendAllKeepsLatest(h: seq<ChatMessage>, ms: seq<ChatMessage>)
    ensures ms != [] ==> AppendAll(h, ms) == Latest(h + ms, HistoryLimit)
    ensures |AppendAll(h, ms)| <= if ms == [] then |h| else HistoryLimit
  {
    if ms != [] {
      var init, m := ms[..|ms| - 1], ms[|ms| - 1];
      assert ms == init + [m];
      assert h + ms == (h + init) + [m];
      if init == [] {
        assert AppendAll(h, init) == h;
      } else {
        AppendAllKeepsLatest(h, init);
        LatestOfSnoc(h + init, m, HistoryLimit);
      }
    }
  }

  /** Index of the last user message: `messages.filter(m => m.role === 'user').pop()`. */
  function LastUserIndex(ms: seq<ChatMessage>): Option<nat>
  {
    if |ms| == 0 then None
    else if ms[|ms| - 1].UserMessage? then Some(|ms| - 1)
    else LastUserIndex(ms[..|ms| - 1])
  }

  /** LastUserIndex finds the last user message, and finds none only when there is none. */
  lemma {:induction false} LastUserIndexIsLast(ms: seq<ChatMessage>)
    ensures var r := LastUserIndex(ms);
            && (r.Some? ==> r.value < |ms| && ms[r.value].UserMessage?)
            && (r.Some? ==> forall j | r.value < j < |ms| :: !ms[j].UserMessage?)
            && (r.None? ==> forall j | 0 <= j < |ms| :: !ms[j].UserMessage?)
  {
    if |ms| > 0 && !ms[|ms| - 1].UserMessage? {
      var init := ms[..|ms| - 1];
      LastUserIndexIsLast(init);
      assert forall j | 0 <= j < |init| :: init[j] == ms[j];
    }
  }

  /** Index of the first system message: `messages.find(m => m.role === 'system')`. */
  function FirstSystemIndex(ms: seq<ChatMessage>): Option<nat>
  {
    if |ms| == 0 then None
    else if ms[0].SystemMessage? then Some(0)
    else match FirstSystemIndex(ms[1..])
      case None => None
      case Some(i) => Some(i + 1)
  }

  /** FirstSystemIndex finds the first system message, and finds none only when there is none. */
  lemma {:induction false} FirstSystemIndexIsFirst(ms: seq<ChatMessage>)
    ensures var r := FirstSystemIndex(ms);
            && (r.Some? ==> r.value < |ms| && ms[r.value].SystemMessage?)
            && (r.Some? ==> forall j | 0 <= j < r.value :: !ms[j].SystemMessage?)
            && (r.None? ==> forall j | 0 <= j < |ms| :: !ms[j].SystemMessage?)
  {
    if |ms| > 0 && !ms[0].SystemMessage? {
      var rest := ms[1..];
      FirstSystemIndexIsFirst(rest);
      assert forall j | 0 <= j < |rest| :: rest[j] == ms[j + 1];
    }
  }

  /** A content as Gemini parts: an array is taken as it is, a string becomes one bare part. */
  function AsParts(c: Content): seq<Part>
  {
    match c
    case Text(t) => [BareText(t)]
    case Parts(ps) => ps
  }

  /** The `parts` that getGeminiResponse posts: the first system prompt followed by a blank line,
      as a bare part in front of the last user message's parts. None where the source throws
      (no user message), which its catch turns into the apology without posting anything. */
  function GeminiParts(ms: seq<ChatMessage>): Option<seq<Part>>
  {
    LastUserIndexIsLast(ms);
    FirstSystemIndexIsFirst(ms);
    match LastUserIndex(ms)
    case None => None
    case Some(i) =>
      var parts := AsParts(ms[i].content);
      match FirstSystemIndex(ms)
      case None => Some(parts)
      case Some(s) => Some([BareText(ms[s].prompt + "\n\n")] + parts)
  }

  /** The request can be built exactly when the messages hold a user message. */
  lemma GeminiPartsNeedAUserTurn(ms: seq<ChatMessage>)
    ensures GeminiParts(ms).Some? <==> exists j | 0 <= j < |ms| :: ms[j].UserMessage?
  {
    LastUserIndexIsLast(ms);
  }

  /** Only the system prompt and the last user turn reach the direct Gemini API: the earlier
      history, whatever it holds, does not change the request. */
  lemma GeminiSeesOnlyPromptAndLastTurn(prompt: string, h: seq<ChatMessage>, c: Content)
    ensures GeminiParts([SystemMessage(prompt)] + h + [UserMessage(c)])
         == Some([BareText(prompt + "\n\n")] + AsParts(c))
  {
    var ms := [SystemMessage(prompt)] + h + [UserMessage(c)];
    assert ms[0] == SystemMessage(prompt);
    assert ms[|ms| - 1] == UserMessage(c);
  }

  /** `content.parts` of one Gemini candidate; each part is represented by its `text`. */
  datatype GeminiContent = GeminiContent(parts: Option<seq<string>>)

  datatype GeminiCandidate = GeminiCandidate(content: Option<GeminiContent>)

  /** The outcome of the Gemini POST: a transport or HTTP failure, or a body whose `candidates`
      may be missing. */
  datatype GeminiReply = GeminiFailed | GeminiBody(candidates: Option<seq<GeminiCandidate>>)

  /** The body carries a first candidate with a first part. */
  predicate HasGeminiText(r: GeminiReply)
  {
    && r.GeminiBody?
    && r.candidates.Some? && |r.candidates.value| > 0
    && r.candidates.value[0].content.Some?
    && r.candidates.value[0].content.value.parts.Some?
    && |r.candidates.value[0].content.value.parts.value| > 0
  }

  /** The reply of getGeminiResponse: the first part of the first candidate, the apology otherwise. */
  function GeminiReplyText(apology: string, r: GeminiReply): (t: string)
    ensures HasGeminiText(r) ==> t == r.candidates.value[0].content.value.parts.value[0]
    ensures !HasGeminiText(r) ==> t == apology
  {
    match r
    case GeminiFailed => apology
    case GeminiBody(candidates) =>
      if && candidates.Some? && |candidates.value| > 0
         && candidates.value[0].content.Some? && candidates.value[0].content.value.parts.Some?
      then
        var parts := candidates.value[0].content.value.parts.value;
        // `parts[0].text` on an empty array throws; the catch returns the apology
        if |parts| > 0 then parts[0] else apology
      else apology
  }

  /** The outcome of the OpenRouter POST: a failure, or a body with the `message.content` of each choice. */
  datatype OpenRouterReply = OpenRouterFailed | OpenRouterBody(choices: seq<string>)

  /** The reply of getOpenRouterResponse: the first choice's content, the apology otherwise. */
  function OpenRouterReplyText(apology: string, r: OpenRouterReply): (t: string)
    ensures r.OpenRouterBody? && |r.choices| > 0 ==> t == r.choices[0]
    ensures !(r.OpenRouterBody? && |r.choices| > 0) ==> t == apology
  {
    match r
    case OpenRouterFailed => apology
    case OpenRouterBody(choices) =>
      // `choices[0].message` on an empty array throws; the catch returns the apology
      if |choices| > 0 then choices[0] else apology
  }

  /** What the translator does with one request: no client configured, an error, or a result. */
  datatype Translation = NotConfigured | TranslationFailed | Translated(text: string)

  /** `translateText`: the translation when there is one, the input unchanged otherwise. */
  function TranslateText(text: string, t: Translation): (r: string)
    ensures t.Translated? ==> r == t.text
    ensures !t.Translated? ==> r == text
  {
    match t
    case Translated(translation) => translation
    case _ => text
  }

  /** The condition under which the reply is passed to the translator. */
  predicate ShouldTranslate(baseLanguage: string, autoTranslate: bool, preferredLanguage: string)
  {
    autoTranslate && preferredLanguage != baseLanguage
  }

  /** `finalResponse`: what the user is sent for the provider reply `ai`. */
  function OutgoingText(baseLanguage: string, autoTranslate: bool, preferredLanguage: string, ai: string, t: Translation): (r: string)
    ensures r != ai ==> ShouldTranslate(baseLanguage, autoTranslate, preferredLanguage) && t == Translated(r)
    ensures ShouldTranslate(baseLanguage, autoTranslate, preferredLanguage) && t.Translated? ==> r == t.text
  {
    if ShouldTranslate(baseLanguage, autoTranslate, preferredLanguage) then TranslateText(ai, t) else ai
  }

  /** A user whose preferred language is the base language is never sent a translation. */
  lemma BaseLanguageIsNeverTranslated(baseLanguage: string, autoTranslate: bool, ai: string, t: Translation)
    ensures OutgoingText(baseLanguage, autoTranslate, baseLanguage, ai, t) == ai
  {
  }
}
