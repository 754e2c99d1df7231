/** What arrives from the chat platform: messages, their classification, callback data, and
    which command handlers a text fires. */
module Inbound {
  import opened Wrappers

  /** The photo as the handler obtains it: the largest size downloaded, or a failed download. */
  datatype PhotoDownload = Downloaded(jpeg: seq<bv8>) | DownloadFailed

  /** The fields of an incoming message that the bot reads. */
  datatype Message = Message(
    chat: int,
    from: int,
    text: Option<string>,
    photo: Option<PhotoDownload>,
    caption: Option<string>,
    voice: bool,
    document: bool)

  /** JavaScript truthiness of an optional string field: present and non-empty. */
  predicate Present(s: Option<string>)
  {
    s.Some? && s.value != ""
  }

  /** `text.startsWith('/')`. */
  predicate IsCommandText(t: string)
  {
    |t| > 0 && t[0] == '/'
  }

  /** The outcome of the handler's if-chain. `PhotoFailed` is a photo whose download threw. */
  datatype Kind =
    | TextKind(text: string)
    | ImageKind(prompt: string, jpeg: seq<bv8>)
    | PhotoFailed
    | VoiceKind
    | DocumentKind
    | CommandKind
    | OtherKind
  {
    /** The kinds that go on to the history and the provider. */
    predicate Conversational()
    {
      TextKind? || ImageKind?
    }
  }

  /** The classification of the message handler, in its priority order: non-command text, photo,
      voice, document, command text, anything else. */
  function Classify(imagePrompt: string, m: Message): (k: Kind)
    ensures k.TextKind? <==> Present(m.text) && !IsCommandText(m.text.value)
    ensures k.TextKind? ==> k.text == m.text.value && k.text != ""
    ensures k.ImageKind? ==> m.photo == Some(Downloaded(k.jpeg))
    ensures k.ImageKind? ==> k.prompt == if Present(m.caption) then m.caption.value else imagePrompt
    ensures k.ImageKind? <==> !(Present(m.text) && !IsCommandText(m.text.value)) && m.photo.Some? && m.photo.value.Downloaded?
    ensures k.PhotoFailed? <==> !(Present(m.text) && !IsCommandText(m.text.value)) && m.photo == Some(DownloadFailed)
    ensures k.VoiceKind? <==> !(Present(m.text) && !IsCommandText(m.text.value)) && m.photo.None? && m.voice
    ensures k.DocumentKind? <==> !(Present(m.text) && !IsCommandText(m.text.value)) && m.photo.None? && !m.voice && m.document
    ensures k.CommandKind? <==> m.photo.None? && !m.voice && !m.document && Present(m.text) && IsCommandText(m.text.value)
    ensures k.OtherKind? <==> !Present(m.text) && m.photo.None? && !m.voice && !m.document
  {
    if Present(m.text) && !IsCommandText(m.text.value) then TextKind(m.text.value)
    else if m.photo.Some? then
      match m.photo.value
      case Downloaded(jpeg) =>
        ImageKind(if Present(m.caption) then m.caption.value else imagePrompt, jpeg)
      case DownloadFailed => PhotoFailed
    else if m.voice then VoiceKind
    else if m.document then DocumentKind
    else if Present(m.text) && IsCommandText(m.text.value) then CommandKind
    else OtherKind
  }

  /** The parsed callback data. */
  datatype Callback = LanguageChoice(code: string) | ModelChoice(key: string) | OtherCallback

  /** The text of `s` before its first `_`, or all of `s` when it has none. */
  function UpToUnderscore(s: string): (r: string)
    ensures r <= s && '_' !in r
    ensures |r| < |s| ==> s[|r|] == '_'
  {
    if s == [] || s[0] == '_' then [] else [s[0]] + UpToUnderscore(s[1..])
  }

  /** The callback handler's reading of `data`: `split('_')[1]` after a `lang_` or a `model_` prefix. */
  function ParseCallback(data: string): (c: Callback)
    ensures c.LanguageChoice? <==> "lang_" <= data
    ensures c.ModelChoice? <==> !("lang_" <= data) && "model_" <= data
    ensures c.LanguageChoice? ==> c.code <= data[5..] && '_' !in c.code && (5 + |c.code| < |data| ==> data[5 + |c.code|] == '_')
    ensures c.ModelChoice? ==> c.key <= data[6..] && '_' !in c.key && (6 + |c.key| < |data| ==> data[6 + |c.key|] == '_')
  {
    if "lang_" <= data then LanguageChoice(UpToUnderscore(data[5..]))
    else if "model_" <= data then ModelChoice(UpToUnderscore(data[6..]))
    else OtherCallback
  }

  /** The `model_` data of a key is read back as that key exactly when the key has no `_`. */
  lemma ModelCallbackRoundTrip(key: string)
    ensures ParseCallback("model_" + key) == ModelChoice(key) <==> '_' !in key
  {
    var data := "model_" + key;
    assert !("lang_" <= data) by { assert data[0] != "lang_"[0]; }
    assert data[6..] == key;
  }

  /** The `lang_` data of a code is read back as that code exactly when the code has no `_`. */
  lemma LanguageCallbackRoundTrip(code: string)
    ensures ParseCallback("lang_" + code) == LanguageChoice(code) <==> '_' !in code
  {
    assert ("lang_" + code)[5..] == code;
  }

  /** Data with further `_`-separated fields, such as `lang_zh_TW`, is read as its first field. */
  lemma LanguageCallbackFirstField(code: string, rest: string)
    requires '_' !in code
    ensures ParseCallback("lang_" + code + "_" + rest) == LanguageChoice(code)
  {
    var data := "lang_" + code + "_" + rest;
    assert data[5..] == code + "_" + rest;
    var r := UpToUnderscore(data[5..]);
    assert data[5..][|code|] == '_' && data[5..][..|code|] == code;
    assert r == data[5..][..|r|] == code;
  }

  /** The command handlers, as registered with `bot.onText`. */
  datatype Command = StartCmd | HelpCmd | ModelsCmd | ModelCmd | ClearCmd | LanguageCmd | TranslateOnCmd | TranslateOffCmd

  /** Registration order. */
  const Commands: seq<Command> := [StartCmd, HelpCmd, ModelsCmd, ModelCmd, ClearCmd, LanguageCmd, TranslateOnCmd, TranslateOffCmd]

  /** The text each handler's (unanchored) regular expression looks for. */
  function Pattern(c: Command): string
  {
    match c
    case StartCmd => "/start"
    case HelpCmd => "/help"
    case ModelsCmd => "/models"
    case ModelCmd => "/model"
    case ClearCmd => "/clear"
    case LanguageCmd => "/language"
    case TranslateOnCmd => "/translate_on"
    case TranslateOffCmd => "/translate_off"
  }

  /** Does `p` occur in `s` at index `i`? */
  predicate OccursAt(p: string, s: string, i: nat)
  {
    i + |p| <= |s| && s[i..i + |p|] == p
  }

  /** Does `p` occur anywhere in `s`? */
  predicate Occurs(p: string, s: string)
  {
    exists i: nat | i <= |s| :: OccursAt(p, s, i)
  }

  /** Whether the handler of `c` runs for a message whose text is `t`. */
  predicate Fires(c: Command, t: string)
  {
    Occurs(Pattern(c), t)
  }

  /** The handlers whose patterns occur in `t`. */
  function FiredBy(t: string): set<Command>
  {
    set c | c in Commands && Fires(c, t)
  }

  /** A handler is among those a text fires exactly when its pattern occurs in the text. */
  lemma FiredByMembers(t: string, c: Command)
    ensures c in FiredBy(t) <==> Fires(c, t)
  {
    AllCommandsRegistered(c);
  }

  /** `[c]` when `c` is in `fired`, else nothing. */
  function IfIn(c: Command, fired: set<Command>): seq<Command>
  {
    if c in fired then [c] else []
  }

  /** The handlers of `cs` that are in `fired`, in the order of `cs`. */
  function Selected(cs: seq<Command>, fired: set<Command>): seq<Command>
    decreases |cs|
  {
    if cs == [] then []
    else Selected(cs[..|cs| - 1], fired) + IfIn(cs[|cs| - 1], fired)
  }

  /** The handlers among `cs` that fire for `t`, in the order of `cs`. */
  function FiringIn(cs: seq<Command>, t: string): seq<Command>
  {
    Selected(cs, FiredBy(t))
  }

  /** Selected keeps exactly the handlers of `cs` that are in `fired`. */
  lemma {:induction false} SelectedMembers(cs: seq<Command>, fired: set<Command>, c: Command)
    ensures c in Selected(cs, fired) <==> c in cs && c in fired
    decreases |cs|
  {
    if cs != [] {
      SelectedMembers(cs[..|cs| - 1], fired, c);
      assert cs == cs[..|cs| - 1] + [cs[|cs| - 1]];
    }
  }

  /** FiringIn keeps exactly the handlers that fire. */
  lemma FiringInMembers(cs: seq<Command>, t: string, c: Command)
    ensures c in FiringIn(cs, t) <==> c in cs && Fires(c, t)
  {
    SelectedMembers(cs, FiredBy(t), c);
    FiredByMembers(t, c);
  }

  /** Appending a handler to `cs` appends it to the selected ones exactly when it is in `fired`. */
  lemma SelectedSnoc(cs: seq<Command>, c: Command, fired: set<Command>)
    ensures Selected(cs + [c], fired) == Selected(cs, fired) + IfIn(c, fired)
  {
    assert (cs + [c])[..|cs|] == cs;
  }

  /** Every handler is registered. */
  lemma AllCommandsRegistered(c: Command)
    ensures c in Commands
  {
  }

  /** An occurrence of a longer pattern is an occurrence of each of its prefixes. */
  lemma PrefixOccurs(p: string, q: string, s: string)
    requires p <= q && Occurs(q, s)
    ensures Occurs(p, s)
  {
    var i: nat :| i <= |s| && OccursAt(q, s, i);
    assert s[i..i + |p|] == s[i..i + |q|][..|p|];
    assert OccursAt(p, s, i);
  }

  /** Every text that fires `/models` fires `/model` too. */
  lemma ModelsAlsoFiresModel(t: string)
    ensures Fires(ModelsCmd, t) ==> Fires(ModelCmd, t)
  {
    if Fires(ModelsCmd, t) {
      PrefixOccurs("/model", "/models", t);
    }
  }

  /** A pattern cannot occur in a text that lacks its first character. */
  lemma AbsentLeadDoesNotOccur(p: string, s: string)
    requires |p| > 0 && p[0] !in s
    ensures !Occurs(p, s)
  {
    forall i: nat | i + |p| <= |s| ensures !OccursAt(p, s, i) {
      assert s[i..i + |p|][0] == s[i];
    }
  }

  /** In a text whose only `/` is at index `j`, a `/`-led pattern occurs exactly when it is a
      prefix of the text from `j` on. */
  lemma OneSlashText(p: string, s: string, j: nat)
    requires |p| > 0 && p[0] == '/' && j < |s| && s[j] == '/'
    requires forall i | 0 <= i < |s| && i != j :: s[i] != '/'
    ensures Occurs(p, s) <==> p <= s[j..]
  {
    if p <= s[j..] {
      assert s[j..j + |p|] == s[j..][..|p|];
      assert OccursAt(p, s, j);
    }
    forall i: nat | i != j && i + |p| <= |s| ensures !OccursAt(p, s, i) {
      assert s[i..i + |p|][0] == s[i];
    }
    if OccursAt(p, s, j) {
      assert s[j..][..|p|] == s[j..j + |p|];
    }
  }

  /** No handler's pattern is a prefix of another's, except `/model` of `/models`. */
  lemma PatternPrefixes(c: Command, d: Command)
    ensures Pattern(d) <= Pattern(c) <==> d == c || (c == ModelsCmd && d == ModelCmd)
  {
    if Pattern(d) <= Pattern(c) {
      assert Pattern(d)[1] == Pattern(c)[1];
      if c.TranslateOnCmd? || c.TranslateOffCmd? {
        assert Pattern(d)[12] == Pattern(c)[12];
      }
    }
  }

  /** Every pattern starts with its only `/`. */
  lemma PatternShape(c: Command)
    ensures |Pattern(c)| > 1 && Pattern(c)[0] == '/' && '/' !in Pattern(c)[1..]
  {
  }

  /** The registered handlers in `fired`, written out in registration order. */
  lemma SelectedCommands(fired: set<Command>)
    ensures Selected(Commands, fired)
         == IfIn(StartCmd, fired) + IfIn(HelpCmd, fired) + IfIn(ModelsCmd, fired) + IfIn(ModelCmd, fired)
          + IfIn(ClearCmd, fired) + IfIn(LanguageCmd, fired) + IfIn(TranslateOnCmd, fired) + IfIn(TranslateOffCmd, fired)
  {
    var p1 := [StartCmd];
    var p2 := p1 + [HelpCmd];
    var p3 := p2 + [ModelsCmd];
    var p4 := p3 + [ModelCmd];
    var p5 := p4 + [ClearCmd];
    var p6 := p5 + [LanguageCmd];
    var p7 := p6 + [TranslateOnCmd];
    assert Commands == p7 + [TranslateOffCmd];
    SelectedSnoc([], StartCmd, fired);
    assert [] + [StartCmd] == p1;
    SelectedSnoc(p1, HelpCmd, fired);
    SelectedSnoc(p2, ModelsCmd, fired);
    SelectedSnoc(p3, ModelCmd, fired);
    SelectedSnoc(p4, ClearCmd, fired);
    SelectedSnoc(p5, LanguageCmd, fired);
    SelectedSnoc(p6, TranslateOnCmd, fired);
    SelectedSnoc(p7, TranslateOffCmd, fired);
  }

  /** A text without `/` runs no handler. */
  lemma SlashFreeTextRunsNothing(t: string)
    requires '/' !in t
    ensures FiringIn(Commands, t) == []
  {
    var fired := FiredBy(t);
    forall d ensures d !in fired {
      FiredByMembers(t, d);
      PatternShape(d);
      AbsentLeadDoesNotOccur(Pattern(d), t);
    }
    SelectedCommands(fired);
  }

  /** `w + Pattern(c)`, for a `w` without `/`, has its only `/` where the command starts. */
  lemma TrailingCommandText(w: string, c: Command)
    requires '/' !in w
    ensures (w + Pattern(c))[|w|..] == Pattern(c) && (w + Pattern(c))[|w|] == '/'
    ensures forall i | 0 <= i < |w + Pattern(c)| && i != |w| :: (w + Pattern(c))[i] != '/'
  {
    var t := w + Pattern(c);
    PatternShape(c);
    assert t[|w|..] == Pattern(c);
    forall i | 0 <= i < |t| && i != |w| ensures t[i] != '/' {
      if i > |w| {
        assert t[i] == Pattern(c)[1..][i - |w| - 1];
      }
    }
  }

  /** The handlers that fire for a text ending in the command `c` with no other `/`. */
  lemma TrailingCommandFires(w: string, c: Command, d: Command)
    requires '/' !in w
    ensures Fires(d, w + Pattern(c)) <==> d == c || (c == ModelsCmd && d == ModelCmd)
  {
    TrailingCommandText(w, c);
    PatternShape(d);
    OneSlashText(Pattern(d), w + Pattern(c), |w|);
    PatternPrefixes(c, d);
  }

  /** The handlers a text ending in the command `c`, with no other `/`, fires. */
  lemma TrailingCommandFired(w: string, c: Command)
    requires '/' !in w
    ensures FiredBy(w + Pattern(c)) == if c == ModelsCmd then {ModelsCmd, ModelCmd} else {c}
  {
    forall d ensures d in FiredBy(w + Pattern(c)) <==> d == c || (c == ModelsCmd && d == ModelCmd) {
      FiredByMembers(w + Pattern(c), d);
      TrailingCommandFires(w, c, d);
    }
  }

  /** One handler selected alone runs alone. */
  lemma SelectedSingle(c: Command)
    ensures Selected(Commands, {c}) == [c]
  {
    SelectedCommands({c});
    match c
    case StartCmd =>
    case HelpCmd =>
    case ModelsCmd =>
    case ModelCmd =>
    case ClearCmd =>
    case LanguageCmd =>
    case TranslateOnCmd =>
    case TranslateOffCmd =>
  }

  /** `/models` and `/model` selected together run in that order. */
  lemma SelectedModelsPair(fired: set<Command>)
    requires fired == {ModelsCmd, ModelCmd}
    ensures Selected(Commands, fired) == [ModelsCmd, ModelCmd]
  {
    SelectedCommands(fired);
  }

  /** A text whose only `/` starts a command at its end runs that command's handler alone, except
      that `/models` also runs `/model`, after it. */
  lemma TrailingCommandRuns(w: string, c: Command)
    requires '/' !in w
    ensures FiringIn(Commands, w + Pattern(c)) == if c == ModelsCmd then [ModelsCmd, ModelCmd] else [c]
  {
    TrailingCommandFired(w, c);
    if c == ModelsCmd {
      SelectedModelsPair(FiredBy(w + Pattern(c)));
    } else {
      SelectedSingle(c);
    }
  }
}
