/** The model registry `availableModels`, its default key, and the lookups the bot makes on it. */
module Registry {
  import opened Wrappers
  import opened Locale

  datatype Capability = TextInput | ImageInput

  /** One registry entry. `id` is the model identifier sent to OpenRouter; `name` and `emoji`
      are what buttons and notices show; descriptions are left out (display only). */
  datatype ModelEntry = ModelEntry(
    id: string,
    name: string,
    emoji: string,
    capabilities: set<Capability>,
    useDirectAPI: bool)

  /** The one key for which the direct Gemini API is used. */
  const GeminiKey: string := "gemini-2.5-pro"

  /** `defaultModelKey`. */
  const DefaultModelKey: string := "llama4-scout"

  /** `Object.keys(availableModels)`: the keys in declaration order. */
  const ModelKeys: seq<string> := [
    "gemini-2.5-pro", "llama4-scout", "nemotron-ultra", "nemotron-70b", "mistral-small",
    "deepseek-r1", "deepcoder", "qwen-32b", "moonlight"]

  /** The display name of an entry in the given variant. */
  function Named(v: Variant, english: string, persian: string): string
  {
    match v
    case English => english
    case Persian => persian
  }

  /** `availableModels`; the entries of the two variants differ only in `name`. */
  function Models(v: Variant): Catalog
  {
    map[
      "gemini-2.5-pro" := ModelEntry("google/gemini-2.5-pro-exp-03-25:free", Named(v, "Advanced", " پیشرفته"), "🌟", {TextInput, ImageInput}, true),
      "llama4-scout" := ModelEntry("meta-llama/llama-4-scout:free", Named(v, "Standard", " استاندارد"), "🚀", {TextInput}, false),
      "nemotron-ultra" := ModelEntry("nvidia/llama-3.1-nemotron-ultra-253b-v1:free", Named(v, "Ultra", " Ultra"), "⚡", {TextInput}, false),
      "nemotron-70b" := ModelEntry("nvidia/llama-3.1-nemotron-70b-instruct:free", Named(v, "Strong", " قوی"), "💪", {TextInput}, false),
      "mistral-small" := ModelEntry("mistralai/mistral-small-24b-instruct-2501:free", Named(v, "Fast", " سریع"), "⚡", {TextInput}, false),
      "deepseek-r1" := ModelEntry("deepseek/deepseek-r1-zero:free", Named(v, "Deep", " عمیق"), "🔍", {TextInput}, false),
      "deepcoder" := ModelEntry("agentica-org/deepcoder-14b-preview:free", Named(v, "Coder", " کدنویس"), "💻", {TextInput}, false),
      "qwen-32b" := ModelEntry("qwen/qwq-32b:free", Named(v, "China", " چین"), "🇨🇳", {TextInput}, false),
      "moonlight" := ModelEntry("moonshotai/moonlight-16b-a3b-instruct:free", Named(v, "Moonlight", " مهتاب"), "🌙", {TextInput}, false)
    ]
  }

  /** A model table shaped like `availableModels`: registry key to entry. */
  type Catalog = map<string, ModelEntry>

  /** A table holding every declared key, the default key among them, as the handlers expect. */
  predicate Complete(c: Catalog)
  {
    DefaultModelKey in c && forall k | k in ModelKeys :: k in c
  }

  /** `availableModels[key]` for an own key of the table, with no fallback. The image gate and the
      corrected `model_` guard index the table directly (`registry[key]`, `key in registry`), which
      is this read; `PropertyLookup` is the read as JavaScript does it. */
  function Lookup(c: Catalog, key: string): (r: Option<ModelEntry>)
    ensures r.Some? <==> key in c
    ensures r.Some? ==> r.value == c[key]
  {
    if key in c then Some(c[key]) else None
  }

  /** `availableModels[modelKey] || availableModels[defaultModelKey]`: an unknown key falls back
      to the default entry. */
  function Resolve(c: Catalog, key: string): (e: ModelEntry)
    requires DefaultModelKey in c
    ensures e in c.Values
    ensures key in c ==> e == c[key]
    ensures key !in c ==> e == c[DefaultModelKey]
  {
    match Lookup(c, key)
    case Some(entry) => entry
    case None => c[DefaultModelKey]
  }

  datatype Provider = DirectGemini | OpenRouter

  /** `getAIResponse`: the direct Gemini API when the resolved entry is flagged `useDirectAPI`
      and the key is literally the Gemini key; OpenRouter otherwise. */
  function Route(c: Catalog, key: string): Provider
    requires DefaultModelKey in c
  {
    if Resolve(c, key).useDirectAPI && key == GeminiKey then DirectGemini else OpenRouter
  }

  /** The `model` field of the OpenRouter request (`getOpenRouterResponse`). */
  function OpenRouterModelId(c: Catalog, key: string): string
    requires DefaultModelKey in c
  {
    Resolve(c, key).id
  }

  /** The bot's table holds exactly the declared keys, the default among them. */
  lemma RegistryKeys(v: Variant)
    ensures forall k :: k in Models(v) <==> k in ModelKeys
    ensures DefaultModelKey in ModelKeys && Complete(Models(v))
  {
  }

  /** Nine keys, pairwise distinct. */
  lemma RegistryKeysDistinct()
    ensures |ModelKeys| == 9
    ensures forall i, j | 0 <= i < j < |ModelKeys| :: ModelKeys[i] != ModelKeys[j]
  {
  }

  /** No key contains the `_` on which callback data is split. */
  lemma KeysHaveNoUnderscore()
    ensures forall k | k in ModelKeys :: '_' !in k
  {
  }

  /** Exactly one entry, the Gemini one, can take images, and it is also the only entry
      flagged for the direct API. */
  lemma SoleImageEntryIsDirect(v: Variant)
    ensures forall k | k in Models(v) :: ImageInput in Models(v)[k].capabilities <==> k == GeminiKey
    ensures forall k | k in Models(v) :: Models(v)[k].useDirectAPI <==> k == GeminiKey
  {
  }

  /** With the bot's table, exactly the Gemini key is routed to the direct API; any other
      key, registered or not, goes to OpenRouter. */
  lemma BotRoute(v: Variant, key: string)
    ensures DefaultModelKey in Models(v)
    ensures Route(Models(v), key) == DirectGemini <==> key == GeminiKey
  {
    SoleImageEntryIsDirect(v);
  }

  /** The OpenRouter model id is the key's own entry's id, or the default entry's for a key
      outside the table. */
  lemma BotModelId(v: Variant, key: string)
    ensures DefaultModelKey in Models(v)
    ensures key in ModelKeys ==> OpenRouterModelId(Models(v), key) == Models(v)[key].id
    ensures key !in ModelKeys ==> OpenRouterModelId(Models(v), key) == "meta-llama/llama-4-scout:free"
  {
    RegistryKeys(v);
  }

  /** Every key that the image gate lets through is routed to the direct Gemini API. */
  lemma ImagesOnlyReachGemini(v: Variant, key: string)
    requires key in Models(v) && ImageInput in Models(v)[key].capabilities
    ensures Route(Models(v), key) == DirectGemini
  {
    SoleImageEntryIsDirect(v);
    BotRoute(v, key);
  }

  /** The two variants agree on routing, model identifiers and capabilities. */
  lemma VariantsAgreeOnDispatch(key: string)
    ensures DefaultModelKey in Models(English) && DefaultModelKey in Models(Persian)
    ensures Route(Models(English), key) == Route(Models(Persian), key)
    ensures OpenRouterModelId(Models(English), key) == OpenRouterModelId(Models(Persian), key)
    ensures Resolve(Models(English), key).capabilities == Resolve(Models(Persian), key).capabilities
  {
    BotRoute(English, key);
    BotRoute(Persian, key);
    BotModelId(English, key);
    BotModelId(Persian, key);
    RegistryKeys(English);
    RegistryKeys(Persian);
    VariantsDifferOnlyInNames();
  }

  /** The entries of the two variants agree in everything but `name`. */
  lemma VariantsDifferOnlyInNames()
    ensures forall k | k in ModelKeys :: Models(English)[k].(name := "") == Models(Persian)[k].(name := "")
  {
  }

  /** The members every plain JavaScript object inherits from `Object.prototype`. */
  const ObjectPrototypeNames: set<string> := {
    "constructor", "hasOwnProperty", "isPrototypeOf", "propertyIsEnumerable", "toLocaleString",
    "toString", "valueOf", "__defineGetter__", "__defineSetter__", "__lookupGetter__",
    "__lookupSetter__", "__proto__"}

  /** No member inherited from `Object.prototype` is a declared key. */
  lemma PrototypeNamesAreNoKeys()
    ensures forall k | k in ObjectPrototypeNames :: k !in ModelKeys
  {
  }

  datatype PropertyValue = OwnEntry(entry: ModelEntry) | InheritedMember | Undefined

  /** `availableModels[key]` as JavaScript evaluates it on an object literal: own entries first,
      then the members inherited from `Object.prototype` (all of them functions or objects). */
  function PropertyLookup(c: Catalog, key: string): (r: PropertyValue)
    ensures r.OwnEntry? <==> key in c
    ensures r.OwnEntry? ==> r.entry == c[key]
    ensures r.Undefined? <==> key !in c && key !in ObjectPrototypeNames
  {
    if key in c then OwnEntry(c[key])
    else if key in ObjectPrototypeNames then InheritedMember
    else Undefined
  }

  /** JavaScript truthiness of a property read from the registry. */
  predicate IsTruthy(r: PropertyValue)
  {
    !r.Undefined?
  }

  /** `availableModels[modelKey] || availableModels[defaultModelKey]` as JavaScript evaluates it:
      the default applies only when the first read is `undefined`, so an inherited member is kept. */
  function ResolvedProperty(c: Catalog, key: string): (r: PropertyValue)
    requires DefaultModelKey in c
    ensures !r.Undefined?
    ensures r.InheritedMember? <==> key !in c && key in ObjectPrototypeNames
    ensures r.OwnEntry? ==> r.entry == if key in c then c[key] else c[DefaultModelKey]
  {
    var p := PropertyLookup(c, key);
    if IsTruthy(p) then p else PropertyLookup(c, DefaultModelKey)
  }

  /** The `model: model.id` of the OpenRouter request as written: the resolved entry's id, or
      `undefined` (`None`) when the resolved value is an inherited member, which has no `id`. */
  function PostedModelId(c: Catalog, key: string): (id: Option<string>)
    requires DefaultModelKey in c
    ensures id.None? <==> key !in c && key in ObjectPrototypeNames
    ensures id.Some? ==> id.value == (if key in c then c[key] else c[DefaultModelKey]).id
  {
    match ResolvedProperty(c, key)
    case OwnEntry(entry) => Some(entry.id)
    case _ => None
  }

  /** Away from the inherited member names, `Resolve` and `OpenRouterModelId` are what the source's
      `||` gives. */
  lemma ResolveAgreesOffPrototype(c: Catalog, key: string)
    requires DefaultModelKey in c && (key in c || key !in ObjectPrototypeNames)
    ensures ResolvedProperty(c, key) == OwnEntry(Resolve(c, key))
    ensures PostedModelId(c, key) == Some(OpenRouterModelId(c, key))
  {
  }

  /** With the bot's table, an inherited member name is posted with an undefined `model`, and
      every other key with the id `OpenRouterModelId` gives. */
  lemma BotPostedModelId(v: Variant, key: string)
    ensures DefaultModelKey in Models(v)
    ensures PostedModelId(Models(v), key).None? <==> key in ObjectPrototypeNames
    ensures key !in ObjectPrototypeNames ==> PostedModelId(Models(v), key) == Some(OpenRouterModelId(Models(v), key))
  {
    RegistryKeys(v);
    PrototypeNamesAreNoKeys();
    if key !in ObjectPrototypeNames {
      ResolveAgreesOffPrototype(Models(v), key);
    }
  }
}
