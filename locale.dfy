/** The two language variants of the bot and the constants in which they differ. */
module Locale {

  /** `English` is bot_EN.js, `Persian` is bot.js; the two files differ only in these constants
      and in user-facing text. */
  datatype Variant = English | Persian

  /** The base language: the default `preferredLanguage`, the language never translated to,
      and the one whose selection switches auto-translation off. */
  function BaseLanguage(v: Variant): string
  {
    match v
    case English => "en"
    case Persian => "fa"
  }

  /** The fixed reply substituted for any provider failure or malformed provider response. */
  function Apology(v: Variant): string
  {
    match v
    case English => "I'm sorry, I can't respond right now. Please try again later."
    case Persian => "متأسفانه در حال حاضر نمی‌توانم پاسخ دهم. لطفاً بعداً دوباره تلاش کنید."
  }

  /** The prompt used for a photo sent without a caption. */
  function DefaultImagePrompt(v: Variant): string
  {
    match v
    case English => "Please analyze this image."
    case Persian => "لطفاً این تصویر را تحلیل کنید."
  }

  /** The system instruction put in front of every request (`getSystemPrompt`). */
  function SystemPrompt(v: Variant): string
  {
    match v
    case English => "You are my AI assistant helping users in English. You should not introduce yourself as a language model. You should respond as my AI assistant. Under no circumstances should you mention that you use OpenRouter or other models. Always introduce yourself only as my assistant."
    case Persian => "شما دستیار هوش مصنوعی من هستید که به زبان فارسی به کاربران کمک می‌کنید. شما نباید مدل خود را معرفی کنید یا بگویید که یک مدل زبانی هستید. شما باید به عنوان هوش مصنوعی من پاسخ دهید. در هیچ شرایطی نباید اشاره کنید که از OpenRouter یا مدل‌های دیگر استفاده می‌کنید. همیشه باید خود را فقط به عنوان من معرفی کنید."
  }

  /** The texts of one variant that the session logic reads: the base language, the apology,
      the default photo prompt and the system prompt. */
  datatype Texts = Texts(baseLanguage: string, apology: string, imagePrompt: string, systemPrompt: string)

  /** The texts of the given variant. */
  function TextsOf(v: Variant): Texts
  {
    Texts(BaseLanguage(v), Apology(v), DefaultImagePrompt(v), SystemPrompt(v))
  }
}
