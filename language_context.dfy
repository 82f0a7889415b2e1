/**
 * The language context: a constant table of English, Arabic and Russian
 * texts, the `t` lookup with its fallback chain (current language, then
 * English, then the key itself), and the current language, chosen at start
 * from a saved preference or the browser's language and changed by the user.
 *
 * The browser's storage entry for the language is a field of the provider;
 * the browser's language tag is a parameter.
 */
module Language {
  import opened Wrappers

  const En: map<string, string> := map[
    "mining" := "Mining",
    "cards" := "Princess Cards",
    "wallet" := "Wallet",
    "tasks" := "Tasks",
    "referral" := "Referral",
    "admin" := "Admin",
    "mineNow" := "Mine Now",
    "tapsRemaining" := "Taps Remaining",
    "hourlyEarnings" := "Hourly Earnings",
    "totalEarned" := "Total Earned",
    "upgrade" := "Upgrade",
    "buyCard" := "Buy Card",
    "connectWallet" := "Connect Wallet",
    "dailyLogin" := "Daily Login",
    "shareApp" := "Share App",
    "inviteFriends" := "Invite Friends",
    "addCard" := "Add New Card",
    "cardName" := "Card Name",
    "hourlyYield" := "Hourly Yield",
    "price" := "Price",
    "currency" := "Currency",
    "description" := "Description",
    "save" := "Save",
    "cancel" := "Cancel",
    "level" := "Level",
    "owned" := "Owned",
    "princess" := "Princess",
    "magical" := "Magical",
    "fairy" := "Fairy",
    "queen" := "Queen",
    "empress" := "Empress"
  ]

  const Ar: map<string, string> := map[
    "mining" := "التعدين",
    "cards" := "بطاقات الأميرات",
    "wallet" := "المحفظة",
    "tasks" := "المهام",
    "referral" := "الإحالة",
    "admin" := "الإدارة",
    "mineNow" := "عدّن الآن",
    "tapsRemaining" := "النقرات المتبقية",
    "hourlyEarnings" := "الأرباح بالساعة",
    "totalEarned" := "إجمالي المكسب",
    "upgrade" := "ترقية",
    "buyCard" := "شراء البطاقة",
    "connectWallet" := "ربط المحفظة",
    "dailyLogin" := "تسجيل دخول يومي",
    "shareApp" := "مشاركة التطبيق",
    "inviteFriends" := "دعوة الأصدقاء",
    "addCard" := "إضافة بطاقة جديدة",
    "cardName" := "اسم البطاقة",
    "hourlyYield" := "العائد بالساعة",
    "price" := "السعر",
    "currency" := "العملة",
    "description" := "الوصف",
    "save" := "حفظ",
    "cancel" := "إلغاء",
    "level" := "المستوى",
    "owned" := "مملوك",
    "princess" := "أميرة",
    "magical" := "سحرية",
    "fairy" := "جنية",
    "queen" := "ملكة",
    "empress" := "إمبراطورة"
  ]

  const Ru: map<string, string> := map[
    "mining" := "Майнинг",
    "cards" := "Карты Принцесс",
    "wallet" := "Кошелек",
    "tasks" := "Задания",
    "referral" := "Рефералы",
    "admin" := "Админ",
    "mineNow" := "Майнить",
    "tapsRemaining" := "Тапов осталось",
    "hourlyEarnings" := "Доход в час",
    "totalEarned" := "Всего заработано",
    "upgrade" := "Улучшить",
    "buyCard" := "Купить карту",
    "connectWallet" := "Подключить кошелек",
    "dailyLogin" := "Ежедневный вход",
    "shareApp" := "Поделиться",
    "inviteFriends" := "Пригласить друзей",
    "addCard" := "Добавить карту",
    "cardName" := "Название карты",
    "hourlyYield" := "Доход в час",
    "price" := "Цена",
    "currency" := "Валюта",
    "description" := "Описание",
    "save" := "Сохранить",
    "cancel" := "Отмена",
    "level" := "Уровень",
    "owned" := "Принадлежит",
    "princess" := "Принцесса",
    "magical" := "Магическая",
    "fairy" := "Фея",
    "queen" := "Королева",
    "empress" := "Императрица"
  ]

  /** The translation table of a language code (`translations[lang]`), if there is one. */
  function Table(lang: string): (table: Option<map<string, string>>)
    ensures table.Some? <==> lang in {"en", "ar", "ru"}
  {
    if lang == "en" then Some(En)
    else if lang == "ar" then Some(Ar)
    else if lang == "ru" then Some(Ru)
    else None
  }

  /** The language the provider starts with, before any preference is applied. */
  const DefaultLanguage: string := "en"

  /** `lang` has a truthy (present and non-empty) entry for `key`. */
  predicate HasEntry(lang: string, key: string) {
    Table(lang).Some? && key in Table(lang).value && Table(lang).value[key] != ""
  }

  /** `t(key)` under language `lang`. */
  function T(lang: string, key: string): (text: string)
    ensures HasEntry(lang, key) ==> text == Table(lang).value[key]
    ensures !HasEntry(lang, key) && HasEntry("en", key) ==> text == En[key]
    ensures !HasEntry(lang, key) && !HasEntry("en", key) ==> text == key
  {
    if HasEntry(lang, key) then Table(lang).value[key]
    else if HasEntry("en", key) then En[key]
    else key
  }

  /** The three tables translate the same keys. */
  lemma SameKeys()
    ensures Ar.Keys == En.Keys && Ru.Keys == En.Keys
  {
  }

  lemma EnglishEntriesNonEmpty()
    ensures "" !in En.Values
  {
  }

  lemma ArabicEntriesNonEmpty()
    ensures "" !in Ar.Values
  {
  }

  lemma RussianEntriesNonEmpty()
    ensures "" !in Ru.Values
  {
  }

  /** No table has an empty entry. */
  lemma NoEmptyEntries()
    ensures forall lang, key :: Table(lang).Some? && key in Table(lang).value ==> Table(lang).value[key] != ""
  {
    EnglishEntriesNonEmpty();
    ArabicEntriesNonEmpty();
    RussianEntriesNonEmpty();
    forall lang, key | Table(lang).Some? && key in Table(lang).value
      ensures Table(lang).value[key] != ""
    {
      assert Table(lang).value[key] in Table(lang).value.Values;
    }
  }

  /**
   * For a supported language the English fallback is never needed: `t`
   * either translates the key in that language or echoes it.
   */
  lemma SupportedNeverFallsBack(lang: string, key: string)
    requires Table(lang).Some?
    ensures T(lang, key) == if key in Table(lang).value then Table(lang).value[key] else key
  {
    SameKeys();
    NoEmptyEntries();
  }

  /** An unsupported language reads exactly as English. */
  lemma UnsupportedReadsAsEnglish(lang: string, key: string)
    requires Table(lang).None?
    ensures T(lang, key) == T("en", key)
  {
  }

  /** A key missing from the English table is shown as itself, in every language. */
  lemma UntranslatedKeyEchoes(lang: string, key: string)
    requires key !in En
    ensures T(lang, key) == key
  {
    SameKeys();
  }

  lemma TaskCenterNotEnglishKey()
    ensures "taskCenter" !in En
  {
  }

  lemma TaskCompletedNotEnglishKey()
    ensures "taskCompleted" !in En
  {
  }

  lemma RewardReceivedNotEnglishKey()
    ensures "rewardReceived" !in En
  {
  }

  /**
   * Keys the task page asks for but no table defines: its heading and the
   * claim notification read as the keys themselves, in every language.
   */
  lemma TaskPageKeysUntranslated(lang: string)
    ensures T(lang, "taskCenter") == "taskCenter"
    ensures T(lang, "taskCompleted") == "taskCompleted"
    ensures T(lang, "rewardReceived") == "rewardReceived"
  {
    TaskCenterNotEnglishKey();
    TaskCompletedNotEnglishKey();
    RewardReceivedNotEnglishKey();
    UntranslatedKeyEchoes(lang, "taskCenter");
    UntranslatedKeyEchoes(lang, "taskCompleted");
    UntranslatedKeyEchoes(lang, "rewardReceived");
  }

  /** The part of a language tag before its first '-' (the whole tag when there is none). */
  function PrimarySubtag(tag: string): (p: string)
    ensures p <= tag
    ensures '-' !in p
    ensures |p| < |tag| ==> tag[|p|] == '-'
  {
    if tag == [] || tag[0] == '-' then []
    else [tag[0]] + PrimarySubtag(tag[1..])
  }

  /** A saved value counts only when it is a non-empty string. */
  predicate Saved(stored: Option<string>) {
    stored.Some? && stored.value != ""
  }

  /**
   * The language the start-up effect switches to: the saved one when there
   * is one, else the browser tag's primary subtag when the table has it;
   * `None` keeps the current language.
   */
  function PreferredLanguage(stored: Option<string>, browserTag: string): (r: Option<string>)
    ensures Saved(stored) ==> r == stored
    ensures !Saved(stored) ==> (r.Some? <==> Table(PrimarySubtag(browserTag)).Some?)
    ensures !Saved(stored) && r.Some? ==> r.value == PrimarySubtag(browserTag) && Table(r.value).Some?
  {
    if Saved(stored) then stored
    else if Table(PrimarySubtag(browserTag)).Some? then Some(PrimarySubtag(browserTag))
    else None
  }

  /** Without a saved preference the start-up language is always a supported one. */
  lemma StartupLanguageSupported(browserTag: string)
    ensures Table(PreferredLanguage(None, browserTag).GetOr(DefaultLanguage)).Some?
  {
  }

  /**
   * A language set by the user comes back on the next start, whatever the
   * browser says, unless it was the empty string, which counts as nothing saved.
   */
  lemma SavedLanguageRestored(lang: string, browserTag: string)
    ensures lang != "" ==> PreferredLanguage(Some(lang), browserTag) == Some(lang)
    ensures lang == "" ==> PreferredLanguage(Some(lang), browserTag) == PreferredLanguage(None, browserTag)
  {
  }

  /** The provider: the current language and the stored preference. */
  class LanguageProvider {
    var language: string
    /** The browser storage entry under 'language'. */
    var storage: Option<string>

    constructor (stored: Option<string>)
      ensures language == DefaultLanguage && storage == stored
    {
      language := DefaultLanguage;
      storage := stored;
    }

    /** The start-up effect: apply the saved or detected language. */
    method LoadPreference(browserTag: string)
      modifies this
      ensures language == PreferredLanguage(old(storage), browserTag).GetOr(old(language))
      ensures storage == old(storage)
    {
      var saved := storage;
      if saved.Some? && saved.value != "" {
        language := saved.value;
      } else {
        var browserLang := PrimarySubtag(browserTag);
        if Table(browserLang).Some? {
          language := browserLang;
        }
      }
    }

    /** `handleSetLanguage`: switch language and remember it. */
    method SetLanguage(lang: string)
      modifies this
      ensures language == lang && storage == Some(lang)
    {
      language := lang;
      storage := Some(lang);
    }

    /** `t(key)` under the current language. */
    method Translate(key: string) returns (text: string)
      ensures text == T(language, key)
    {
      var table := Table(language).GetOr(map[]);
      if key in table && table[key] != "" {
        text := table[key];
      } else if key in En && En[key] != "" {
        text := En[key];
      } else {
        text := key;
      }
    }
  }
}
