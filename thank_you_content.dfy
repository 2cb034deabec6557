/** The content side of the thank-you view: the resolution key derived from
    the query parameters and the static table of content records. */
module ThankYouContent {
  import opened Js

  /** A content record. `title` and `text` are always given; the link fields
      are optional properties (`Null` when the record does not define them). */
  datatype ContentRecord = ContentRecord(
    title: string,
    text: string,
    telegramUrl: JsString,
    telegramLabel: JsString,
    telegramUrlSecondary: JsString,
    telegramLabelSecondary: JsString)

  const GenericKey: string := "generic"

  /** Label of the primary link when the record gives none. */
  const PrimaryDefaultLabel: string := "Перейти в Telegram"
  /** Label of the secondary link when the record gives none. */
  const SecondaryDefaultLabel: string := "Написати автору в Telegram"

  const BasicClubUrl: string := "https://t.me/+IXwagqxdGgY4NThi"
  const VipClubUrl: string := "https://t.me/+pD8bA6lpTsJhODE6"
  const AuthorUrl: string := "https://t.me/Pologenko"

  /** The static table `configMap`, keyed by resolution key. */
  const ConfigTable: map<string, ContentRecord> := map[
    "course:Basic" := ContentRecord(
      "Доступ до курсу LANA BOOST BAZA оформлено",
      "Перейдіть у Telegram‑канал «Басік Лана клаб», щоб отримати матеріали курсу LANA BOOST BAZA.",
      Str(BasicClubUrl), Str("Перейти в канал «Басік Лана клаб»"), Null, Null),
    "course:Pro" := ContentRecord(
      "Доступ до курсу Pro оформлено",
      "Перейдіть у Telegram, щоб отримати матеріали курсу Pro.",
      Str(VipClubUrl), Null, Null, Null),
    "course:Premium" := ContentRecord(
      "Доступ до курсу Premium оформлено",
      "Перейдіть у VIP‑клуб та зв’яжіться з автором у Telegram.",
      Str(VipClubUrl), Null, Str(AuthorUrl), Str("Написати автору в Telegram")),
    "service:consultation" := ContentRecord(
      "Заявку на консультацію прийнято",
      "Перейдіть у Telegram, щоб узгодити час консультації.",
      Str(AuthorUrl), Null, Null, Null),
    "service:audit" := ContentRecord(
      "Заявку на розбір акаунту прийнято",
      "Перейдіть у Telegram, щоб надіслати посилання на акаунт.",
      Str(AuthorUrl), Null, Null, Null),
    "service:monetized_tiktok" := ContentRecord(
      "Оплату за монетизований акаунт TikTok прийнято",
      "Перейдіть до автора в Telegram, щоб отримати доступ до монетизованого акаунту TikTok та інструкції з використання.",
      Str(AuthorUrl), Null, Null, Null),
    "service:monetized_triple" := ContentRecord(
      "Оплату за пакет із 3 монетизованих акаунтів прийнято",
      "Перейдіть до автора в Telegram, щоб отримати доступ до акаунтів TikTok, Telegram та YouTube та подальші інструкції.",
      Str(AuthorUrl), Null, Null, Null),
    "service:mentorship" := ContentRecord(
      "Заявку на індивідуальний супровід прийнято",
      "Перейдіть у VIP‑клуб та напишіть автору в Telegram, щоб узгодити деталі супроводу.",
      Str(VipClubUrl), Str("Перейти у VIP CLUB LANA"), Str(AuthorUrl), Str("Написати автору в Telegram")),
    "service:test" := ContentRecord(
      "Тестова оплата пройшла успішно",
      "Це тестова сторінка «Дякуємо». Тут ви бачите, як виглядає доступ до Telegram після успішної оплати.",
      Str(VipClubUrl), Str("Відкрити VIP CLUB LANA"), Str(AuthorUrl), Str("Написати автору в Telegram")),
    GenericKey := ContentRecord(
      "Заявку прийнято",
      "Дякуємо! Інформацію про оплату отримано. Менеджер звʼяжеться з вами найближчим часом, щоб підтвердити деталі та дати подальші інструкції.",
      Str(""), Null, Null, Null)
  ]

  /** The resolution key, evaluated with the short-circuit `And`/`Or` of
      `Js`: type and tier first, then type and service, then request, then
      the generic key. The contract states that precedence, with an empty
      string counting as absent. */
  function ResolveKey(kind: JsString, tier: JsString, service: JsString, request: JsString): (key: string)
    ensures key != ""
    ensures kind.Truthy() && tier.Truthy() ==> key == kind.value + ":" + tier.value
    ensures kind.Truthy() && !tier.Truthy() && service.Truthy() ==> key == kind.value + ":" + service.value
    ensures !(kind.Truthy() && (tier.Truthy() || service.Truthy())) && request.Truthy() ==> key == request.value
    ensures !(kind.Truthy() && (tier.Truthy() || service.Truthy())) && !request.Truthy() ==> key == GenericKey
  {
    var byTier := And(And(kind, tier), Pair(kind, tier));
    var byService := And(And(kind, service), Pair(kind, service));
    var r := Or(Or(Or(byTier, byService), request), Str(GenericKey));
    r.value
  }

  /** The key read from a query string. */
  function QueryKey(q: Query): (key: string)
    ensures key != ""
  {
    ResolveKey(Get(q, "type"), Get(q, "tier"), Get(q, "service"), Get(q, "request"))
  }

  /** The record for the key, or the generic record: total, since the
      generic entry exists. */
  function Lookup(key: string): (r: ContentRecord)
    ensures key in ConfigTable ==> r == ConfigTable[key]
    ensures key !in ConfigTable ==> r == ConfigTable[GenericKey]
    ensures r in ConfigTable.Values
  {
    if key in ConfigTable then ConfigTable[key] else ConfigTable[GenericKey]
  }

  /** Every record of the table has a title and a text, so a shown view
      always overwrites the title and text slots that exist. */
  lemma RecordsHaveTitleAndText(key: string)
    ensures Lookup(key).title != "" && Lookup(key).text != ""
  {
  }

  /** The generic record defines no link. */
  lemma GenericHasNoLink()
    ensures !ConfigTable[GenericKey].telegramUrl.Truthy()
    ensures !ConfigTable[GenericKey].telegramUrlSecondary.Truthy()
  {
  }

  /** Every record of the table is reached by some query: the `request`
      parameter alone selects it. */
  lemma EveryRecordSelectable(key: string)
    requires key in ConfigTable
    ensures exists q: Query :: Lookup(QueryKey(q)) == ConfigTable[key]
  {
    var q: Query := map["request" := key];
    assert QueryKey(q) == key;
  }

  /** Empty parameters count as absent. */
  lemma EmptyCountsAsAbsent()
    ensures ResolveKey(Str("service"), Str(""), Str("audit"), Null) == "service:audit"
    ensures ResolveKey(Str(""), Str(""), Str(""), Str("")) == GenericKey
    ensures ResolveKey(Null, Null, Null, Null) == GenericKey
  {
  }

  /** A key the table does not know falls back to the generic record. */
  lemma UnknownTierFallsBack()
    ensures QueryKey(map["type" := "course", "tier" := "Unknown"]) == "course:Unknown"
    ensures Lookup("course:Unknown") == ConfigTable[GenericKey]
  {
  }
}
