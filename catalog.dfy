/** The localized text catalog `TEXTS` (bot.py:47-126) and the helpers that
    read it: `get_text_for_lang`, `get_text`, `is_home_text` and
    `build_price_caption`. */
module Catalog {
  import opened Wrappers
  import opened Strings

  /** Placeholders of the `price_line` template. */
  datatype Slot = UnitSlot | TotalSlot | CurrencySlot

  /** A `str.format` template read left to right: literal text, a
      `{placeholder}`, or the end. */
  datatype Tmpl = End | Lit(text: string, rest: Tmpl) | Hole(slot: Slot, next: Tmpl)

  /** A catalog value: a plain text, the list of person-type buttons, or a
      `str.format` template. */
  datatype Entry = Str(text: string) | List(items: seq<string>) | Template(tmpl: Tmpl)

  const PricePerBottle := 7000
  const CurrencyCode := "UZS"

  /** `TEXTS["uz"]["welcome"]`, the greeting shown before a language is
      chosen. */
  function Greeting(): string {
    Label(UzText(Welcome))
  }

  /** The languages of the catalog, in the order of the dictionary. */
  const Languages: seq<string> := ["uz", "ru", "en"]

  /** The keys of `TEXTS`; each of the three tables holds all of them. */
  datatype Key =
    | Welcome | AskPerson | PersonButtons | AskPhone | AskName | AskQuantity
    | AskLocation | AskDelivery | AskPayment | Thanks | OrderButton | Continue | Back
    | Plus | Minus | Yes | No | Card | Cash | AskCommentQuestion | AskComment
    | PriceLine | Home | ShareContact

  /** The dictionary key a `Key` stands for. */
  function KeyName(k: Key): string {
    match k
    case Welcome => "welcome"
    case AskPerson => "ask_person"
    case PersonButtons => "person_buttons"
    case AskPhone => "ask_phone"
    case AskName => "ask_name"
    case AskQuantity => "ask_quantity"
    case AskLocation => "ask_location"
    case AskDelivery => "ask_delivery"
    case AskPayment => "ask_payment"
    case Thanks => "thanks"
    case OrderButton => "order_button"
    case Continue => "continue"
    case Back => "back"
    case Plus => "plus"
    case Minus => "minus"
    case Yes => "yes"
    case No => "no"
    case Card => "card"
    case Cash => "cash"
    case AskCommentQuestion => "ask_comment_question"
    case AskComment => "ask_comment"
    case PriceLine => "price_line"
    case Home => "home"
    case ShareContact => "share_contact"
  }

  /** The `Key` a dictionary key names, `None` for a key no table holds. */
  function ParseKey(key: string): Option<Key> {
    match key
    case "welcome" => Some(Welcome)
    case "ask_person" => Some(AskPerson)
    case "person_buttons" => Some(PersonButtons)
    case "ask_phone" => Some(AskPhone)
    case "ask_name" => Some(AskName)
    case "ask_quantity" => Some(AskQuantity)
    case "ask_location" => Some(AskLocation)
    case "ask_delivery" => Some(AskDelivery)
    case "ask_payment" => Some(AskPayment)
    case "thanks" => Some(Thanks)
    case "order_button" => Some(OrderButton)
    case "continue" => Some(Continue)
    case "back" => Some(Back)
    case "plus" => Some(Plus)
    case "minus" => Some(Minus)
    case "yes" => Some(Yes)
    case "no" => Some(No)
    case "card" => Some(Card)
    case "cash" => Some(Cash)
    case "ask_comment_question" => Some(AskCommentQuestion)
    case "ask_comment" => Some(AskComment)
    case "price_line" => Some(PriceLine)
    case "home" => Some(Home)
    case "share_contact" => Some(ShareContact)
    case _ => None
  }

  /** Every key is read back as itself. */
  lemma ParseKeyName(k: Key)
    ensures ParseKey(KeyName(k)) == Some(k)
  {
  }

  /** `TEXTS["uz"]` */
  function UzText(k: Key): (e: Entry)
    ensures ShowsText(e)
  {
    match k
    case Welcome => Str("Xush kelibsiz! Iltimos, tilni tanlang:")
    case AskPerson => Str("Iltimos, shaxs turini tanlang:")
    case PersonButtons => List(["👤 Jismoniy shaxs", "🏢 Yuridik shaxs"])
    case AskPhone => Str("Kontaktni ulashing (telefon):")
    case AskName => Str("Ismingizni kiriting:")
    case AskQuantity => Str("Nechta suv olmoqchisiz? (Eng kam 2 ta)")
    case AskLocation => Str("Manzilingizni yuboring:")
    case AskDelivery => Str("Qachon yetkazib berish kerak? (sana tanlang)")
    case AskPayment => Str("To‘lov turini tanlang:")
    case Thanks => Str("Rahmat! Buyurtmangiz qabul qilindi ✅")
    case OrderButton => Str("📦 Buyurtma berish")
    case Continue => Str("➡️ Davom etish")
    case Back => Str("⬅️ Orqaga")
    case Plus => Str("➕")
    case Minus => Str("➖")
    case Yes => Str("✅ Ha")
    case No => Str("❌ Yo'q")
    case Card => Str("💳 Kartada")
    case Cash => Str("💵 Naqd")
    case AskCommentQuestion => Str("Buyurtmaga izoh qo'shasizmi?")
    case AskComment => Str("Iltimos, izohni kiriting:")
    case PriceLine => Template(PriceTemplate("Narx: ", " / dona — Jami: "))
    case Home => Str("🏠 Bosh sahifa")
    case ShareContact => Str("📞 Kontaktni ulashish")
  }

  /** `TEXTS["ru"]` */
  function RuText(k: Key): (e: Entry)
    ensures ShowsText(e)
  {
    match k
    case Welcome => Str("Добро пожаловать! Пожалуйста, выберите язык:")
    case AskPerson => Str("Выберите тип клиента:")
    case PersonButtons => List(["👤 Физическое лицо", "🏢 Юридическое лицо"])
    case AskPhone => Str("Поделитесь контактом (номер телефона):")
    case AskName => Str("Введите ваше имя:")
    case AskQuantity => Str("Сколько бутылок воды хотите заказать? (Минимум 2)")
    case AskLocation => Str("Отправьте вашу локацию:")
    case AskDelivery => Str("Когда доставить заказ? (выберите дату)")
    case AskPayment => Str("Выберите способ оплаты:")
    case Thanks => Str("Спасибо! Ваш заказ принят ✅")
    case OrderButton => Str("📦 Сделать заказ")
    case Continue => Str("➡️ Продолжить")
    case Back => Str("⬅️ Назад")
    case Plus => Str("➕")
    case Minus => Str("➖")
    case Yes => Str("✅ Да")
    case No => Str("❌ Нет")
    case Card => Str("💳 Карта")
    case Cash => Str("💵 Наличными")
    case AskCommentQuestion => Str("Добавите ли вы комментарий к заказу?")
    case AskComment => Str("Пожалуйста, введите комментарий:")
    case PriceLine => Template(PriceTemplate("Цена: ", " / шт — Итого: "))
    case Home => Str("🏠 Главная")
    case ShareContact => Str("📞 Поделиться контактом")
  }

  /** `TEXTS["en"]` */
  function EnText(k: Key): (e: Entry)
    ensures ShowsText(e)
  {
    match k
    case Welcome => Str("Welcome! Please select your language:")
    case AskPerson => Str("Please select your customer type:")
    case PersonButtons => List(["👤 Individual", "🏢 Company"])
    case AskPhone => Str("Please share your contact (phone):")
    case AskName => Str("Enter your name:")
    case AskQuantity => Str("How many bottles of water do you want? (Minimum 2)")
    case AskLocation => Str("Please share your location:")
    case AskDelivery => Str("When should we deliver? (choose a date)")
    case AskPayment => Str("Choose your payment method:")
    case Thanks => Str("Thank you! Your order has been received ✅")
    case OrderButton => Str("📦 Place Order")
    case Continue => Str("➡️ Continue")
    case Back => Str("⬅️ Back")
    case Plus => Str("➕")
    case Minus => Str("➖")
    case Yes => Str("✅ Yes")
    case No => Str("❌ No")
    case Card => Str("💳 Card")
    case Cash => Str("💵 Cash")
    case AskCommentQuestion => Str("Would you like to add a comment to the order?")
    case AskComment => Str("Please enter the comment:")
    case PriceLine => Template(PriceTemplate("Price: ", " / pc — Total: "))
    case Home => Str("🏠 Home")
    case ShareContact => Str("📞 Share Contact")
  }

  /** A language `TEXTS` has a table for. */
  predicate KnownLanguage(lang: string) {
    lang == "uz" || lang == "ru" || lang == "en"
  }

  /** `TEXTS.get(lang, TEXTS["uz"])[key]`: an unknown language reads the
      Uzbek table. */
  function Lookup(lang: string, k: Key): Entry {
    if lang == "ru" then RuText(k) else if lang == "en" then EnText(k) else UzText(k)
  }

  /** `TEXTS.get(lang, TEXTS["uz"]).get(key)` for any dictionary key. */
  function TableEntry(lang: string, key: string): Option<Entry> {
    match ParseKey(key)
    case Some(k) => Some(Lookup(lang, k))
    case None => None
  }

  /** `get_text_for_lang`: an unknown language reads the Uzbek table, and a
      key missing from the table read is answered with the key itself. */
  function GetTextForLang(lang: string, key: string): (r: Entry)
    ensures ParseKey(key).None? ==> r == Str(key)
    ensures ParseKey(key).Some? && lang == "ru" ==> r == RuText(ParseKey(key).value)
    ensures ParseKey(key).Some? && lang == "en" ==> r == EnText(ParseKey(key).value)
    ensures ParseKey(key).Some? && lang != "ru" && lang != "en" ==> r == UzText(ParseKey(key).value)
  {
    match TableEntry(lang, key)
    case Some(e) => e
    case None => Str(key)
  }

  /** `get_text`: the session's language, Uzbek while none is chosen. */
  function GetText(lang: Option<string>, k: Key): Entry {
    Lookup(lang.GetOr("uz"), k)
  }

  /** The typed lookups are the dictionary lookups of the key's name. */
  lemma GetTextIsLookup(lang: Option<string>, k: Key)
    ensures GetText(lang, k) == GetTextForLang(lang.GetOr("uz"), KeyName(k))
    ensures Lookup(lang.GetOr("uz"), k) == GetTextForLang(lang.GetOr("uz"), KeyName(k))
  {
    ParseKeyName(k);
  }

  /** The source text of a template (what Python holds before `format`). */
  function TmplSource(t: Tmpl): string {
    match t
    case End => ""
    case Lit(text, rest) => text + TmplSource(rest)
    case Hole(slot, rest) =>
      (match slot
       case UnitSlot => "{unit}"
       case TotalSlot => "{total}"
       case CurrencySlot => "{currency}") + TmplSource(rest)
  }

  /** An entry used as message or button text. A list entry is never used
      this way (only `person_buttons` is a list, and it is read with
      `Items`); it is rendered as its items run together. */
  function Label(e: Entry): string {
    match e
    case Str(t) => t
    case Template(t) => TmplSource(t)
    case List(items) => Concat(items)
  }

  function Concat(items: seq<string>): string {
    if items == [] then "" else items[0] + Concat(items[1..])
  }

  /** The text the bot shows for `key` in the session's language. */
  function Say(lang: Option<string>, k: Key): string {
    Label(GetText(lang, k))
  }

  /** `[[b] for b in get_text(..., "person_buttons")]` iterates the list; a
      plain string would be iterated character by character. */
  function Items(e: Entry): (r: seq<string>)
    ensures e.List? ==> r == e.items
    ensures e.Str? ==> |r| == |e.text| && forall i :: 0 <= i < |r| ==> r[i] == [e.text[i]]
  {
    match e
    case List(items) => items
    case Str(t) => seq(|t|, i requires 0 <= i < |t| => [t[i]])
    case Template(tm) => var t := TmplSource(tm); seq(|t|, i requires 0 <= i < |t| => [t[i]])
  }

  /** For a key the catalog does not hold, every language answers with the
      key itself: there is no second lookup in the Uzbek table. */
  lemma MissingKeyIsKey(lang: string, key: string)
    requires ParseKey(key).None?
    ensures GetTextForLang(lang, key) == Str(key)
  {
  }

  /** An unknown language reads exactly what Uzbek reads. */
  lemma UnknownLanguageIsUzbek(lang: string, key: string)
    requires !KnownLanguage(lang)
    ensures GetTextForLang(lang, key) == GetTextForLang("uz", key)
  {
  }

  /** A value that shows some text: a non-empty string, a non-empty list
      whose first item is non-empty, a template that starts with text. */
  predicate ShowsText(e: Entry) {
    match e
    case Str(t) => t != ""
    case List(items) => items != [] && items[0] != ""
    case Template(t) => t.Lit? && t.text != ""
  }

  lemma ShowsTextLabel(e: Entry)
    requires ShowsText(e)
    ensures Label(e) != ""
  {
    if e.List? {
      assert Concat(e.items) == e.items[0] + Concat(e.items[1..]);
    }
  }


  /** Every catalog value is non-empty; with the key fallback, a lookup under
      a non-empty key never yields an empty text. */
  lemma LookupNeverEmpty(lang: string, key: string)
    requires key != ""
    ensures Label(GetTextForLang(lang, key)) != ""
  {
    ShowsTextLabel(GetTextForLang(lang, key));
  }

  /** No text the bot shows from the catalog is empty. */
  lemma SayNeverEmpty(lang: Option<string>, k: Key)
    ensures Say(lang, k) != ""
  {
    ShowsTextLabel(GetText(lang, k));
  }

  /** `is_home_text`: after `strip()` the text equals the "home" label of
      some language of the catalog. */
  predicate IsHome(text: string) {
    text != "" && HomeLabelAmong(Strip(text))
  }

  /** `t` is the "home" label of some language of the catalog. */
  predicate HomeLabelAmong(t: string) {
    exists i :: 0 <= i < |Languages| && HomeLabelIs(Languages[i], t)
  }

  /** `TEXTS[lang].get("home") == t` */
  predicate HomeLabelIs(lang: string, t: string) {
    KnownLanguage(lang) && Lookup(lang, Home) == Str(t)
  }

  /** `is_home_text` */
  method IsHomeText(text: string) returns (b: bool)
    ensures b == IsHome(text)
  {
    if text == "" {
      return false;
    }
    b := FindHomeLabel(Strip(text));
  }

  /** The search loop of `is_home_text` over the languages of the catalog. */
  method FindHomeLabel(t: string) returns (b: bool)
    ensures b == HomeLabelAmong(t)
  {
    for i := 0 to |Languages|
      invariant forall j :: 0 <= j < i ==> !HomeLabelIs(Languages[j], t)
    {
      if HomeLabelIs(Languages[i], t) {
        assert HomeLabelAmong(t);
        return true;
      }
    }
    assert !HomeLabelAmong(t);
    return false;
  }

  lemma HomeLabelOf(lang: string, t: string)
    ensures HomeLabelIs(lang, t) <==>
      (lang == "uz" && t == "🏠 Bosh sahifa") ||
      (lang == "ru" && t == "🏠 Главная") ||
      (lang == "en" && t == "🏠 Home")
  {
  }

  /** The home check accepts exactly the three localized "home" labels,
      surrounded by any whitespace. */
  lemma HomeLabels(text: string)
    ensures IsHome(text) <==> Strip(text) in {"🏠 Bosh sahifa", "🏠 Главная", "🏠 Home"}
  {
    var t := Strip(text);
    HomeLabelOf("uz", t);
    HomeLabelOf("ru", t);
    HomeLabelOf("en", t);
    if IsHome(text) {
      var i :| 0 <= i < |Languages| && HomeLabelIs(Languages[i], t);
      assert i == 0 || i == 1 || i == 2;
    }
    if t in {"🏠 Bosh sahifa", "🏠 Главная", "🏠 Home"} {
      assert text != [];
      var i := if t == "🏠 Bosh sahifa" then 0 else if t == "🏠 Главная" then 1 else 2;
      assert HomeLabelIs(Languages[i], t);
    }
  }

  /** The order total and the caption's total: price per bottle times the
      quantity. */
  function Total(qty: int): (r: int)
    ensures qty >= 2 ==> r >= 2 * PricePerBottle
  {
    PricePerBottle * qty
  }

  /** The values `build_price_caption` passes to `format`. */
  function SlotValue(slot: Slot, qty: int): string {
    match slot
    case UnitSlot => IntToString(PricePerBottle)
    case TotalSlot => IntToString(Total(qty))
    case CurrencySlot => CurrencyCode
  }

  /** `str.format` of a template: each placeholder replaced by its value. */
  function Fill(t: Tmpl, qty: int): string {
    match t
    case End => ""
    case Lit(text, rest) => text + Fill(rest, qty)
    case Hole(slot, rest) => SlotValue(slot, qty) + Fill(rest, qty)
  }

  /** `build_price_caption`: the `price_line` template of the language with
      the unit price, the total and the currency filled in. */
  function BuildPriceCaption(qty: int, lang: string): string {
    match Lookup(lang, PriceLine)
    case Template(t) => Fill(t, qty)
    case e => Label(e)
  }

  lemma UnitPriceText()
    ensures IntToString(PricePerBottle) == "7000"
  {
    assert NatToString(7) == "7";
    assert NatToString(70) == NatToString(7) + ['0'];
    assert NatToString(700) == NatToString(70) + ['0'];
    assert NatToString(7000) == NatToString(700) + ['0'];
  }

  /** The shape shared by the three `price_line` templates:
      `<head>{unit} {currency}<mid>{total} {currency}`. */
  function PriceTemplate(head: string, mid: string): Tmpl {
    Lit(head, Hole(UnitSlot, Lit(" ", Hole(CurrencySlot,
      Lit(mid, Hole(TotalSlot, Lit(" ", Hole(CurrencySlot, End))))))))
  }

  lemma FillPriceTemplate(head: string, mid: string, qty: int)
    ensures Fill(PriceTemplate(head, mid), qty) ==
            head + IntToString(PricePerBottle) + " " + CurrencyCode + mid + IntToString(Total(qty)) + " " + CurrencyCode
  {
    var u, c, total := IntToString(PricePerBottle), CurrencyCode, IntToString(Total(qty));
    var tail := Lit(" ", Hole(CurrencySlot, End));
    var back := Lit(mid, Hole(TotalSlot, tail));
    assert Fill(End, qty) == "";
    assert Fill(Hole(CurrencySlot, End), qty) == c;
    assert Fill(tail, qty) == " " + c;
    assert Fill(Hole(TotalSlot, tail), qty) == total + Fill(tail, qty);
    assert Fill(back, qty) == mid + Fill(Hole(TotalSlot, tail), qty);
    assert Fill(Hole(CurrencySlot, back), qty) == c + Fill(back, qty);
    assert Fill(Lit(" ", Hole(CurrencySlot, back)), qty) == " " + Fill(Hole(CurrencySlot, back), qty);
    assert Fill(Hole(UnitSlot, Lit(" ", Hole(CurrencySlot, back))), qty) == u + Fill(Lit(" ", Hole(CurrencySlot, back)), qty);
    Regroup(head, u, " ", c, mid, total, " ", c);
  }

  /** Concatenation regrouped from the right to the left. */
  lemma Regroup(a: string, b: string, c: string, d: string, e: string, f: string, g: string, h: string)
    ensures a + (b + (c + (d + (e + (f + (g + h)))))) == a + b + c + d + e + f + g + h
  {
  }

  lemma PriceLineOf(lang: string)
    ensures Lookup(lang, PriceLine) ==
      if lang == "ru" then Template(PriceTemplate("Цена: ", " / шт — Итого: "))
      else if lang == "en" then Template(PriceTemplate("Price: ", " / pc — Total: "))
      else Template(PriceTemplate("Narx: ", " / dona — Jami: "))
  {
  }

  /** The text before the unit price in the caption of each language. */
  function PriceHead(lang: string): string {
    if lang == "ru" then "Цена: " else if lang == "en" then "Price: " else "Narx: "
  }

  /** The text between the currency and the total. */
  function PriceMid(lang: string): string {
    if lang == "ru" then " / шт — Итого: " else if lang == "en" then " / pc — Total: " else " / dona — Jami: "
  }

  lemma CaptionIsFill(qty: int, lang: string)
    ensures BuildPriceCaption(qty, lang) == Fill(PriceTemplate(PriceHead(lang), PriceMid(lang)), qty)
  {
    PriceLineOf(lang);
  }

  /** What `build_price_caption` shows in each language: the unit price 7000
      and the currency, then the total for `qty` bottles and the currency.
      An unknown language gets the Uzbek line. */
  lemma CaptionText(qty: int, lang: string)
    ensures BuildPriceCaption(qty, lang) ==
      PriceHead(lang) + "7000" + " " + "UZS" + PriceMid(lang) + IntToString(Total(qty)) + " " + "UZS"
  {
    CaptionIsFill(qty, lang);
    FillPriceTemplate(PriceHead(lang), PriceMid(lang), qty);
    UnitPriceText();
  }

  /** Two different quantities never share a caption. */
  lemma CaptionInjective(q1: int, q2: int, lang: string)
    requires BuildPriceCaption(q1, lang) == BuildPriceCaption(q2, lang)
    ensures q1 == q2
  {
    CaptionText(q1, lang);
    CaptionText(q2, lang);
    var head := PriceHead(lang) + "7000" + " " + "UZS" + PriceMid(lang);
    var t1, t2 := IntToString(Total(q1)), IntToString(Total(q2));
    var c1, c2 := head + t1 + " " + "UZS", head + t2 + " " + "UZS";
    assert c1 == c2;
    assert t1 == c1[|head|..|c1| - 4];
    assert t2 == c2[|head|..|c2| - 4];
    IntToStringInjective(Total(q1), Total(q2));
  }

}
