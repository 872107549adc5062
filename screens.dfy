/** What the bot sends, with the Telegram calls replaced by values: reply
    and inline keyboards, the messages of one step, and the screen each
    state shows when it is reached going forward. */
module Screens {
  import opened Wrappers
  import opened Strings
  import opened Catalog

  /** A button of a reply keyboard; the last two ask Telegram to share the
      contact or the location. */
  datatype ReplyButton = Plain(text: string) | RequestContact(text: string) | RequestLocation(text: string)

  /** A button of an inline keyboard with its callback token. */
  datatype InlineButton = InlineButton(text: string, data: string)

  datatype Markup =
    | NoMarkup                                        // no reply_markup argument
    | ReplyKeyboard(rows: seq<seq<ReplyButton>>)      // ReplyKeyboardMarkup
    | RemoveKeyboard                                  // ReplyKeyboardRemove
    | InlineKeyboard(buttons: seq<seq<InlineButton>>) // InlineKeyboardMarkup

  datatype Message =
    | SendText(text: string, markup: Markup)
    | SendPhoto(caption: Option<string>, markup: Markup)
    | EditCaption(newCaption: string, markup: Markup)
    | EditText(newText: string, markup: Markup)
    | ShowAlert(alert: string)
    | ForwardOrder(order: string)                     // to the order chat

  /** The messages one handler call sends, in order. */
  type Render = seq<Message>

  // ----- the quantity keyboard -----

  /** `build_qty_markup`: minus, the count, plus; then continue. */
  function BuildQtyMarkup(count: int, lang: string): (m: Markup)
    ensures m.InlineKeyboard? && |m.buttons| == 2 && |m.buttons[0]| == 3
    ensures m.buttons[0][1] == InlineButton(IntToString(count), "count")
  {
    var plus := Label(Lookup(lang, Plus));
    var minus := Label(Lookup(lang, Minus));
    var cont := Label(Lookup(lang, Continue));
    InlineKeyboard([
      [InlineButton(minus, "decr"), InlineButton(IntToString(count), "count"), InlineButton(plus, "incr")],
      [InlineButton(cont, "continue_qty")]])
  }

  /** Every token of the quantity keyboard is one the quantity state routes
      to its handler, and each token is on exactly one button. */
  lemma QtyMarkupTokens(count: int, lang: string)
    ensures var b := BuildQtyMarkup(count, lang).buttons;
      [b[0][0].data, b[0][1].data, b[0][2].data, b[1][0].data] == ["decr", "count", "incr", "continue_qty"] &&
      |b[1]| == 1
  {
  }

  /** The keyboard shows the count, so different counts give different
      keyboards. */
  lemma QtyMarkupInjective(c1: int, c2: int, lang: string)
    requires BuildQtyMarkup(c1, lang) == BuildQtyMarkup(c2, lang)
    ensures c1 == c2
  {
    assert BuildQtyMarkup(c1, lang).buttons[0][1].text == IntToString(c1);
    IntToStringInjective(c1, c2);
  }

  // ----- the delivery offer -----

  /** The days offered for delivery: today+1 .. today+5 (every weekday). */
  function OfferedDays(today: int): (days: seq<int>)
    ensures |days| == 5
    ensures forall i :: 0 <= i < 5 ==> days[i] == today + 1 + i
  {
    seq(5, i => today + 1 + i)
  }

  /** The label of a day; the decimal day number stands for the
      `%Y-%m-%d` rendering. */
  function DayLabel(day: int): string {
    IntToString(day)
  }

  /** The callback token of a date button. */
  function DateToken(lbl: string): string {
    "date_" + lbl
  }

  /** The date buttons, one per row, then the back button. */
  function DeliveryButtons(lang: Option<string>, today: int): seq<seq<InlineButton>> {
    var days := OfferedDays(today);
    seq(5, i requires 0 <= i < 5 => [InlineButton(DayLabel(days[i]), DateToken(DayLabel(days[i])))])
    + [[InlineButton(Say(lang, Back), "back_any")]]
  }

  /** `data.split("_", 1)[1]` for a token that starts with `date_`. */
  function DatePayload(data: string): (d: string)
    requires StartsWith(data, "date_")
  {
    assert data[4] == '_';
    var parts := SplitOnce(data, '_');
    assert |parts| == 2 by { assert data[4] in data; }
    parts[1]
  }

  /** Splitting at the first `_` takes exactly the `date_` prefix off. */
  lemma DatePayloadIsSuffix(data: string)
    requires StartsWith(data, "date_")
    ensures DatePayload(data) == data[5..]
  {
    var parts := SplitOnce(data, '_');
    assert data[4] in data;
    assert parts[0] + ['_'] + parts[1] == data;
    var k := |parts[0]|;
    assert data[..k] == parts[0];
    assert k == 4;
    assert data[5..] == parts[1];
  }

  /** Round trip of the date token: the handler stores exactly the label
      that was put on the button. */
  lemma DateTokenRoundTrip(lbl: string)
    ensures StartsWith(DateToken(lbl), "date_")
    ensures DatePayload(DateToken(lbl)) == lbl
  {
    DatePayloadIsSuffix(DateToken(lbl));
    assert DateToken(lbl)[5..] == lbl;
  }

  /** The offer: five days, one a day apart in ascending order, each button
      carrying the token of its own label, then a back button. */
  lemma DeliveryOffer(lang: Option<string>, today: int)
    ensures var b: seq<seq<InlineButton>> := DeliveryButtons(lang, today);
      |b| == 6 && b[5] == [InlineButton(Say(lang, Back), "back_any")] &&
      forall i :: 0 <= i < 5 ==>
        |b[i]| == 1 && b[i][0].text == DayLabel(today + 1 + i) &&
        DatePayload(b[i][0].data) == b[i][0].text
  {
    var b: seq<seq<InlineButton>> := DeliveryButtons(lang, today);
    forall i: int | 0 <= i < 5
      ensures DatePayload(b[i][0].data) == b[i][0].text
    {
      DateTokenRoundTrip(b[i][0].text);
    }
  }

  /** Different labels give different tokens. */
  lemma DateTokenInjective(a: string, b: string)
    requires DateToken(a) == DateToken(b)
    ensures a == b
  {
    assert a == DateToken(a)[5..];
  }

  /** Different days give different tokens. */
  lemma DayTokensDistinct(d1: int, d2: int)
    requires DateToken(DayLabel(d1)) == DateToken(DayLabel(d2))
    ensures d1 == d2
  {
    DateTokenInjective(DayLabel(d1), DayLabel(d2));
    IntToStringInjective(d1, d2);
  }

  /** The button of the i-th offered day. */
  lemma DeliveryButtonAt(lang: Option<string>, today: int, i: nat)
    requires i < 5
    ensures DeliveryButtons(lang, today)[i] == [InlineButton(DayLabel(today + 1 + i), DateToken(DayLabel(today + 1 + i)))]
  {
  }

  /** The five offered tokens are pairwise different, so each picks one day. */
  lemma DeliveryTokensDistinct(lang: Option<string>, today: int, i: nat, j: nat)
    requires i < 5 && j < 5 && DeliveryButtons(lang, today)[i][0].data == DeliveryButtons(lang, today)[j][0].data
    ensures i == j
  {
    DeliveryButtonAt(lang, today, i);
    DeliveryButtonAt(lang, today, j);
    DayTokensDistinct(today + 1 + i, today + 1 + j);
  }

  // ----- the screens of the forward path -----

  /** The reply keyboard of the language choice. */
  const LanguageKeyboard := ReplyKeyboard([[Plain("🇺🇿 Uzbek"), Plain("🇷🇺 Russian"), Plain("🇬🇧 English")]])

  /** `start`: the product photo when there is one, then the Uzbek welcome
      with the language keyboard. */
  function StartScreen(hasImage: bool): Render {
    (if hasImage then [SendPhoto(None, NoMarkup)] else [])
    + [SendText(Greeting(), LanguageKeyboard)]
  }

  /** The person-type question with one button per type and back below. */
  function PersonScreen(lang: Option<string>): Message {
    var types := Items(GetText(lang, PersonButtons));
    SendText(Say(lang, AskPerson),
      ReplyKeyboard(seq(|types|, i requires 0 <= i < |types| => [Plain(types[i])]) + [[Plain(Say(lang, Back))]]))
  }

  /** The phone question with the share-contact button and back. */
  function PhoneScreen(lang: Option<string>): Message {
    SendText(Say(lang, AskPhone),
      ReplyKeyboard([[RequestContact(Say(lang, ShareContact))], [Plain(Say(lang, Back))]]))
  }

  /** The phone question again after an unusable answer, keyboard kept. */
  function PhoneRetry(lang: Option<string>): Message {
    SendText(Say(lang, AskPhone), NoMarkup)
  }

  function NameScreen(lang: Option<string>): Message {
    SendText(Say(lang, AskName), RemoveKeyboard)
  }

  /** The quantity question followed by the price caption. */
  function QuantityPrompt(qty: int, lang: string, sessionLang: Option<string>): string {
    Say(sessionLang, AskQuantity) + "\n\n" + BuildPriceCaption(qty, lang)
  }

  /** The quantity screen: a captioned photo when there is an image. */
  function QuantityScreen(qty: int, lang: string, hasImage: bool): Message {
    var prompt := QuantityPrompt(qty, lang, Some(lang));
    var markup := BuildQtyMarkup(qty, lang);
    if hasImage then SendPhoto(Some(prompt), markup) else SendText(prompt, markup)
  }

  /** The in-place update of the quantity screen after a tap. */
  function QuantityEdit(qty: int, lang: string, photo: bool): Message {
    var prompt := QuantityPrompt(qty, lang, Some(lang));
    var markup := BuildQtyMarkup(qty, lang);
    if photo then EditCaption(prompt, markup) else EditText(prompt, markup)
  }

  /** The edit shows the count: different counts never give the same edit. */
  lemma QuantityEditInjective(q1: int, q2: int, lang: string, photo: bool)
    requires QuantityEdit(q1, lang, photo) == QuantityEdit(q2, lang, photo)
    ensures q1 == q2
  {
    QtyMarkupInjective(q1, q2, lang);
  }

  function CommentScreen(lang: Option<string>): Message {
    SendText(Say(lang, AskCommentQuestion), InlineKeyboard([
      [InlineButton(Say(lang, Yes), "comment_yes"), InlineButton(Say(lang, No), "comment_no")],
      [InlineButton(Say(lang, Back), "back_any")]]))
  }

  function CommentInputScreen(lang: Option<string>): Message {
    SendText(Say(lang, AskComment), RemoveKeyboard)
  }

  /** The location question; the share-location label is not localized. */
  function LocationScreen(lang: Option<string>): Message {
    SendText(Say(lang, AskLocation),
      ReplyKeyboard([[RequestLocation("📍 Send Location")], [Plain(Say(lang, Back))]]))
  }

  function LocationRetry(lang: Option<string>): Message {
    SendText(Say(lang, AskLocation), NoMarkup)
  }

  function DeliveryScreen(lang: Option<string>, today: int): Message {
    SendText(Say(lang, AskDelivery), InlineKeyboard(DeliveryButtons(lang, today)))
  }

  function PaymentScreen(lang: Option<string>): Message {
    SendText(Say(lang, AskPayment), InlineKeyboard([
      [InlineButton(Say(lang, Card), "card"), InlineButton(Say(lang, Cash), "cash")],
      [InlineButton(Say(lang, Back), "back_any")]]))
  }

  /** The single place-order button shown once a payment is picked. */
  function OrderButtonScreen(lang: Option<string>): Message {
    SendText(Say(lang, OrderButton),
      InlineKeyboard([[InlineButton(Say(lang, OrderButton), "place_order")]]))
  }
}
