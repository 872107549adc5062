/** The order text `final_place_order_handler` forwards to the order chat
    (bot.py:483-500). */
module Order {
  import opened Wrappers
  import opened Strings
  import opened Catalog
  import opened UserState

  /** An f-string of an optional text: the text, or `None`. */
  function Show(v: Option<string>): (r: string)
    ensures v.Some? ==> r == v.value
    ensures v.None? ==> r == "None"
  {
    match v
    case Some(s) => s
    case None => "None"
  }

  /** The quantity the order uses: the stored one, or 0 when absent. */
  function OrderQuantity(ud: UserData): int {
    ud.quantity.GetOr(0)
  }

  /** The Google Maps link of a location. */
  function MapLink(p: GeoPoint): string {
    "https://maps.google.com/?q=" + p.lat + "," + p.lon
  }

  /** The header and the seven lines every order has. */
  function RequiredLines(ud: UserData): (ls: seq<string>)
    ensures |ls| == 9
  {
    var qty := OrderQuantity(ud);
    ["📦 Yangi buyurtma",
     "",
     "👤 Ism: " + Show(ud.name),
     "📞 Telefon: " + Show(ud.phone),
     "🏷 Shaxs turi: " + Show(ud.personType),
     "💧 Miqdor: " + IntToString(qty),
     "🧾 Jami summa: " + IntToString(Total(qty)) + " " + CurrencyCode,
     "📅 Yetkazib berish: " + Show(ud.deliveryDate),
     "💰 To‘lov: " + Show(ud.payment)]
  }

  /** The comment line, only for a non-empty comment. */
  function CommentLines(ud: UserData): (ls: seq<string>)
    ensures |ls| <= 1
  {
    if ud.comment.Some? && ud.comment.value != "" then ["📝 Izoh: " + ud.comment.value] else []
  }

  /** The map line, only when a location is stored. */
  function LocationLines(ud: UserData): (ls: seq<string>)
    ensures |ls| <= 1
  {
    if ud.location.Some? then ["🌍 Manzil: " + MapLink(ud.location.value)] else []
  }

  function OrderLines(ud: UserData): seq<string> {
    RequiredLines(ud) + CommentLines(ud) + LocationLines(ud)
  }

  /** Lines, each followed by a newline. */
  function Lines(ls: seq<string>): (s: string)
    ensures |s| >= |ls|
  {
    if ls == [] then "" else ls[0] + "\n" + Lines(ls[1..])
  }

  /** The forwarded order text. */
  function OrderText(ud: UserData): string {
    Lines(OrderLines(ud))
  }

  /** Joining lines distributes over concatenation. */
  lemma {:induction false} LinesAppend(a: seq<string>, b: seq<string>)
    ensures Lines(a + b) == Lines(a) + Lines(b)
    decreases |a|
  {
    if a == [] {
      assert a + b == b;
    } else {
      assert (a + b)[0] == a[0];
      assert (a + b)[1..] == a[1..] + b;
      LinesAppend(a[1..], b);
    }
  }

  /** The text is the required block, then the optional comment and map
      lines. */
  lemma OrderTextParts(ud: UserData)
    ensures OrderText(ud) == Lines(RequiredLines(ud)) + Lines(CommentLines(ud)) + Lines(LocationLines(ud))
  {
    LinesAppend(RequiredLines(ud) + CommentLines(ud), LocationLines(ud));
    LinesAppend(RequiredLines(ud), CommentLines(ud));
  }

  /** Every order starts with the header line and a blank line. */
  lemma OrderStartsWithHeader(ud: UserData)
    ensures StartsWith(OrderText(ud), "📦 Yangi buyurtma\n\n")
  {
    var ls := OrderLines(ud);
    assert ls[0] == "📦 Yangi buyurtma" && ls[1] == "";
    assert Lines(ls) == ls[0] + "\n" + (ls[1] + "\n" + Lines(ls[2..]));
    assert (ls[0] + "\n" + (ls[1] + "\n" + Lines(ls[2..])))[..|"📦 Yangi buyurtma\n\n"|] == "📦 Yangi buyurtma\n\n";
  }

  /** The comment line is present exactly when a non-empty comment is
      stored, and it is then the tenth line. */
  lemma CommentLineIff(ud: UserData)
    ensures |OrderLines(ud)| == 9 + (if ud.comment.Some? && ud.comment.value != "" then 1 else 0) + (if ud.location.Some? then 1 else 0)
    ensures (ud.comment.Some? && ud.comment.value != "") <==> (|OrderLines(ud)| > 9 && StartsWith(OrderLines(ud)[9], "📝 Izoh: "))
    ensures ud.comment.Some? && ud.comment.value != "" ==> OrderLines(ud)[9] == "📝 Izoh: " + ud.comment.value
  {
    var ls := OrderLines(ud);
    if ud.comment.None? || ud.comment.value == "" {
      if |ls| > 9 {
        assert ls[9] == "🌍 Manzil: " + MapLink(ud.location.value);
        assert ls[9][0] != "📝 Izoh: "[0];
      }
    }
  }

  /** The map line is the last line exactly when a location is stored. */
  lemma LocationLineIff(ud: UserData)
    ensures ud.location.Some? <==> (|OrderLines(ud)| > 9 && StartsWith(OrderLines(ud)[|OrderLines(ud)| - 1], "🌍 Manzil: "))
    ensures ud.location.Some? ==> OrderLines(ud)[|OrderLines(ud)| - 1] == "🌍 Manzil: " + MapLink(ud.location.value)
  {
    var ls := OrderLines(ud);
    if ud.location.None? {
      if |ls| > 9 {
        assert ls[|ls| - 1] == "📝 Izoh: " + ud.comment.value;
        assert ls[|ls| - 1][0] != "🌍 Manzil: "[0];
      }
    }
  }

  /** The quantity and total lines use the same formula as the price
      caption. */
  lemma OrderTotalMatchesCaption(ud: UserData, lang: string)
    requires ud.quantity.Some?
    ensures OrderLines(ud)[5] == "💧 Miqdor: " + IntToString(ud.quantity.value)
    ensures OrderLines(ud)[6] == "🧾 Jami summa: " + IntToString(Total(ud.quantity.value)) + " UZS"
    ensures BuildPriceCaption(ud.quantity.value, lang) == PriceHead(lang) + "7000" + " " + "UZS" + PriceMid(lang) + IntToString(Total(ud.quantity.value)) + " " + "UZS"
  {
    CaptionText(ud.quantity.value, lang);
  }

  /** Fields that are never set print as `None`; a missing quantity orders
      zero bottles at a total of 0. */
  lemma EmptyOrder()
    ensures OrderLines(Cleared) == RequiredLines(Cleared)
    ensures RequiredLines(Cleared)[2] == "👤 Ism: None"
    ensures RequiredLines(Cleared)[5] == "💧 Miqdor: 0" && RequiredLines(Cleared)[6] == "🧾 Jami summa: 0 UZS"
  {
    assert IntToString(0) == "0";
  }
}
