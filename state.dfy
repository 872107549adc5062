/** The conversation states, the per-user session record
    (`context.user_data`) and the updates Telegram delivers. */
module UserState {
  import opened Wrappers

  /** The ten conversation states (bot.py:44), in their `range(10)` order. */
  datatype State = Lang | PersonType | Phone | Name | Quantity | Comment | CommentInput | Location | DeliveryDate | Payment

  /** A shared location; the coordinates are kept as the text the order
      message prints for them. */
  datatype GeoPoint = GeoPoint(lat: string, lon: string)

  /** `context.user_data`: every key may be absent (`None`). An absent
      `_history` key reads as the empty list everywhere it is read, so it
      is the empty sequence here. */
  datatype UserData = UserData(
    lang: Option<string>,
    personType: Option<string>,
    phone: Option<string>,
    name: Option<string>,
    quantity: Option<int>,
    comment: Option<string>,
    location: Option<GeoPoint>,
    deliveryDate: Option<string>,
    payment: Option<string>,
    history: seq<State>)
  {
    /** `setdefault("_history", []).append(s)` */
    function Push(s: State): (ud: UserData)
      ensures ud.history == history + [s] && |ud.history| == |history| + 1
      ensures ud.(history := history) == this
    {
      this.(history := history + [s])
    }
  }

  /** `user_data.clear()` followed by `setdefault("_history", [])`. */
  const Cleared := UserData(None, None, None, None, None, None, None, None, None, [])

  /** The stored quantity is absent or at least two. */
  predicate QuantityOk(ud: UserData) {
    ud.quantity.None? || ud.quantity.value >= 2
  }

  /** What the handlers read from outside the session: whether the product
      image could be loaded, and today's date as a day number. */
  datatype Env = Env(hasImage: bool, today: int)

  /** One update as the handlers see it. */
  datatype Event =
    | Command(command: string)                // a bot command, without the slash
    | Text(text: string)                      // a text message that is not a command
    | Contact(phoneNumber: string)            // a shared contact; "" when it has no number
    | Shared(point: GeoPoint)                 // a shared location
    | Callback(data: string, onPhoto: bool)   // an inline-button tap; onPhoto: its message is a photo
}
