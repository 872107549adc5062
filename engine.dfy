/** The handlers as they run: a `Session` object holds one user's
    `context.user_data` and each handler updates its fields in place; a
    `Conversation` holds the conversation state the application keeps per
    user and routes each update. Every method is proved to do what the
    matching function of `Flow` describes. */
module Engine {
  import opened Wrappers
  import opened Strings
  import opened Catalog
  import opened PhoneNumbers
  import opened Language
  import opened Stepper
  import opened Screens
  import opened UserState
  import opened Order
  import opened Flow

  class Session {
    var lang: Option<string>
    var personType: Option<string>
    var phone: Option<string>
    var name: Option<string>
    var quantity: Option<int>
    var comment: Option<string>
    var location: Option<GeoPoint>
    var deliveryDate: Option<string>
    var payment: Option<string>
    var history: seq<State>

    /** The record the fields stand for. */
    function Data(): UserData
      reads this
    {
      UserData(lang, personType, phone, name, quantity, comment, location, deliveryDate, payment, history)
    }

    /** A user the bot has not seen yet: nothing stored. */
    constructor ()
      ensures Data() == Cleared
    {
      lang, personType, phone, name, quantity := None, None, None, None, None;
      comment, location, deliveryDate, payment := None, None, None, None;
      history := [];
    }

    /** `user_data.clear()` followed by `setdefault("_history", [])`. */
    method Clear()
      modifies this
      ensures Data() == Cleared
    {
      lang, personType, phone, name, quantity := None, None, None, None, None;
      comment, location, deliveryDate, payment := None, None, None, None;
      history := [];
    }

    /** `_history.append(s)` */
    method Push(s: State)
      modifies this
      ensures Data() == old(Data()).Push(s)
    {
      history := history + [s];
    }

    method Start(env: Env) returns (out: Outcome, render: Render)
      modifies this
      ensures Step(Data(), out, render) == Flow.Start(env)
    {
      Clear();
      render := StartScreen(env.hasImage);
      out := Goto(Lang);
    }

    /** `render_state_from_history` */
    method RenderFromHistory(env: Env) returns (out: Outcome, render: Render)
      modifies this
      ensures Step(Data(), out, render) == Flow.RenderFromHistory(old(Data()), env)
    {
      if history == [] {
        out, render := Start(env);
        return;
      }
      var prev := history[|history| - 1];
      history := history[..|history| - 1];
      var screen := StateScreen(prev, Data(), env);
      if screen.None? {
        out, render := Raised, [];
      } else {
        out, render := Goto(BackTarget(prev)), screen.value;
      }
    }

    /** `lang_chosen` */
    method LangChosen(raw: string, env: Env) returns (out: Outcome, render: Render)
      modifies this
      ensures Step(Data(), out, render) == Flow.LangChosen(old(Data()), raw, env)
    {
      var text := Strip(raw);
      var home := IsHomeText(text);
      if home {
        out, render := Start(env);
        return;
      }
      lang := Some(DetectLanguage(Lower(text)));
      Push(Lang);
      render := [PersonScreen(lang)];
      out := Goto(PersonType);
    }

    /** `person_chosen` */
    method PersonChosen(text: string, env: Env) returns (out: Outcome, render: Render)
      modifies this
      ensures Step(Data(), out, render) == Flow.PersonChosen(old(Data()), text, env)
    {
      if GetText(lang, Back) == Str(text) {
        out, render := RenderFromHistory(env);
        return;
      }
      Push(PersonType);
      personType := Some(text);
      render := [PhoneScreen(lang)];
      out := Goto(Phone);
    }

    /** `received_phone` */
    method ReceivedPhone(ev: Event, env: Env) returns (out: Outcome, render: Render)
      modifies this
      ensures Step(Data(), out, render) == Flow.ReceivedPhone(old(Data()), ev, env)
    {
      var t := TextOf(ev);
      if GetText(lang, Back) == Str(t) {
        out, render := RenderFromHistory(env);
        return;
      }
      var offered: Option<string>;
      if ev.Contact? && ev.phoneNumber != "" {
        offered := Some(ev.phoneNumber);
      } else {
        offered := NormalizePhone(t);
      }
      if offered.None? || offered.value == "" {
        out, render := Goto(Phone), [PhoneRetry(lang)];
        return;
      }
      Push(Phone);
      phone := offered;
      render := [NameScreen(lang)];
      out := Goto(Name);
    }

    /** The writes of `received_name`: push, name, quantity. */
    method StoreName(n: string, qty: int)
      modifies this
      ensures Data() == old(Data()).Push(Name).(name := Some(n), quantity := Some(qty))
    {
      Push(Name);
      name := Some(n);
      quantity := Some(qty);
    }

    /** `received_name` */
    method ReceivedName(text: string, env: Env) returns (out: Outcome, render: Render)
      modifies this
      ensures Step(Data(), out, render) == Flow.ReceivedName(old(Data()), text, env)
    {
      if GetText(lang, Back) == Str(text) {
        out, render := RenderFromHistory(env);
        return;
      }
      var qty := quantity.GetOr(2);
      StoreName(Strip(text), qty);
      if lang.None? {
        out, render := Raised, [];
        return;
      }
      render := [QuantityScreen(qty, lang.value, env.hasImage)];
      out := Goto(Quantity);
    }

    /** `quantity_handler`: the local count is stepped and written back. */
    method QuantityHandler(data: string, onPhoto: bool) returns (out: Outcome, render: Render)
      modifies this
      ensures Step(Data(), out, render) == Flow.QuantityHandler(old(Data()), data, onPhoto)
    {
      var qty := quantity.GetOr(2);
      if data == "incr" {
        qty := qty + 1;
        quantity := Some(qty);
      } else if data == "decr" {
        if qty > 2 {
          qty := qty - 1;
          quantity := Some(qty);
        } else {
          qty := 2;
          quantity := Some(qty);
        }
      } else if data == "count" {
        out, render := Goto(Quantity), [];
        return;
      } else if data == "continue_qty" {
        qty := quantity.GetOr(2);
        if qty < 2 {
          out, render := Goto(Quantity), [ShowAlert(MinimumAlert)];
          return;
        }
        Push(Quantity);
        out, render := Goto(Comment), [CommentScreen(lang)];
        return;
      }
      if lang.None? {
        out, render := Raised, [];
        return;
      }
      render := [QuantityEdit(qty, lang.value, onPhoto)];
      out := Goto(Quantity);
    }

    /** `comment_choice_handler` */
    method CommentChoice(data: string, env: Env) returns (out: Outcome, render: Render)
      modifies this
      ensures Step(Data(), out, render) == Flow.CommentChoice(old(Data()), data, env)
    {
      if data == "back_any" {
        out, render := RenderFromHistory(env);
      } else if data == "comment_no" {
        Push(Comment);
        out, render := Goto(Location), [LocationScreen(lang)];
      } else if data == "comment_yes" {
        Push(Comment);
        out, render := Goto(CommentInput), [CommentInputScreen(lang)];
      } else {
        out, render := Goto(Comment), [];
      }
    }

    /** `comment_input_handler` */
    method CommentInputHandler(text: string, env: Env) returns (out: Outcome, render: Render)
      modifies this
      ensures Step(Data(), out, render) == Flow.CommentInputHandler(old(Data()), text, env)
    {
      if GetText(lang, Back) == Str(text) {
        out, render := RenderFromHistory(env);
        return;
      }
      Push(CommentInput);
      comment := Some(Strip(text));
      out, render := Goto(Location), [LocationScreen(lang)];
    }

    /** `received_location` */
    method ReceivedLocation(ev: Event, env: Env) returns (out: Outcome, render: Render)
      modifies this
      ensures Step(Data(), out, render) == Flow.ReceivedLocation(old(Data()), ev, env)
    {
      if GetText(lang, Back) == Str(TextOf(ev)) {
        out, render := RenderFromHistory(env);
        return;
      }
      if !ev.Shared? {
        out, render := Goto(Location), [LocationRetry(lang)];
        return;
      }
      Push(Location);
      location := Some(ev.point);
      out, render := Goto(DeliveryDate), [DeliveryScreen(lang, env.today)];
    }

    /** `delivery_handler` */
    method DeliveryHandler(data: string, env: Env) returns (out: Outcome, render: Render)
      modifies this
      ensures Step(Data(), out, render) == Flow.DeliveryHandler(old(Data()), data, env)
    {
      if data == "back_any" {
        out, render := RenderFromHistory(env);
      } else if StartsWith(data, "date_") {
        Push(DeliveryDate);
        deliveryDate := Some(DatePayload(data));
        out, render := Goto(Payment), [PaymentScreen(lang)];
      } else {
        out, render := Goto(DeliveryDate), [];
      }
    }

    /** `payment_handler` */
    method PaymentHandler(data: string, env: Env) returns (out: Outcome, render: Render)
      modifies this
      ensures Step(Data(), out, render) == Flow.PaymentHandler(old(Data()), data, env)
    {
      if data == "back_any" {
        out, render := RenderFromHistory(env);
      } else if data == "card" || data == "cash" {
        Push(Payment);
        payment := Some(if data == "card" then Say(lang, Card) else Say(lang, Cash));
        out, render := Goto(Payment), [OrderButtonScreen(lang)];
      } else {
        out, render := Goto(Payment), [];
      }
    }

    /** `final_place_order_handler`: the order text and the thanks are
        built from the session before it is cleared. */
    method PlaceOrder(data: string, env: Env) returns (out: Outcome, render: Render)
      modifies this
      ensures Step(Data(), out, render) == Flow.PlaceOrder(old(Data()), data, env)
    {
      if data == "back_any" {
        out, render := RenderFromHistory(env);
        return;
      }
      if data != "place_order" {
        out, render := Goto(Payment), [];
        return;
      }
      var text := OrderText(Data());
      var thanks := Say(lang, Thanks);
      Clear();
      render := [
        ForwardOrder(text),
        SendText(thanks, NoMarkup),
        SendText(RestartPrompt, ReplyKeyboard([[Plain("/start")]]))];
      out := Goto(Lang);
    }
  }

  /** One user's conversation: the state the conversation handler keeps
      and the user's session. */
  class Conversation {
    var state: Option<State>
    const session: Session

    constructor ()
      ensures state == None && fresh(session) && session.Data() == Cleared
    {
      state := None;
      session := new Session();
    }

    /** Run the handler the routing picks for `ev`; the conversation state
        follows only the conversation's own handlers. */
    method Handle(ev: Event, env: Env) returns (render: Render)
      modifies this, session
      ensures Turn(state, session.Data(), render) == Dispatch(old(state), old(session.Data()), ev, env)
    {
      var out: Outcome;
      if ev.Command? && ev.command == "start" {
        out, render := session.Start(env);
        state := After(state, out);
      } else if state.Some? && Accepts(state.value, ev) {
        match state.value {
          case Lang => out, render := session.LangChosen(TextOf(ev), env);
          case PersonType => out, render := session.PersonChosen(TextOf(ev), env);
          case Phone => out, render := session.ReceivedPhone(ev, env);
          case Name => out, render := session.ReceivedName(TextOf(ev), env);
          case Quantity => out, render := session.QuantityHandler(DataOf(ev), ev.Callback? && ev.onPhoto);
          case Comment => out, render := session.CommentChoice(DataOf(ev), env);
          case CommentInput => out, render := session.CommentInputHandler(TextOf(ev), env);
          case Location => out, render := session.ReceivedLocation(ev, env);
          case DeliveryDate => out, render := session.DeliveryHandler(DataOf(ev), env);
          case Payment => out, render := session.PaymentHandler(DataOf(ev), env);
        }
        state := After(state, out);
      } else if ev.Callback? && Anchored(ev.data, "place_order") {
        out, render := session.PlaceOrder(ev.data, env);
      } else if ev.Callback? && Anchored(ev.data, "back_any") {
        out, render := session.RenderFromHistory(env);
      } else {
        render := [];
      }
    }
  }
}
