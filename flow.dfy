/** Each handler of the conversation as a function of the session record
    and the update, and the routing of an update to a handler. */
module Flow {
  import opened Wrappers
  import opened Strings
  import opened Catalog
  import opened PhoneNumbers
  import opened Language
  import opened Stepper
  import opened Screens
  import opened UserState
  import opened Order

  /** What a handler hands back: the next conversation state, or the
      `KeyError` raised by `context.user_data["lang"]` when no language is
      stored (bot.py:291, 339, 565). */
  datatype Outcome = Goto(state: State) | Raised

  /** The session after one handler call, its outcome and what it sent. */
  datatype Step = Step(data: UserData, outcome: Outcome, render: Render)

  /** The text of a text message, `""` for any other update
      (`update.message.text or ""`). */
  function TextOf(ev: Event): string {
    if ev.Text? then ev.text else ""
  }

  /** The token of a button tap, `""` for any other update. */
  function DataOf(ev: Event): string {
    if ev.Callback? then ev.data else ""
  }

  /** The text equals the localized back label; an entry that is not a
      single text never equals a message text. */
  predicate IsBack(ud: UserData, t: string) {
    GetText(ud.lang, Back) == Str(t)
  }

  // ----- start and back -----

  /** `start`: clear the session, show the photo and the language choice. */
  function Start(env: Env): Step {
    Step(Cleared, Goto(Lang), StartScreen(env.hasImage))
  }

  /** The state the history renderer returns for a popped entry. */
  function BackTarget(s: State): State {
    if s == CommentInput then Comment else s
  }

  /** The screen the history renderer shows for a popped entry, or `None`
      where it raises (the quantity screen needs the language). */
  function StateScreen(s: State, ud: UserData, env: Env): Option<Render> {
    match s
    case Lang => Some([SendText(Greeting(), LanguageKeyboard)])
    case PersonType => Some([PersonScreen(ud.lang)])
    case Phone => Some([PhoneScreen(ud.lang)])
    case Name => Some([NameScreen(ud.lang)])
    case Quantity =>
      if ud.lang.None? then None
      else Some([QuantityScreen(ud.quantity.GetOr(2), ud.lang.value, env.hasImage)])
    case Comment => Some([CommentScreen(ud.lang)])
    case CommentInput => Some([CommentScreen(ud.lang)])
    case Location => Some([LocationScreen(ud.lang)])
    case DeliveryDate => Some([DeliveryScreen(ud.lang, env.today)])
    case Payment => Some([PaymentScreen(ud.lang)])
  }

  /** `render_state_from_history`: restart on an empty history, otherwise
      pop the last entry and show its screen again. */
  function RenderFromHistory(ud: UserData, env: Env): Step {
    if ud.history == [] then Start(env)
    else
      var prev := ud.history[|ud.history| - 1];
      var popped := ud.(history := ud.history[..|ud.history| - 1]);
      match StateScreen(prev, popped, env)
      case None => Step(popped, Raised, [])
      case Some(r) => Step(popped, Goto(BackTarget(prev)), r)
  }

  // ----- the state handlers -----

  /** `lang_chosen` on the message text `raw`. */
  function LangChosen(ud: UserData, raw: string, env: Env): Step {
    var text := Strip(raw);
    if IsHome(text) then Start(env)
    else
      var code := DetectLanguage(Lower(text));
      Step(ud.(lang := Some(code)).Push(Lang), Goto(PersonType), [PersonScreen(Some(code))])
  }

  /** `person_chosen`: the text is stored as the person type unchanged. */
  function PersonChosen(ud: UserData, text: string, env: Env): Step {
    if IsBack(ud, text) then RenderFromHistory(ud, env)
    else Step(ud.Push(PersonType).(personType := Some(text)), Goto(Phone), [PhoneScreen(ud.lang)])
  }

  /** The phone a message offers: a shared contact's number, else the
      normalized text. */
  function OfferedPhone(ev: Event): Option<string> {
    if ev.Contact? && ev.phoneNumber != "" then Some(ev.phoneNumber) else NormalizePhone(TextOf(ev))
  }

  /** `received_phone`. */
  function ReceivedPhone(ud: UserData, ev: Event, env: Env): Step {
    if IsBack(ud, TextOf(ev)) then RenderFromHistory(ud, env)
    else
      var phone := OfferedPhone(ev);
      if phone.None? || phone.value == "" then Step(ud, Goto(Phone), [PhoneRetry(ud.lang)])
      else Step(ud.Push(Phone).(phone := phone), Goto(Name), [NameScreen(ud.lang)])
  }

  /** `received_name`: the stripped text is the name; a quantity already
      stored is kept, else it starts at 2. */
  function ReceivedName(ud: UserData, text: string, env: Env): Step {
    if IsBack(ud, text) then RenderFromHistory(ud, env)
    else
      var qty := ud.quantity.GetOr(2);
      var next := ud.Push(Name).(name := Some(Strip(text)), quantity := Some(qty));
      if next.lang.None? then Step(next, Raised, [])
      else Step(next, Goto(Quantity), [QuantityScreen(qty, next.lang.value, env.hasImage)])
  }

  /** The alert of `continue_qty` below the minimum. */
  const MinimumAlert := "Please choose at least 2."

  /** `quantity_handler` on the token `data`; `onPhoto` says whether the
      tapped message is the captioned photo. */
  function QuantityHandler(ud: UserData, data: string, onPhoto: bool): Step {
    var qty := ud.quantity.GetOr(2);
    if data == "count" then Step(ud, Goto(Quantity), [])
    else if data == "continue_qty" then
      if qty < 2 then Step(ud, Goto(Quantity), [ShowAlert(MinimumAlert)])
      else Step(ud.Push(Quantity), Goto(Comment), [CommentScreen(ud.lang)])
    else
      var shown := StepQuantity(qty, data);
      var next := if data == "incr" || data == "decr" then ud.(quantity := Some(shown)) else ud;
      if ud.lang.None? then Step(next, Raised, [])
      else Step(next, Goto(Quantity), [QuantityEdit(shown, ud.lang.value, onPhoto)])
  }

  /** `comment_choice_handler`. */
  function CommentChoice(ud: UserData, data: string, env: Env): Step {
    if data == "back_any" then RenderFromHistory(ud, env)
    else if data == "comment_no" then Step(ud.Push(Comment), Goto(Location), [LocationScreen(ud.lang)])
    else if data == "comment_yes" then Step(ud.Push(Comment), Goto(CommentInput), [CommentInputScreen(ud.lang)])
    else Step(ud, Goto(Comment), [])
  }

  /** `comment_input_handler`: the stripped text is the comment. */
  function CommentInputHandler(ud: UserData, text: string, env: Env): Step {
    if IsBack(ud, text) then RenderFromHistory(ud, env)
    else Step(ud.Push(CommentInput).(comment := Some(Strip(text))), Goto(Location), [LocationScreen(ud.lang)])
  }

  /** `received_location`. */
  function ReceivedLocation(ud: UserData, ev: Event, env: Env): Step {
    if IsBack(ud, TextOf(ev)) then RenderFromHistory(ud, env)
    else if !ev.Shared? then Step(ud, Goto(Location), [LocationRetry(ud.lang)])
    else Step(ud.Push(Location).(location := Some(ev.point)), Goto(DeliveryDate), [DeliveryScreen(ud.lang, env.today)])
  }

  /** `delivery_handler`: a `date_` token stores the text after the first
      underscore. */
  function DeliveryHandler(ud: UserData, data: string, env: Env): Step {
    if data == "back_any" then RenderFromHistory(ud, env)
    else if StartsWith(data, "date_") then
      Step(ud.Push(DeliveryDate).(deliveryDate := Some(DatePayload(data))), Goto(Payment), [PaymentScreen(ud.lang)])
    else Step(ud, Goto(DeliveryDate), [])
  }

  /** `payment_handler`: the localized label of the method is stored. */
  function PaymentHandler(ud: UserData, data: string, env: Env): Step {
    if data == "back_any" then RenderFromHistory(ud, env)
    else if data == "card" || data == "cash" then
      var chosen := if data == "card" then Say(ud.lang, Card) else Say(ud.lang, Cash);
      Step(ud.Push(Payment).(payment := Some(chosen)), Goto(Payment), [OrderButtonScreen(ud.lang)])
    else Step(ud, Goto(Payment), [])
  }

  /** The text that goes with the `/start` keyboard after an order. */
  const RestartPrompt := "🏠 " + "Back to start — press the button below"

  /** `final_place_order_handler`. */
  function PlaceOrder(ud: UserData, data: string, env: Env): Step {
    if data == "back_any" then RenderFromHistory(ud, env)
    else if data == "place_order" then
      Step(Cleared, Goto(Lang), [
        ForwardOrder(OrderText(ud)),
        SendText(Say(ud.lang, Thanks), NoMarkup),
        SendText(RestartPrompt, ReplyKeyboard([[Plain("/start")]]))])
    else Step(ud, Goto(Payment), [])
  }

  // ----- routing -----

  /** `re.match` of a pattern `^(...|token|...)$`: `$` also matches before
      a final newline. */
  predicate Anchored(data: string, token: string) {
    data == token || data == token + "\n"
  }

  /** The handler list of state `s` accepts the update (bot.py:616-625). */
  predicate Accepts(s: State, ev: Event) {
    match s
    case Lang => ev.Text?
    case PersonType => ev.Text?
    case Phone => ev.Contact? || ev.Text?
    case Name => ev.Text?
    case Quantity =>
      ev.Callback? && (Anchored(ev.data, "incr") || Anchored(ev.data, "decr") ||
                       Anchored(ev.data, "count") || Anchored(ev.data, "continue_qty"))
    case Comment =>
      ev.Callback? && (Anchored(ev.data, "comment_yes") || Anchored(ev.data, "comment_no") || Anchored(ev.data, "back_any"))
    case CommentInput => ev.Text?
    case Location => ev.Shared? || ev.Text?
    case DeliveryDate => ev.Callback? && (StartsWith(ev.data, "date_") || Anchored(ev.data, "back_any"))
    case Payment =>
      ev.Callback? && (Anchored(ev.data, "card") || Anchored(ev.data, "cash") || Anchored(ev.data, "back_any"))
  }

  /** The handler registered for state `s`. */
  function Handle(s: State, ud: UserData, ev: Event, env: Env): Step {
    match s
    case Lang => LangChosen(ud, TextOf(ev), env)
    case PersonType => PersonChosen(ud, TextOf(ev), env)
    case Phone => ReceivedPhone(ud, ev, env)
    case Name => ReceivedName(ud, TextOf(ev), env)
    case Quantity => QuantityHandler(ud, DataOf(ev), ev.Callback? && ev.onPhoto)
    case Comment => CommentChoice(ud, DataOf(ev), env)
    case CommentInput => CommentInputHandler(ud, TextOf(ev), env)
    case Location => ReceivedLocation(ud, ev, env)
    case DeliveryDate => DeliveryHandler(ud, DataOf(ev), env)
    case Payment => PaymentHandler(ud, DataOf(ev), env)
  }

  /** The conversation state after a handler of the conversation: the
      state it returns, or the old one when it raised. */
  function After(conv: Option<State>, o: Outcome): Option<State> {
    if o.Goto? then Some(o.state) else conv
  }

  /** The outcome of one update: conversation state, session, messages. */
  datatype Turn = Turn(conv: Option<State>, data: UserData, render: Render)

  /** How the application routes an update (bot.py:613-635): `/start`
      first (entry point with re-entry), then the current state's handlers;
      a tap none of them takes goes to the application-level place-order
      or back handler, whose returned state the conversation never sees;
      anything else is dropped. */
  function Dispatch(conv: Option<State>, ud: UserData, ev: Event, env: Env): Turn {
    if ev.Command? && ev.command == "start" then
      var st := Start(env);
      Turn(After(conv, st.outcome), st.data, st.render)
    else if conv.Some? && Accepts(conv.value, ev) then
      var st := Handle(conv.value, ud, ev, env);
      Turn(After(conv, st.outcome), st.data, st.render)
    else if ev.Callback? && Anchored(ev.data, "place_order") then
      var st := PlaceOrder(ud, ev.data, env);
      Turn(conv, st.data, st.render)
    else if ev.Callback? && Anchored(ev.data, "back_any") then
      var st := RenderFromHistory(ud, env);
      Turn(conv, st.data, st.render)
    else Turn(conv, ud, [])
  }
}
