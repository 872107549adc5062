/** What the conversation guarantees across handler calls: how the
    history stack moves, the quantity floor, the re-prompts that change
    nothing, and what back restores. */
module FlowProps {
  import opened Wrappers
  import opened Strings
  import opened Catalog
  import opened PhoneNumbers
  import opened Language
  import opened Stepper
  import opened Screens
  import opened UserState
  import opened Order
  import opened Flow

  /** An update the current state takes goes to that state's handler;
      the conversation follows the handler's outcome. */
  lemma Routed(s: State, ud: UserData, ev: Event, env: Env)
    requires Accepts(s, ev) && !ev.Command?
    ensures var st := Handle(s, ud, ev, env);
      Dispatch(Some(s), ud, ev, env) == Turn(After(Some(s), st.outcome), st.data, st.render)
  {
  }

  // ----- the history stack -----

  /** One update moves the history in one of four ways: it stays, the
      state being left is pushed, the last entry is popped, or the whole
      session is reset. */
  predicate HistoryStep(before: UserData, after: UserData, current: Option<State>) {
    after.history == before.history
    || (current.Some? && after.history == before.history + [current.value])
    || (before.history != [] && after.history == before.history[..|before.history| - 1])
    || after == Cleared
  }

  /** Back pops exactly one entry, keeping every other field, or restarts
      on an empty history; it raises only for a popped quantity entry
      without a language. */
  lemma BackPops(ud: UserData, env: Env)
    ensures ud.history == [] ==> RenderFromHistory(ud, env) == Start(env)
    ensures ud.history != [] ==>
      var last := ud.history[|ud.history| - 1];
      var st := RenderFromHistory(ud, env);
      st.data == ud.(history := ud.history[..|ud.history| - 1]) &&
      (st.outcome == Raised <==> last == Quantity && ud.lang.None?) &&
      (st.outcome.Goto? ==> st.outcome.state == BackTarget(last) && Some(st.render) == StateScreen(last, st.data, env))
  {
    if ud.history != [] {
      var last := ud.history[|ud.history| - 1];
      match last
      case Quantity =>
      case _ =>
        assert StateScreen(last, RenderFromHistory(ud, env).data, env).Some?;
    }
  }

  lemma BackHistory(ud: UserData, env: Env)
    ensures HistoryStep(ud, RenderFromHistory(ud, env).data, None)
  {
    BackPops(ud, env);
  }

  /** The language step restarts on a home label and otherwise pushes
      exactly `LANG`. */
  lemma LangChosenHistory(ud: UserData, raw: string, env: Env)
    ensures IsHome(Strip(raw)) ==> LangChosen(ud, raw, env).data == Cleared
    ensures !IsHome(Strip(raw)) ==> LangChosen(ud, raw, env).data.history == ud.history + [Lang]
    ensures HistoryStep(ud, LangChosen(ud, raw, env).data, Some(Lang))
  {
  }

  /** The phone step goes back on the back label; otherwise it pushes
      exactly `PHONE` and moves on, or changes nothing. */
  lemma PhoneHistory(ud: UserData, ev: Event, env: Env)
    ensures IsBack(ud, TextOf(ev)) ==> ReceivedPhone(ud, ev, env) == RenderFromHistory(ud, env)
    ensures !IsBack(ud, TextOf(ev)) ==>
      var st := ReceivedPhone(ud, ev, env);
      (st.outcome == Goto(Name) && st.data.history == ud.history + [Phone]) || st.data == ud
    ensures HistoryStep(ud, ReceivedPhone(ud, ev, env).data, Some(Phone))
  {
    BackHistory(ud, env);
  }

  /** The name step goes back on the back label and otherwise pushes
      exactly `NAME`, also when it then raises. */
  lemma NameHistory(ud: UserData, text: string, env: Env)
    ensures IsBack(ud, text) ==> ReceivedName(ud, text, env) == RenderFromHistory(ud, env)
    ensures !IsBack(ud, text) ==> ReceivedName(ud, text, env).data.history == ud.history + [Name]
    ensures HistoryStep(ud, ReceivedName(ud, text, env).data, Some(Name))
  {
    BackHistory(ud, env);
  }

  /** The location step goes back on the back label; otherwise it pushes
      exactly `LOCATION` and moves on, or changes nothing. */
  lemma LocationHistory(ud: UserData, ev: Event, env: Env)
    ensures IsBack(ud, TextOf(ev)) ==> ReceivedLocation(ud, ev, env) == RenderFromHistory(ud, env)
    ensures !IsBack(ud, TextOf(ev)) ==>
      var st := ReceivedLocation(ud, ev, env);
      (st.outcome == Goto(DeliveryDate) && st.data.history == ud.history + [Location]) || st.data == ud
    ensures HistoryStep(ud, ReceivedLocation(ud, ev, env).data, Some(Location))
  {
    BackHistory(ud, env);
  }

  /** The quantity step pushes `QUANTITY` on an accepted continue and on
      no other tap. */
  lemma QuantityTapHistory(ud: UserData, data: string, onPhoto: bool)
    ensures QuantityHandler(ud, data, onPhoto).data.history ==
      ud.history + (if data == "continue_qty" && ud.quantity.GetOr(2) >= 2 then [Quantity] else [])
    ensures HistoryStep(ud, QuantityHandler(ud, data, onPhoto).data, Some(Quantity))
  {
  }

  lemma CommentTapHistory(ud: UserData, data: string, env: Env)
    ensures HistoryStep(ud, CommentChoice(ud, data, env).data, Some(Comment))
  {
    BackHistory(ud, env);
  }

  lemma DeliveryTapHistory(ud: UserData, data: string, env: Env)
    ensures HistoryStep(ud, DeliveryHandler(ud, data, env).data, Some(DeliveryDate))
  {
    BackHistory(ud, env);
  }

  lemma PaymentTapHistory(ud: UserData, data: string, env: Env)
    ensures HistoryStep(ud, PaymentHandler(ud, data, env).data, Some(Payment))
  {
    BackHistory(ud, env);
  }

  /** Each state handler pushes only the state it serves. */
  lemma HandleHistory(s: State, ud: UserData, ev: Event, env: Env)
    ensures HistoryStep(ud, Handle(s, ud, ev, env).data, Some(s))
  {
    BackHistory(ud, env);
    match s
    case Lang => LangChosenHistory(ud, TextOf(ev), env);
    case Phone => PhoneHistory(ud, ev, env);
    case Name => NameHistory(ud, TextOf(ev), env);
    case Location => LocationHistory(ud, ev, env);
    case Quantity => QuantityTapHistory(ud, DataOf(ev), ev.Callback? && ev.onPhoto);
    case Comment => CommentTapHistory(ud, DataOf(ev), env);
    case DeliveryDate => DeliveryTapHistory(ud, DataOf(ev), env);
    case Payment => PaymentTapHistory(ud, DataOf(ev), env);
    case PersonType =>
    case CommentInput =>
  }

  /** The same holds for every update, whatever handler takes it. */
  lemma HistoryDiscipline(conv: Option<State>, ud: UserData, ev: Event, env: Env)
    ensures HistoryStep(ud, Dispatch(conv, ud, ev, env).data, conv)
  {
    BackHistory(ud, env);
    if conv.Some? {
      HandleHistory(conv.value, ud, ev, env);
    }
  }

  // ----- the quantity floor -----

  lemma BackKeepsQuantityOk(ud: UserData, env: Env)
    requires QuantityOk(ud)
    ensures QuantityOk(RenderFromHistory(ud, env).data)
  {
    BackPops(ud, env);
  }

  /** A step that keeps the language and the quantity, or is the back
      step. */
  predicate KeepsOrBack(ud: UserData, st: Step, env: Env) {
    (st.data.lang == ud.lang && st.data.quantity == ud.quantity) || st == RenderFromHistory(ud, env)
  }

  lemma PersonKeeps(ud: UserData, text: string, env: Env)
    ensures KeepsOrBack(ud, PersonChosen(ud, text, env), env)
  {
  }

  lemma PhoneKeeps(ud: UserData, ev: Event, env: Env)
    ensures KeepsOrBack(ud, ReceivedPhone(ud, ev, env), env)
  {
  }

  lemma CommentKeeps(ud: UserData, data: string, env: Env)
    ensures KeepsOrBack(ud, CommentChoice(ud, data, env), env)
  {
  }

  lemma CommentInputKeeps(ud: UserData, text: string, env: Env)
    ensures KeepsOrBack(ud, CommentInputHandler(ud, text, env), env)
  {
  }

  lemma LocationKeeps(ud: UserData, ev: Event, env: Env)
    ensures KeepsOrBack(ud, ReceivedLocation(ud, ev, env), env)
  {
  }

  lemma DeliveryKeeps(ud: UserData, data: string, env: Env)
    ensures KeepsOrBack(ud, DeliveryHandler(ud, data, env), env)
  {
  }

  lemma PaymentKeeps(ud: UserData, data: string, env: Env)
    ensures KeepsOrBack(ud, PaymentHandler(ud, data, env), env)
  {
  }

  /** The stepper only ever stores a count of at least two. */
  lemma QuantityHandlerKeepsQuantityOk(ud: UserData, data: string, onPhoto: bool)
    requires QuantityOk(ud)
    ensures QuantityOk(QuantityHandler(ud, data, onPhoto).data)
  {
  }

  lemma NameKeepsQuantityOk(ud: UserData, text: string, env: Env)
    requires QuantityOk(ud)
    ensures QuantityOk(ReceivedName(ud, text, env).data)
  {
    BackKeepsQuantityOk(ud, env);
  }

  lemma LangKeepsQuantityOk(ud: UserData, raw: string, env: Env)
    requires QuantityOk(ud)
    ensures QuantityOk(LangChosen(ud, raw, env).data)
  {
  }

  /** The handler of `s` keeps the language and the quantity, or is the
      back step, except in the language, name and quantity steps. */
  lemma HandleKeeps(s: State, ud: UserData, ev: Event, env: Env)
    requires s != Lang && s != Name && s != Quantity
    ensures KeepsOrBack(ud, Handle(s, ud, ev, env), env)
  {
    match s
    case PersonType => PersonKeeps(ud, TextOf(ev), env);
    case Phone => PhoneKeeps(ud, ev, env);
    case Comment => CommentKeeps(ud, DataOf(ev), env);
    case CommentInput => CommentInputKeeps(ud, TextOf(ev), env);
    case Location => LocationKeeps(ud, ev, env);
    case DeliveryDate => DeliveryKeeps(ud, DataOf(ev), env);
    case Payment => PaymentKeeps(ud, DataOf(ev), env);
  }

  /** The stepper, `received_name` and every other handler keep the
      stored quantity absent or at least two. */
  lemma HandleKeepsQuantityOk(s: State, ud: UserData, ev: Event, env: Env)
    requires QuantityOk(ud)
    ensures QuantityOk(Handle(s, ud, ev, env).data)
  {
    match s
    case Lang => LangKeepsQuantityOk(ud, TextOf(ev), env);
    case Name => NameKeepsQuantityOk(ud, TextOf(ev), env);
    case Quantity => QuantityHandlerKeepsQuantityOk(ud, DataOf(ev), ev.Callback? && ev.onPhoto);
    case _ =>
      HandleKeeps(s, ud, ev, env);
      BackKeepsQuantityOk(ud, env);
  }

  /** The quantity floor is an invariant of the whole conversation. */
  lemma QuantityFloor(conv: Option<State>, ud: UserData, ev: Event, env: Env)
    requires QuantityOk(ud)
    ensures QuantityOk(Dispatch(conv, ud, ev, env).data)
  {
    BackKeepsQuantityOk(ud, env);
    if conv.Some? {
      HandleKeepsQuantityOk(conv.value, ud, ev, env);
    }
  }

  /** Under the floor, `continue_qty` always moves on to the comment
      question: the minimum alert cannot be shown. */
  lemma ContinueAdvances(ud: UserData, env: Env, onPhoto: bool)
    requires QuantityOk(ud)
    ensures Dispatch(Some(Quantity), ud, Callback("continue_qty", onPhoto), env) ==
      Turn(Some(Comment), ud.Push(Quantity), [CommentScreen(ud.lang)])
  {
    assert Accepts(Quantity, Callback("continue_qty", onPhoto));
    assert ud.quantity.GetOr(2) >= 2;
  }

  // ----- re-prompts -----

  /** A phone text that is not back and not usable re-asks for the phone
      and changes nothing else; a usable one is stored and moves on. */
  lemma PhoneValidation(ud: UserData, t: string, env: Env)
    requires !IsBack(ud, t)
    ensures NormalizePhone(t).None? ==>
      Dispatch(Some(Phone), ud, Text(t), env) == Turn(Some(Phone), ud, [PhoneRetry(ud.lang)])
    ensures NormalizePhone(t).Some? ==>
      Dispatch(Some(Phone), ud, Text(t), env) ==
        Turn(Some(Name), ud.Push(Phone).(phone := Some(KeepDialChars(t))), [NameScreen(ud.lang)])
  {
    assert Accepts(Phone, Text(t));
    if NormalizePhone(t).Some? {
      assert NormalizePhone(t).value != "" by {
        assert DigitCount(NormalizePhone(t).value) >= 6;
      }
    }
  }

  /** A shared contact with a number is taken as it is, unnormalized. */
  lemma ContactAccepted(ud: UserData, number: string, env: Env)
    requires number != ""
    ensures Dispatch(Some(Phone), ud, Contact(number), env) ==
      Turn(Some(Name), ud.Push(Phone).(phone := Some(number)), [NameScreen(ud.lang)])
  {
    assert Accepts(Phone, Contact(number));
    assert !IsBack(ud, "") by {
      SayNeverEmpty(ud.lang, Back);
    }
  }

  /** A text other than back in the location step re-asks for the
      location and changes nothing. */
  lemma LocationValidation(ud: UserData, t: string, env: Env)
    requires !IsBack(ud, t)
    ensures Dispatch(Some(Location), ud, Text(t), env) == Turn(Some(Location), ud, [LocationRetry(ud.lang)])
  {
    assert Accepts(Location, Text(t));
  }

  /** No name is refused: even a blank text is stored, as the empty name. */
  lemma AnyNameAccepted(ud: UserData, t: string, env: Env)
    requires !IsBack(ud, t) && ud.lang.Some?
    ensures var turn := Dispatch(Some(Name), ud, Text(t), env);
      turn.conv == Some(Quantity) && turn.data.name == Some(Strip(t)) &&
      turn.data.history == ud.history + [Name]
  {
    assert Accepts(Name, Text(t));
  }

  /** `received_name` keeps a quantity chosen earlier and starts at 2
      otherwise. */
  lemma NameKeepsQuantity(ud: UserData, t: string, env: Env)
    requires !IsBack(ud, t)
    ensures ReceivedName(ud, t, env).data.quantity == Some(if ud.quantity.Some? then ud.quantity.value else 2)
  {
  }

  // ----- back restores the screen -----

  /** The screen of a state depends only on the language, the quantity and
      the environment. */
  lemma StateScreenReads(s: State, a: UserData, b: UserData, env: Env)
    requires a.lang == b.lang && a.quantity == b.quantity
    ensures StateScreen(s, a, env) == StateScreen(s, b, env)
  {
  }

  /** Going forward from state `s` and then back returns to `s` (the
      comment question for the comment text), restores the history, and
      shows the screen `s` had before. */
  lemma ForwardThenBack(s: State, ud: UserData, ev: Event, env: Env)
    requires s == Quantity ==> ud.lang.Some?
    requires Handle(s, ud, ev, env).data.history == ud.history + [s]
    ensures var after := Handle(s, ud, ev, env).data;
      var back := RenderFromHistory(after, env);
      back.data == after.(history := ud.history) &&
      back.outcome == Goto(BackTarget(s)) &&
      Some(back.render) == StateScreen(s, ud, env)
  {
    var after := Handle(s, ud, ev, env).data;
    ForwardKeepsScreen(s, ud, ev, env);
    StateScreenReads(s, after.(history := ud.history), after, env);
    BackAfterPush(after, ud.history, s, env);
  }

  /** Back right after a push of `s` pops exactly that entry. */
  lemma BackAfterPush(after: UserData, h: seq<State>, s: State, env: Env)
    requires after.history == h + [s]
    requires StateScreen(s, after.(history := h), env).Some?
    ensures var back := RenderFromHistory(after, env);
      back.data == after.(history := h) &&
      back.outcome == Goto(BackTarget(s)) &&
      Some(back.render) == StateScreen(s, after.(history := h), env)
  {
    assert after.history[..|after.history| - 1] == h;
    assert after.history[|after.history| - 1] == s;
  }

  /** A step that pushes `s` leaves the language unchanged except when
      leaving the language choice, and the quantity unchanged except when
      leaving the name step, whose screen needs neither. */
  lemma ForwardKeepsScreen(s: State, ud: UserData, ev: Event, env: Env)
    requires Handle(s, ud, ev, env).data.history == ud.history + [s]
    ensures StateScreen(s, Handle(s, ud, ev, env).data, env) == StateScreen(s, ud, env)
  {
    var after := Handle(s, ud, ev, env).data;
    match s
    case Lang =>
    case Name =>
    case _ =>
      ForwardKeepsFields(s, ud, ev, env);
      StateScreenReads(s, after, ud, env);
  }

  /** Outside the language and name steps a step that pushes keeps the
      language and the quantity. */
  lemma ForwardKeepsFields(s: State, ud: UserData, ev: Event, env: Env)
    requires s != Lang && s != Name
    requires Handle(s, ud, ev, env).data.history == ud.history + [s]
    ensures Handle(s, ud, ev, env).data.lang == ud.lang
    ensures Handle(s, ud, ev, env).data.quantity == ud.quantity
  {
    BackPops(ud, env);
    if s != Quantity {
      HandleKeeps(s, ud, ev, env);
    }
  }

  // ----- what entering a state shows -----

  /** A step that pushes `s` and enters a state showed that state's screen,
      the one back re-renders for it. The comment text step is set aside:
      back from it shows the comment question. */
  predicate ShowsEntry(ud: UserData, st: Step, s: State, env: Env) {
    st.data.history == ud.history + [s] && st.outcome.Goto? && st.outcome.state != CommentInput ==>
      Some(st.render) == StateScreen(st.outcome.state, st.data, env)
  }

  lemma LangEntry(ud: UserData, raw: string, env: Env)
    ensures ShowsEntry(ud, LangChosen(ud, raw, env), Lang, env)
  {
  }

  lemma PersonEntry(ud: UserData, text: string, env: Env)
    ensures ShowsEntry(ud, PersonChosen(ud, text, env), PersonType, env)
  {
    BackPops(ud, env);
  }

  lemma PhoneEntry(ud: UserData, ev: Event, env: Env)
    ensures ShowsEntry(ud, ReceivedPhone(ud, ev, env), Phone, env)
  {
    BackPops(ud, env);
  }

  lemma NameEntry(ud: UserData, text: string, env: Env)
    ensures ShowsEntry(ud, ReceivedName(ud, text, env), Name, env)
  {
    BackPops(ud, env);
  }

  lemma QuantityEntry(ud: UserData, data: string, onPhoto: bool, env: Env)
    ensures ShowsEntry(ud, QuantityHandler(ud, data, onPhoto), Quantity, env)
  {
  }

  lemma CommentEntry(ud: UserData, data: string, env: Env)
    ensures ShowsEntry(ud, CommentChoice(ud, data, env), Comment, env)
  {
    BackPops(ud, env);
  }

  lemma CommentInputEntry(ud: UserData, text: string, env: Env)
    ensures ShowsEntry(ud, CommentInputHandler(ud, text, env), CommentInput, env)
  {
    BackPops(ud, env);
  }

  lemma LocationEntry(ud: UserData, ev: Event, env: Env)
    ensures ShowsEntry(ud, ReceivedLocation(ud, ev, env), Location, env)
  {
    BackPops(ud, env);
  }

  lemma DeliveryEntry(ud: UserData, data: string, env: Env)
    ensures ShowsEntry(ud, DeliveryHandler(ud, data, env), DeliveryDate, env)
  {
    BackPops(ud, env);
  }

  /** Every forward step except the payment tap, which stays in the payment
      step showing the order button, shows the screen of the state it
      enters. */
  lemma ForwardShowsEntry(s: State, ud: UserData, ev: Event, env: Env)
    requires s != Payment
    ensures ShowsEntry(ud, Handle(s, ud, ev, env), s, env)
  {
    match s
    case Lang => LangEntry(ud, TextOf(ev), env);
    case PersonType => PersonEntry(ud, TextOf(ev), env);
    case Phone => PhoneEntry(ud, ev, env);
    case Name => NameEntry(ud, TextOf(ev), env);
    case Quantity => QuantityEntry(ud, DataOf(ev), ev.Callback? && ev.onPhoto, env);
    case Comment => CommentEntry(ud, DataOf(ev), env);
    case CommentInput => CommentInputEntry(ud, TextOf(ev), env);
    case Location => LocationEntry(ud, ev, env);
    case DeliveryDate => DeliveryEntry(ud, DataOf(ev), env);
  }

  /** The restart shows the language screen, after the photo when there is
      one; back to the language step shows the screen without the photo. */
  lemma StartShowsEntry(env: Env)
    ensures Start(env).render == (if env.hasImage then [SendPhoto(None, NoMarkup)] else []) + StateScreen(Lang, Cleared, env).value
  {
  }

  /** Entering a state `t`, going forward from it and then back shows again
      exactly what entering `t` showed, returns to `t` and restores the
      session `t` was entered with. */
  lemma EnterLeaveBack(s: State, ud: UserData, ev: Event, ev2: Event, env: Env)
    requires s != Payment
    requires var st := Handle(s, ud, ev, env);
      st.data.history == ud.history + [s] && st.outcome.Goto? && st.outcome.state != CommentInput
    requires var st := Handle(s, ud, ev, env);
      Handle(st.outcome.state, st.data, ev2, env).data.history == st.data.history + [st.outcome.state]
    ensures var st := Handle(s, ud, ev, env);
      var t := st.outcome.state;
      var after := Handle(t, st.data, ev2, env).data;
      var back := RenderFromHistory(after, env);
      back.outcome == Goto(t) && back.render == st.render && back.data == after.(history := st.data.history)
  {
    var st := Handle(s, ud, ev, env);
    ForwardShowsEntry(s, ud, ev, env);
    ForwardThenBack(st.outcome.state, st.data, ev2, env);
  }

  // ----- single forward steps -----

  /** A person type that is not back is stored as typed and the phone is
      asked for. */
  lemma PersonTyped(ud: UserData, t: string, env: Env)
    requires !IsBack(ud, t)
    ensures Dispatch(Some(PersonType), ud, Text(t), env) ==
      Turn(Some(Phone), ud.Push(PersonType).(personType := Some(t)), [PhoneScreen(ud.lang)])
  {
    Routed(PersonType, ud, Text(t), env);
  }

  /** A shared location is stored and the delivery days are offered. */
  lemma LocationShared(ud: UserData, p: GeoPoint, env: Env)
    ensures Dispatch(Some(Location), ud, Shared(p), env) ==
      Turn(Some(DeliveryDate), ud.Push(Location).(location := Some(p)), [DeliveryScreen(ud.lang, env.today)])
  {
    SayNeverEmpty(ud.lang, Back);
    Routed(Location, ud, Shared(p), env);
  }

  // ----- routing quirks -----

  /** `/start` restarts from any state. */
  lemma StartAnywhere(conv: Option<State>, ud: UserData, env: Env)
    ensures Dispatch(conv, ud, Command("start"), env) == Turn(Some(Lang), Cleared, StartScreen(env.hasImage))
  {
  }

  /** No state takes `place_order`, so the application-level handler runs:
      it forwards the order, thanks the user, resets the session, and the
      conversation stays in the state it was in. */
  lemma PlaceOrderKeepsState(conv: Option<State>, ud: UserData, env: Env, onPhoto: bool)
    ensures Dispatch(conv, ud, Callback("place_order", onPhoto), env) ==
      Turn(conv, Cleared, [
        ForwardOrder(OrderText(ud)),
        SendText(Say(ud.lang, Thanks), NoMarkup),
        SendText(RestartPrompt, ReplyKeyboard([[Plain("/start")]]))])
  {
    if conv.Some? {
      PlaceOrderNotAccepted(conv.value, onPhoto);
    }
  }

  lemma PlaceOrderNotAccepted(s: State, onPhoto: bool)
    ensures !Accepts(s, Callback("place_order", onPhoto))
  {
    assert "place_order"[0] != "date_"[0];
  }

  /** A back tap in a state whose handlers do not take it (the quantity
      step, or any text step) is served by the application-level back
      handler: the history is popped and a screen shown, but the
      conversation state does not move. */
  lemma StrayBackKeepsState(s: State, ud: UserData, env: Env, onPhoto: bool)
    requires s !in {Comment, DeliveryDate, Payment}
    ensures var back := RenderFromHistory(ud, env);
      Dispatch(Some(s), ud, Callback("back_any", onPhoto), env) == Turn(Some(s), back.data, back.render)
  {
  }

  /** An unknown token, or a message the current state does not take,
      changes nothing. */
  lemma UnknownTapIgnored(s: State, ud: UserData, data: string, env: Env, onPhoto: bool)
    requires !Accepts(s, Callback(data, onPhoto))
    requires !Anchored(data, "place_order") && !Anchored(data, "back_any")
    ensures Dispatch(Some(s), ud, Callback(data, onPhoto), env) == Turn(Some(s), ud, [])
  {
  }

  /** Another command is ignored in every state. */
  lemma OtherCommandIgnored(conv: Option<State>, ud: UserData, name: string, env: Env)
    requires name != "start"
    ensures Dispatch(conv, ud, Command(name), env) == Turn(conv, ud, [])
  {
    if conv.Some? {
      assert !Accepts(conv.value, Command(name));
    }
  }

  // ----- the language choice -----

  /** In the language step a home label restarts; any other text sets the
      detected language, pushes exactly the language state and asks for
      the person type. */
  lemma LanguageChoice(ud: UserData, t: string, env: Env)
    ensures IsHome(Strip(t)) ==>
      Dispatch(Some(Lang), ud, Text(t), env) == Turn(Some(Lang), Cleared, StartScreen(env.hasImage))
    ensures !IsHome(Strip(t)) ==>
      var code := DetectLanguage(Lower(Strip(t)));
      Dispatch(Some(Lang), ud, Text(t), env) ==
        Turn(Some(PersonType), ud.(lang := Some(code)).Push(Lang), [PersonScreen(Some(code))])
  {
    Routed(Lang, ud, Text(t), env);
  }

  /** A language button is no home label and selects the language
      `DetectLanguage` finds in it. */
  lemma ButtonChooses(ud: UserData, button: string, env: Env)
    requires |button| > 0 && button[0] in {'🇷', '🇺', '🇬'} && 'a' <= button[|button| - 1] <= 'z'
    ensures Dispatch(Some(Lang), ud, Text(button), env).data.lang == Some(DetectLanguage(Lower(button)))
  {
    ButtonIsPlain(button);
    PlainTextChooses(ud, button, env);
  }

  lemma ButtonIsPlain(button: string)
    requires |button| > 0 && button[0] in {'🇷', '🇺', '🇬'} && 'a' <= button[|button| - 1] <= 'z'
    ensures !IsHome(button) && Strip(button) == button
  {
    StripUnpadded(button);
    NotHome(button);
  }

  /** A text with nothing to strip that is no home label selects the
      language detected in it. */
  lemma PlainTextChooses(ud: UserData, t: string, env: Env)
    requires !IsHome(t) && Strip(t) == t
    ensures Dispatch(Some(Lang), ud, Text(t), env).data.lang == Some(DetectLanguage(Lower(t)))
  {
    LanguageChoice(ud, t, env);
  }

  /** The three buttons of the language keyboard choose their language. */
  lemma LanguageKeyboardChooses(ud: UserData, env: Env)
    ensures Dispatch(Some(Lang), ud, Text("🇷🇺 Russian"), env).data.lang == Some("ru")
    ensures Dispatch(Some(Lang), ud, Text("🇺🇿 Uzbek"), env).data.lang == Some("uz")
    ensures Dispatch(Some(Lang), ud, Text("🇬🇧 English"), env).data.lang == Some("en")
  {
    ButtonChooses(ud, "🇷🇺 Russian", env);
    RussianButton();
    ButtonChooses(ud, "🇺🇿 Uzbek", env);
    UzbekButton();
    ButtonChooses(ud, "🇬🇧 English", env);
    EnglishButton();
  }

  /** A text that does not start with the house sign once stripped is no
      home label. */
  lemma NotHome(t: string)
    requires |Strip(t)| > 0 && Strip(t)[0] != '🏠'
    ensures !IsHome(t)
  {
    NoHouseNoLabel(Strip(t));
    HomeLabels(t);
  }

  /** Every home label starts with the house sign. */
  lemma NoHouseNoLabel(t: string)
    requires |t| > 0 && t[0] != '🏠'
    ensures t !in {"🏠 Bosh sahifa", "🏠 Главная", "🏠 Home"}
  {
    assert t != "🏠 Bosh sahifa" by { assert "🏠 Bosh sahifa"[0] == '🏠'; }
    assert t != "🏠 Главная" by { assert "🏠 Главная"[0] == '🏠'; }
    assert t != "🏠 Home" by { assert "🏠 Home"[0] == '🏠'; }
  }

  // ----- the stepper -----

  /** The session after tapping `taps` one by one on the quantity screen. */
  function TapAll(ud: UserData, taps: seq<string>, env: Env): UserData
    decreases |taps|
  {
    if taps == [] then ud
    else TapAll(Dispatch(Some(Quantity), ud, Callback(taps[0], false), env).data, taps[1..], env)
  }

  /** One stepper tap keeps the conversation in the quantity step and
      stores the stepped count. */
  lemma OneTap(ud: UserData, data: string, env: Env)
    requires ud.lang.Some? && ud.quantity.Some?
    requires data in {"incr", "decr", "count"}
    ensures var turn := Dispatch(Some(Quantity), ud, Callback(data, false), env);
      turn.conv == Some(Quantity) &&
      turn.data == ud.(quantity := Some(StepQuantity(ud.quantity.value, data)))
    ensures var turn := Dispatch(Some(Quantity), ud, Callback(data, false), env);
      (data in {"incr", "decr"} ==> turn.render == [QuantityEdit(turn.data.quantity.value, ud.lang.value, false)]) &&
      (data == "count" ==> turn.render == [])
  {
    assert Accepts(Quantity, Callback(data, false));
  }

  /** A run of stepper taps keeps every other field and stores what the
      pure stepper computes for the run. */
  lemma {:induction false} StepperTaps(ud: UserData, taps: seq<string>, env: Env)
    requires ud.lang.Some? && ud.quantity.Some?
    requires forall i :: 0 <= i < |taps| ==> taps[i] in {"incr", "decr", "count"}
    ensures TapAll(ud, taps, env) == ud.(quantity := Some(ApplyAll(ud.quantity.value, taps)))
    decreases |taps|
  {
    if taps != [] {
      OneTap(ud, taps[0], env);
      var next := Dispatch(Some(Quantity), ud, Callback(taps[0], false), env).data;
      StepperTaps(next, taps[1..], env);
    }
  }

  /** Three increments and one decrement from the default count of two
      leave four bottles. */
  lemma ThreeUpOneDownSession(ud: UserData, env: Env)
    requires ud.lang.Some? && ud.quantity == Some(2)
    ensures TapAll(ud, ["incr", "incr", "incr", "decr"], env).quantity == Some(4)
  {
    var taps := ["incr", "incr", "incr", "decr"];
    StepperTaps(ud, taps, env);
    ThreeUpOneDown();
  }

  // ----- delivery, payment, comment -----

  /** In the person-type and comment-text steps the back label, and on the
      comment question, the delivery dates and the payment choice the
      `back_any` tap, is handled by the history renderer; the conversation
      follows its outcome. */
  lemma BackRendersHistory(s: State, ud: UserData, ev: Event, env: Env)
    requires (s in {PersonType, CommentInput} && ev.Text? && IsBack(ud, ev.text))
          || (s in {Comment, DeliveryDate, Payment} && ev.Callback? && ev.data == "back_any")
    ensures var back := RenderFromHistory(ud, env);
      Dispatch(Some(s), ud, ev, env) == Turn(After(Some(s), back.outcome), back.data, back.render)
  {
    assert Accepts(s, ev);
  }

  /** Tapping the i-th offered day stores exactly that day's label and
      asks for the payment method. */
  lemma DeliveryPick(ud: UserData, env: Env, i: nat, onPhoto: bool)
    requires i < 5
    ensures var token := DeliveryButtons(ud.lang, env.today)[i][0].data;
      Dispatch(Some(DeliveryDate), ud, Callback(token, onPhoto), env) ==
        Turn(Some(Payment), ud.Push(DeliveryDate).(deliveryDate := Some(DayLabel(env.today + 1 + i))), [PaymentScreen(ud.lang)])
  {
    DeliveryButtonAt(ud.lang, env.today, i);
    var lbl := DayLabel(env.today + 1 + i);
    DateTokenRoundTrip(lbl);
    assert DateToken(lbl) != "back_any" by {
      assert DateToken(lbl)[0] != "back_any"[0];
    }
    assert Accepts(DeliveryDate, Callback(DateToken(lbl), onPhoto));
  }

  /** Every card or cash tap pushes another payment entry and stays in the
      payment step, so two taps push two entries. */
  lemma PaymentRepeats(ud: UserData, env: Env, first: string, second: string)
    requires first in {"card", "cash"} && second in {"card", "cash"}
    ensures var one := Dispatch(Some(Payment), ud, Callback(first, false), env);
      var two := Dispatch(one.conv, one.data, Callback(second, false), env);
      one.conv == Some(Payment) && two.conv == Some(Payment) &&
      two.data.history == ud.history + [Payment, Payment] &&
      two.data.payment == Some(Say(ud.lang, if second == "card" then Card else Cash))
  {
    assert Accepts(Payment, Callback(first, false));
    assert Accepts(Payment, Callback(second, false));
  }

  /** Answering no keeps a comment typed earlier (after going back from
      the comment text); answering yes then typing stores the stripped
      text. */
  lemma CommentChoices(ud: UserData, t: string, env: Env)
    requires !IsBack(ud.Push(Comment), t)
    ensures var no := Dispatch(Some(Comment), ud, Callback("comment_no", false), env);
      no == Turn(Some(Location), ud.Push(Comment), [LocationScreen(ud.lang)]) &&
      no.data.comment == ud.comment
    ensures var yes := Dispatch(Some(Comment), ud, Callback("comment_yes", false), env);
      var typed := Dispatch(yes.conv, yes.data, Text(t), env);
      yes.conv == Some(CommentInput) &&
      typed == Turn(Some(Location), ud.Push(Comment).Push(CommentInput).(comment := Some(Strip(t))), [LocationScreen(ud.lang)])
  {
    Routed(Comment, ud, Callback("comment_no", false), env);
    Routed(Comment, ud, Callback("comment_yes", false), env);
    CommentTyped(ud.Push(Comment), t, env);
  }

  /** A typed comment that is not back is stripped and stored. */
  lemma CommentTyped(ud: UserData, t: string, env: Env)
    requires !IsBack(ud, t)
    ensures Dispatch(Some(CommentInput), ud, Text(t), env) ==
      Turn(Some(Location), ud.Push(CommentInput).(comment := Some(Strip(t))), [LocationScreen(ud.lang)])
  {
    Routed(CommentInput, ud, Text(t), env);
  }

  /** The back label in the location step goes back. */
  lemma BackFromLocation(ud: UserData, t: string, env: Env)
    requires IsBack(ud, t)
    ensures var back := RenderFromHistory(ud, env);
      Dispatch(Some(Location), ud, Text(t), env) == Turn(After(Some(Location), back.outcome), back.data, back.render)
  {
    Routed(Location, ud, Text(t), env);
  }

  /** The English back label. */
  lemma EnglishBack()
    ensures GetText(Some("en"), Back) == Str("⬅️ Back")
  {
  }

  /** In English only a text starting with the arrow can be back. */
  lemma EnglishNotBack(ud: UserData, t: string)
    requires ud.lang == Some("en") && |t| > 0 && t[0] != '⬅'
    ensures !IsBack(ud, t)
  {
    EnglishBack();
    assert "⬅️ Back"[0] == '⬅';
  }

  /** In every language the back button's own label is back. */
  lemma BackLabelIsBack(ud: UserData)
    ensures IsBack(ud, Say(ud.lang, Back))
  {
  }

  /** Going back from the location step after typing a comment shows the
      comment question again and keeps the comment. */
  lemma TypedCommentBack(ud: UserData, c: string, t: string, env: Env)
    requires IsBack(ud, t)
    ensures var typed := ud.Push(Comment).Push(CommentInput).(comment := Some(c));
      Dispatch(Some(Location), typed, Text(t), env) ==
        Turn(Some(Comment), ud.Push(Comment).(comment := Some(c)), [CommentScreen(ud.lang)])
  {
    var typed := ud.Push(Comment).Push(CommentInput).(comment := Some(c));
    assert IsBack(typed, t);
    BackFromLocation(typed, t, env);
    BackAfterPush(typed, ud.history + [Comment], CommentInput, env);
  }

  /** A comment with no whitespace at either end that cannot be the
      English back label. */
  predicate PlainComment(c: string) {
    |c| > 0 && c[0] != '⬅' && !IsSpace(c[0]) && !IsSpace(c[|c| - 1])
  }

  /** In English, typing such a comment stores it as it is. */
  lemma PlainCommentStored(ud: UserData, c: string, env: Env)
    requires ud.lang == Some("en") && PlainComment(c)
    ensures Dispatch(Some(CommentInput), ud.Push(Comment), Text(c), env).data ==
      ud.Push(Comment).Push(CommentInput).(comment := Some(c))
  {
    StripUnpadded(c);
    EnglishNotBack(ud.Push(Comment), c);
    CommentTyped(ud.Push(Comment), c, env);
  }

  /** Answering no keeps whatever comment is stored. */
  lemma NoKeepsComment(back: UserData, env: Env)
    ensures Dispatch(Some(Comment), back, Callback("comment_no", false), env).data == back.Push(Comment)
  {
    Routed(Comment, back, Callback("comment_no", false), env);
  }

  /** A comment typed and then abandoned by going back (`t` is the back
      label) and answering no still reaches the order, stripped. */
  lemma AbandonedCommentIsOrdered(ud: UserData, c: string, t: string, env: Env)
    requires !IsBack(ud, c) && IsBack(ud, t) && Strip(c) != ""
    ensures var typed := ud.Push(Comment).Push(CommentInput).(comment := Some(Strip(c)));
      var back := ud.Push(Comment).(comment := Some(Strip(c)));
      Dispatch(Some(CommentInput), ud.Push(Comment), Text(c), env).data == typed &&
      Dispatch(Some(Location), typed, Text(t), env).data == back &&
      Dispatch(Some(Comment), back, Callback("comment_no", false), env).data.comment == Some(Strip(c)) &&
      OrderLines(back.Push(Comment))[9] == "📝 Izoh: " + Strip(c)
  {
    assert !IsBack(ud.Push(Comment), c);
    CommentTyped(ud.Push(Comment), c, env);
    TypedCommentBack(ud, Strip(c), t, env);
    var back := ud.Push(Comment).(comment := Some(Strip(c)));
    NoKeepsComment(back, env);
    CommentLineIff(back.Push(Comment));
  }

  // ----- the language KeyError -----

  /** A handler that raises never moves the conversation state. */
  lemma RaisedKeepsState(s: State, ud: UserData, ev: Event, env: Env)
    requires Accepts(s, ev) && Handle(s, ud, ev, env).outcome == Raised
    ensures Dispatch(Some(s), ud, ev, env).conv == Some(s)
  {
  }

  /** The quantity step can lose its language: a stray back tap on an
      empty history restarts the session while the conversation stays in
      the quantity step, and the next increment stores 3 and then raises. */
  lemma LostLanguage(ud: UserData, env: Env)
    requires ud.history == []
    ensures var back := Dispatch(Some(Quantity), ud, Callback("back_any", false), env);
      var tap := Dispatch(back.conv, back.data, Callback("incr", false), env);
      back.conv == Some(Quantity) && back.data == Cleared &&
      tap.conv == Some(Quantity) && tap.data == Cleared.(quantity := Some(3)) && tap.render == [] &&
      Handle(Quantity, back.data, Callback("incr", false), env).outcome == Raised
  {
    assert Accepts(Quantity, Callback("incr", false));
  }
}
