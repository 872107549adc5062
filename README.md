# Water-order bot: the conversation flow engine

A model of the per-user conversation of `bot.py`, a Telegram bot that takes
orders for bottled water. The model covers:

- the ten conversation states;
- the session record (`context.user_data`) with its `_history` stack;
- one handler per state and the history-based back navigation;
- the routing of updates to handlers;
- the pure helpers the handlers use:
  - localized text lookup with fallbacks;
  - phone normalization;
  - the "home" label check;
  - language detection;
  - the price caption;
  - the quantity keyboard;
  - the five-day delivery offer;
  - the order text sent to the order chat.

Telegram calls become values. An update becomes an `Event`: a text, a
contact, a shared location, a button tap or a command. What a handler sends
becomes a `Render`, a list of `Message` values with their keyboards.

The model has two layers.

- Module `Flow` gives each handler a function of the session record and the
  update. `Flow.Dispatch` is the routing of the application.
- Module `Engine` writes the same handlers imperatively.
  - `Session` is a class whose fields are the keys of `user_data`. Each
    handler is a method that changes those fields in place.
  - `Conversation` holds the state the conversation handler keeps.
  - Every method is proved to leave exactly the state, outcome and messages
    that its `Flow` function gives.

Module `FlowProps` proves the properties of the flow over `Flow`. Among them:

- Each update changes `_history` in one of four ways: it keeps the history,
  pushes the state being left, pops one entry, or resets the session.
- The quantity never drops below two.
- A failed validation re-prompts the same state and changes nothing.
- Going back re-renders the screen of the state it returns to, from the
  fields stored at that moment. Right after a forward step, and with the
  same day and image, this is exactly what the user saw on entering that
  state. This does not hold after the payment tap, which showed the order
  button, or after the comment text, where back shows the comment
  question. Taps in `QUANTITY` change the count that back later shows,
  and the offered dates are at the time of the back tap.
- Three routing facts hold: `/start` restarts from anywhere; the place-order
  tap leaves the conversation state where it was; unrecognized taps are
  dropped.

Modules:

- `Strings`: `strip`, `lower`, `in`, `str(int)`, `split`.
- `Catalog`: `TEXTS`, lookup, the home check, the price caption.
- `PhoneNumbers`
- `Language`
- `Stepper`: the quantity counter.
- `Screens`: keyboards and prompts.
- `UserState`: states, the session record, events.
- `Order`
- `Flow`
- `FlowProps`
- `Engine`

Behaviour of the code worth noting:

- Names are not validated: any text, also an empty one, is accepted.
- The delivery offer skips no weekday.
- No area, district or address step exists.
- After the order is placed, the conversation state stays where it was.
  The place-order tap is handled outside the conversation, so the `LANG`
  it returns is discarded.
- Unrecognized tokens are dropped: nothing is sent and nothing changes.
- Choosing "no comment" keeps a comment typed earlier. The comment then
  still reaches the order (`FlowProps.AbandonedCommentIsOrdered`).

Two behaviours of the code are modelled explicitly:

- A handler that reads `user_data["lang"]` when no language is stored
  raises `KeyError`. This is the outcome `Raised`:
  - writes made before the read persist;
  - the conversation state does not change.
- `re.match` with a pattern ending in `$` also accepts a token followed by
  one newline (`Flow.Anchored`).

## Model

| member | source | states |
|---|---|---|
| Catalog.ParseKeyName | bot.py:47-126 | every key of the model names a dictionary key, and reading that name back gives the same key |
| Catalog.UzText | bot.py:48-73 | every entry of the Uzbek table shows a non-empty text |
| Catalog.RuText | bot.py:74-99 | every entry of the Russian table shows a non-empty text |
| Catalog.EnText | bot.py:100-125 | every entry of the English table shows a non-empty text |
| Catalog.GetTextForLang | bot.py:130-131 | a key no table holds gives the key itself; a held key gives the entry of the Russian or English table for `ru` and `en`, and of the Uzbek table for `uz` and every unknown language |

| Catalog.Items | bot.py:236 | iterating an entry: a list gives its items, a text gives its characters as one-character strings |
| Catalog.GetTextIsLookup | bot.py:134-136 | `get_text` is `get_text_for_lang` on the stored language, `uz` when none is stored |
| Catalog.MissingKeyIsKey | bot.py:131 | a key no table holds comes back as its own text, for every language (a known language does not fall back to `uz`) |
| Catalog.UnknownLanguageIsUzbek | bot.py:131 | a language with no table reads the Uzbek table |
| Catalog.LookupNeverEmpty | bot.py:130-131 | for a non-empty key the lookup never yields an empty label |
| Catalog.SayNeverEmpty | bot.py:134-136 | every localized text the handlers send is non-empty |
| Catalog.IsHomeText | bot.py:147-155 | true exactly when the text is non-empty and its stripped form is the home label of some table |
| Catalog.FindHomeLabel | bot.py:151-155 | the search over the tables finds a table whose home label is the text exactly when one exists |
| Catalog.HomeLabelOf | bot.py:153 | the home label of each language, and no home label for any other language |
| Catalog.HomeLabels | bot.py:147-155 | the home check accepts exactly the three home labels, whatever whitespace surrounds them |
| Catalog.UnitPriceText | bot.py:36 | the unit price prints as `7000` |
| Catalog.FillPriceTemplate | bot.py:168-171 | the filled price template is head, unit price, currency, middle text, total, currency |
| Catalog.PriceLineOf | bot.py:169 | the `price_line` template of each language, with Uzbek for every other language |
| Catalog.CaptionIsFill | bot.py:168-171 | the caption is the language's price template filled with 7000, `qty * 7000` and `UZS` |
| Catalog.CaptionText | bot.py:168-171 | the caption's exact text for every quantity and language |
| Catalog.CaptionInjective | bot.py:168-171 | different quantities give different captions |
| Catalog.BuildPriceCaption | bot.py:168-171 | no contract of its own; its properties are stated by Catalog.CaptionIsFill, Catalog.CaptionText and Catalog.CaptionInjective |
| PhoneNumbers.KeepDialChars | bot.py:142 | the filtered text is no longer than the input and holds only digits and `+` |
| PhoneNumbers.KeepDialCharsKeepsDigits | bot.py:142-143 | filtering keeps every digit |
| PhoneNumbers.KeepDialCharsFixes | bot.py:142 | a text of digits and `+` is left as it is |
| PhoneNumbers.DigitCount | bot.py:143 | the number of digits, never more than the length of the text; that the filter keeps it is PhoneNumbers.KeepDialCharsKeepsDigits |
| PhoneNumbers.NormalizePhone | bot.py:139-144 | `None` exactly for an empty text or one with fewer than six digits; otherwise the input with everything but digits and `+` removed, holding at least six digits |
| PhoneNumbers.NormalizeIdempotent | bot.py:139-144 | normalizing a normalized number changes nothing |
| Language.RussianTokensAre | bot.py:224 | the Russian test is `рус`, `ru`, `russian` or `рос` occurring in the text |
| Language.UzbekTokensAre | bot.py:226 | the Uzbek test is `uz`, `ўз` or `uzbek` occurring in the text |
| Language.DetectLanguage | bot.py:223-229 | `ru` iff a Russian token occurs; `uz` iff no Russian token but an Uzbek one occurs; `en` iff neither |
| Language.DetectsRussian | bot.py:224-225 | text that lower-cases to contain a Russian token selects `ru` |
| Language.UzbekWithoutRussian | bot.py:226-227 | lowered text with an Uzbek token and neither `r` nor `р` selects `uz` |
| Language.DetectsUzbek | bot.py:226-227 | text that lower-cases to contain an Uzbek token, with no character lowering to `r` or `р`, selects `uz` |
| Language.EnglishWithoutTokens | bot.py:228-229 | lowered text without `r`, `р`, `u` or `ў` selects `en` |
| Language.DetectsEnglish | bot.py:228-229 | text with no character lowering to `r`, `р`, `u` or `ў` selects `en` |
| Language.RussianButton | bot.py:223-225 | the Russian keyboard button selects `ru` |
| Language.UzbekButton | bot.py:226-227 | the Uzbek keyboard button selects `uz` |
| Language.EnglishButton | bot.py:228-229 | the English keyboard button selects `en` |
| Language.CyrillicNames | bot.py:223-227 | `Русский` selects `ru` and `Ўзбекча` selects `uz` |
| Stepper.StepQuantity | bot.py:311-321 | `incr` adds one; `decr` subtracts one above two and otherwise sets two; any other token keeps the count |
| Stepper.ApplyAllBounds | bot.py:311-321 | from two or more, any run of taps stays at two or more, within the counts of `incr` and `decr` taps |
| Stepper.ApplyAllAppend | bot.py:311-321 | applying two runs of taps is applying their concatenation |
| Stepper.Increments | bot.py:311-314 | `n` increments add `n` |
| Stepper.Decrements | bot.py:315-321 | `n` decrements give max(2, count - n) |
| Stepper.IncrementsThenDecrements | bot.py:311-321 | increments followed by decrements give max(2, count + increments - decrements) |
| Stepper.DecrementAtFloorIsLost | bot.py:315-321 | a decrement at two is lost: `decr, incr` from two gives three |
| Stepper.ThreeUpOneDown | bot.py:311-321 | three increments and one decrement from two give four |
| Screens.BuildQtyMarkup | bot.py:175-185 | two rows, the first of three buttons whose middle one shows the count with token `count` |
| Screens.QtyMarkupTokens | bot.py:175-185 | the tokens are `decr`, `count`, `incr` and, alone on the second row, `continue_qty` |
| Screens.QtyMarkupInjective | bot.py:175-185 | different counts give different keyboards |
| Screens.QuantityEditInjective | bot.py:338-346 | different counts never give the same edit of the quantity screen |
| Screens.OfferedDays | bot.py:412 | five days, today+1 through today+5 |
| Screens.DatePayloadIsSuffix | bot.py:427-428 | splitting a `date_` token at its first `_` takes exactly the prefix off |
| Screens.DateTokenRoundTrip | bot.py:413-430 | the date stored from a button's token is the label on that button |
| Screens.DeliveryOffer | bot.py:411-415 | six rows: five one-button rows for consecutive days in ascending order, each token carrying its own label, then the back button |
| Screens.DateTokenInjective | bot.py:413 | different labels give different tokens |
| Screens.DayTokensDistinct | bot.py:412-413 | different days give different tokens |
| Screens.DeliveryButtonAt | bot.py:412-413 | the button of the i-th offered day shows that day and carries its token |
| Screens.DeliveryTokensDistinct | bot.py:412-413 | the five offered tokens are pairwise distinct |
| Screens.DeliveryButtons | bot.py:411-414 | no contract of its own; the offer is stated by Screens.DeliveryOffer, Screens.DeliveryButtonAt and Screens.DeliveryTokensDistinct |
| UserState.UserData.Push | bot.py:233 | appending to `_history` adds exactly one entry and changes no other field |
| Order.LinesAppend | bot.py:487-500 | joining lines distributes over concatenation |
| Order.OrderTextParts | bot.py:487-500 | the order text is the required lines, then the comment line, then the map line |
| Order.OrderStartsWithHeader | bot.py:488 | every order starts with the header and a blank line |
| Order.CommentLineIff | bot.py:497-498 | nine required lines always; the comment line appears iff a non-empty comment is stored and shows it |
| Order.LocationLineIff | bot.py:499-500 | the last line is a map line iff a location is stored, and it links to that location |
| Order.OrderTotalMatchesCaption | bot.py:483-493 | the order's quantity and total (`qty * 7000`) are the ones the price caption shows for the stored quantity |
| Order.EmptyOrder | bot.py:483-496 | an empty session gives only the required lines, with `None` fields and quantity and total 0 |
| Order.OrderText | bot.py:483-500 | no contract of its own; the text is stated by Order.OrderTextParts, Order.OrderStartsWithHeader, Order.CommentLineIff, Order.LocationLineIff and Order.OrderTotalMatchesCaption |
| Flow.Start | bot.py:189-211 | no contract of its own; its properties are stated by FlowProps.StartAnywhere and FlowProps.StartShowsEntry |
| Flow.RenderFromHistory | bot.py:534-603 | no contract of its own; its properties are stated by FlowProps.BackPops, FlowProps.BackAfterPush, FlowProps.ForwardThenBack and FlowProps.EnterLeaveBack |
| Flow.LangChosen | bot.py:214-239 | no contract of its own; its properties are stated by FlowProps.LanguageChoice, FlowProps.LangChosenHistory, FlowProps.LangEntry and FlowProps.LangKeepsQuantityOk |
| Flow.PersonChosen | bot.py:242-254 | no contract of its own; its properties are stated by FlowProps.BackRendersHistory, FlowProps.PersonTyped, FlowProps.PersonKeeps and FlowProps.PersonEntry |
| Flow.ReceivedPhone | bot.py:257-277 | no contract of its own; its properties are stated by FlowProps.PhoneValidation, FlowProps.ContactAccepted, FlowProps.PhoneHistory and FlowProps.PhoneEntry |
| Flow.ReceivedName | bot.py:280-302 | no contract of its own; its properties are stated by FlowProps.AnyNameAccepted, FlowProps.NameKeepsQuantity, FlowProps.NameHistory and FlowProps.NameEntry |
| Flow.QuantityHandler | bot.py:305-358 | no contract of its own; its properties are stated by FlowProps.OneTap (the edit sent on `incr` and `decr`), FlowProps.StepperTaps, FlowProps.ContinueAdvances, FlowProps.QuantityTapHistory and FlowProps.QuantityHandlerKeepsQuantityOk |
| Flow.CommentChoice | bot.py:361-381 | no contract of its own; its properties are stated by FlowProps.BackRendersHistory, FlowProps.CommentChoices, FlowProps.NoKeepsComment, FlowProps.CommentTapHistory and FlowProps.CommentEntry |
| Flow.CommentInputHandler | bot.py:384-394 | no contract of its own; its properties are stated by FlowProps.BackRendersHistory, FlowProps.CommentTyped, FlowProps.CommentInputKeeps and FlowProps.CommentInputEntry |
| Flow.ReceivedLocation | bot.py:397-416 | no contract of its own; its properties are stated by FlowProps.LocationShared, FlowProps.LocationValidation, FlowProps.BackFromLocation, FlowProps.LocationHistory and FlowProps.LocationEntry |
| Flow.DeliveryHandler | bot.py:419-441 | no contract of its own; its properties are stated by FlowProps.BackRendersHistory, FlowProps.DeliveryPick, FlowProps.DeliveryTapHistory and FlowProps.DeliveryEntry |
| Flow.PaymentHandler | bot.py:444-460 | no contract of its own; its properties are stated by FlowProps.BackRendersHistory, FlowProps.PaymentRepeats and FlowProps.PaymentTapHistory |
| Flow.PlaceOrder | bot.py:465-530 | no contract of its own; its properties are stated by FlowProps.PlaceOrderKeepsState |
| Flow.Anchored | bot.py:620-625 | no contract of its own; its properties are stated by FlowProps.UnknownTapIgnored and FlowProps.StrayBackKeepsState (a token matches `^token$` as itself or followed by one newline) |
| Flow.Accepts | bot.py:616-625 | no contract of its own; its properties are stated by FlowProps.Routed, FlowProps.PlaceOrderNotAccepted and FlowProps.UnknownTapIgnored |
| Flow.Dispatch | bot.py:613-635 | no contract of its own; its properties are stated by FlowProps.HistoryDiscipline, FlowProps.QuantityFloor, FlowProps.StartAnywhere, FlowProps.PlaceOrderKeepsState, FlowProps.StrayBackKeepsState, FlowProps.UnknownTapIgnored and FlowProps.OtherCommandIgnored |
| FlowProps.Routed | bot.py:613-626 | an update the current state accepts runs that state's handler and moves to the state it returns |
| FlowProps.BackPops | bot.py:534-603 | back restarts on an empty history; otherwise it pops one entry and keeps every other field; it raises only for a popped quantity entry without a language; it returns the popped state (comment input maps to comment) with that state's screen |
| FlowProps.BackHistory | bot.py:536-539 | back pops one entry or resets the session |
| FlowProps.LangChosenHistory | bot.py:218-233 | a home label resets the session; any other text pushes exactly `LANG` |
| FlowProps.PhoneHistory | bot.py:257-277 | the back label is the history renderer (one pop, or a reset on an empty history); otherwise the handler pushes exactly `PHONE` and moves to `NAME`, or changes nothing |
| FlowProps.NameHistory | bot.py:280-287 | the back label is the history renderer; any other text pushes exactly `NAME` |
| FlowProps.LocationHistory | bot.py:397-408 | the back label is the history renderer (one pop, or a reset on an empty history); otherwise the handler pushes exactly `LOCATION` and moves to `DELIVERY_DATE`, or changes nothing |
| FlowProps.QuantityTapHistory | bot.py:305-336 | the history gains `QUANTITY` on `continue_qty` with a count of two or more and is unchanged by every other tap |
| FlowProps.CommentTapHistory | bot.py:361-381 | the comment choice pushes `COMMENT`, goes back, or keeps the history |
| FlowProps.DeliveryTapHistory | bot.py:419-441 | the delivery handler pushes `DELIVERY_DATE`, goes back, or keeps the history |
| FlowProps.PaymentTapHistory | bot.py:444-460 | the payment handler pushes `PAYMENT`, goes back, or keeps the history |
| FlowProps.HandleHistory | bot.py:613-626 | every state's handler keeps, pushes the current state, pops one entry or resets |
| FlowProps.HistoryDiscipline | bot.py:613-635 | every update keeps the history, pushes the current state, pops one entry or resets the session |
| FlowProps.BackKeepsQuantityOk | bot.py:534-603 | back keeps the quantity at two or more when it was |
| FlowProps.PersonKeeps | bot.py:242-254 | the person handler keeps language and quantity, or is back |
| FlowProps.PhoneKeeps | bot.py:257-277 | the phone handler keeps language and quantity, or is back |
| FlowProps.CommentKeeps | bot.py:361-381 | the comment choice keeps language and quantity, or is back |
| FlowProps.CommentInputKeeps | bot.py:384-394 | the comment input keeps language and quantity, or is back |
| FlowProps.LocationKeeps | bot.py:397-416 | the location handler keeps language and quantity, or is back |
| FlowProps.DeliveryKeeps | bot.py:419-441 | the delivery handler keeps language and quantity, or is back |
| FlowProps.PaymentKeeps | bot.py:444-460 | the payment handler keeps language and quantity, or is back |
| FlowProps.HandleKeeps | bot.py:613-626 | every handler other than language, name and quantity keeps language and quantity, or is back |
| FlowProps.QuantityHandlerKeepsQuantityOk | bot.py:305-336 | a quantity of two or more stays two or more under every tap |
| FlowProps.NameKeepsQuantityOk | bot.py:280-302 | the name handler keeps a quantity of two or more |
| FlowProps.LangKeepsQuantityOk | bot.py:214-239 | the language handler keeps a quantity of two or more |
| FlowProps.HandleKeepsQuantityOk | bot.py:613-626 | every handler keeps a quantity of two or more |
| FlowProps.QuantityFloor | bot.py:613-635 | no update takes a quantity of two or more below two |
| FlowProps.ContinueAdvances | bot.py:324-336 | continue at two or more pushes `QUANTITY`, moves to `COMMENT` and asks the comment question |
| FlowProps.PhoneValidation | bot.py:262-277 | an unusable phone text re-prompts `PHONE` with nothing changed; a usable one stores its digits and `+` and moves to `NAME` |
| FlowProps.ContactAccepted | bot.py:263-277 | a shared contact with a number stores that number and moves to `NAME` |
| FlowProps.LocationValidation | bot.py:402-404 | a text that is not back re-prompts `LOCATION` with nothing changed |
| FlowProps.AnyNameAccepted | bot.py:280-302 | any text that is not back, also an empty one, is stored stripped as the name and moves to `QUANTITY` |
| FlowProps.NameKeepsQuantity | bot.py:287 | the name handler keeps a stored quantity and otherwise stores two |
| FlowProps.StateScreenReads | bot.py:534-603 | a re-rendered screen depends only on language and quantity |
| FlowProps.ForwardThenBack | bot.py:534-603 | after a forward step from a state, back restores the history, returns to that state (the comment question for the comment text) and shows that state's screen as it was before the step |
| FlowProps.BackAfterPush | bot.py:536-601 | back after a push of a state pops it and shows that state's screen |
| FlowProps.ForwardKeepsScreen | bot.py:534-603 | a forward step does not change the screen the left state would re-render |
| FlowProps.ForwardKeepsFields | bot.py:242-460 | a forward step from any state but language and name keeps language and quantity |
| FlowProps.LangEntry | bot.py:232-239 | entering the person-type step shows its screen, the one back re-renders (bot.py:548-552) |
| FlowProps.PersonEntry | bot.py:247-254 | entering the phone step shows its screen, the one back re-renders (bot.py:554-557) |
| FlowProps.PhoneEntry | bot.py:272-277 | entering the name step shows its screen, the one back re-renders (bot.py:559-561) |
| FlowProps.NameEntry | bot.py:285-302 | entering the quantity step shows its screen, the one back re-renders (bot.py:563-573) |
| FlowProps.QuantityEntry | bot.py:324-336 | entering the comment question shows its screen, the one back re-renders (bot.py:575-580) |
| FlowProps.CommentEntry | bot.py:369-374 | entering the location step from "no comment" shows its screen, the one back re-renders (bot.py:582-585) |
| FlowProps.CommentInputEntry | bot.py:389-394 | entering the location step from a typed comment shows its screen |
| FlowProps.LocationEntry | bot.py:406-416 | entering the delivery step shows its offer, the one back re-renders (bot.py:587-593) |
| FlowProps.DeliveryEntry | bot.py:429-439 | entering the payment step shows its choice, the one back re-renders (bot.py:595-601) |
| FlowProps.ForwardShowsEntry | bot.py:613-626 | every forward step but the payment tap shows the screen of the state it enters |
| FlowProps.StartShowsEntry | bot.py:189-211 | the restart shows the language screen, after the photo when there is one; back to the language step shows it without the photo (bot.py:543-546) |
| FlowProps.EnterLeaveBack | bot.py:534-603 | entering a state, going forward from it and back shows again exactly what entering it showed, returns to it and restores the session it was entered with |
| FlowProps.BackRendersHistory | bot.py:244-449 | the back label (bot.py:244, 386) on the person type and the comment text, and `back_any` (bot.py:366, 424, 449) on the comment question, the dates and the payment choice, are exactly the history renderer |
| FlowProps.PersonTyped | bot.py:242-254 | a text that is not back is stored as the person type unchanged, pushes `PERSON_TYPE`, moves to `PHONE` and asks for the phone |
| FlowProps.LocationShared | bot.py:397-416 | a shared location is stored, pushes `LOCATION`, moves to `DELIVERY_DATE` and offers the days |
| FlowProps.StartAnywhere | bot.py:613-628 | `/start` in any state clears the session, moves to `LANG` and shows the language choice |
| FlowProps.PlaceOrderKeepsState | bot.py:465-528 | the place-order tap forwards the order, thanks the user, clears the session and leaves the conversation state unchanged |
| FlowProps.PlaceOrderNotAccepted | bot.py:616-625 | no state of the conversation takes the place-order tap |
| FlowProps.StrayBackKeepsState | bot.py:635 | a back tap in a state that does not take it goes back without changing the conversation state |
| FlowProps.UnknownTapIgnored | bot.py:613-635 | a tap no handler takes changes nothing and sends nothing |
| FlowProps.OtherCommandIgnored | bot.py:613-628 | a command other than `/start` changes nothing and sends nothing |
| FlowProps.LanguageChoice | bot.py:214-239 | a home label restarts; any other text stores the detected language, pushes `LANG` and shows the person-type question |
| FlowProps.ButtonChooses | bot.py:205-229 | a language button stores the language detected from its own text |
| FlowProps.ButtonIsPlain | bot.py:205 | a language button is not a home label and has no surrounding space |
| FlowProps.PlainTextChooses | bot.py:214-229 | unpadded text that is not a home label stores the language detected from it |
| FlowProps.LanguageKeyboardChooses | bot.py:205-229 | the three keyboard buttons select `ru`, `uz` and `en` |
| FlowProps.NotHome | bot.py:147-155 | a text whose stripped form does not start with the house sign is not a home label |
| FlowProps.NoHouseNoLabel | bot.py:71-123 | no text that starts with another character is one of the home labels |
| FlowProps.OneTap | bot.py:305-345 | one tap in `QUANTITY` stays there and steps the stored count; `incr` and `decr` edit the message to show the new count, `count` sends nothing |
| FlowProps.StepperTaps | bot.py:305-321 | a run of stepper taps leaves the session of a single stepping of the counter over that run |
| FlowProps.ThreeUpOneDownSession | bot.py:305-321 | three increments and one decrement from two store four |
| FlowProps.DeliveryPick | bot.py:419-439 | picking the i-th offered day stores that day's label, pushes `DELIVERY_DATE` and moves to `PAYMENT` |
| FlowProps.PaymentRepeats | bot.py:444-458 | two payment taps both stay in `PAYMENT`, push it twice and store the localized label of the second |
| FlowProps.CommentChoices | bot.py:361-394 | "no" moves to `LOCATION` keeping the stored comment; "yes" and a typed text store the stripped text and move to `LOCATION` |
| FlowProps.CommentTyped | bot.py:384-394 | a typed comment that is not back is stored stripped, pushes `COMMENT_INPUT` and moves to `LOCATION` |
| FlowProps.BackFromLocation | bot.py:397-400 | back at the location prompt is the history renderer |
| FlowProps.EnglishBack | bot.py:113 | the English back label |
| FlowProps.EnglishNotBack | bot.py:113 | in English, a text not starting with the arrow is not back |
| FlowProps.BackLabelIsBack | bot.py:134-136 | in every language the back button's own label is recognized as back |
| FlowProps.TypedCommentBack | bot.py:575-580 | in every language, back after a typed comment returns to the comment question and keeps the comment |
| FlowProps.PlainCommentStored | bot.py:390 | in English a comment without surrounding space is stored as typed |
| FlowProps.NoKeepsComment | bot.py:369-373 | "no comment" only pushes `COMMENT` and keeps every field |
| FlowProps.AbandonedCommentIsOrdered | bot.py:384-498 | in every language, a comment typed, backed out of and then declined is still stored stripped and still printed in the order |
| FlowProps.RaisedKeepsState | bot.py:287-291 | a handler that raises leaves the conversation state unchanged |
| FlowProps.LostLanguage | bot.py:563-565 | a back tap in `QUANTITY` on an empty history clears the session but stays in `QUANTITY`, where a tap then stores three and raises |
| Engine.Session.constructor | bot.py:192-193 | a new session is empty with an empty history |
| Engine.Session.Clear | bot.py:192-193 | clearing empties every field and the history |
| Engine.Session.Push | bot.py:233 | appends one state to the history |
| Engine.Session.Start | bot.py:189-211 | the session is cleared, the photo and language choice are sent and the state is `LANG`, as `Flow.Start` |
| Engine.Session.RenderFromHistory | bot.py:534-603 | pops the history in place and returns what `Flow.RenderFromHistory` gives |
| Engine.Session.LangChosen | bot.py:214-239 | the new fields, outcome and messages of `Flow.LangChosen` |
| Engine.Session.PersonChosen | bot.py:242-254 | the new fields, outcome and messages of `Flow.PersonChosen` |
| Engine.Session.ReceivedPhone | bot.py:257-277 | the new fields, outcome and messages of `Flow.ReceivedPhone` |
| Engine.Session.StoreName | bot.py:285-287 | pushes `NAME` and stores the name and quantity |
| Engine.Session.ReceivedName | bot.py:280-302 | the new fields, outcome and messages of `Flow.ReceivedName` |
| Engine.Session.QuantityHandler | bot.py:305-358 | the local count stepped and written back, as `Flow.QuantityHandler` |
| Engine.Session.CommentChoice | bot.py:361-381 | the new fields, outcome and messages of `Flow.CommentChoice` |
| Engine.Session.CommentInputHandler | bot.py:384-394 | the new fields, outcome and messages of `Flow.CommentInputHandler` |
| Engine.Session.ReceivedLocation | bot.py:397-416 | the new fields, outcome and messages of `Flow.ReceivedLocation` |
| Engine.Session.DeliveryHandler | bot.py:419-441 | the new fields, outcome and messages of `Flow.DeliveryHandler` |
| Engine.Session.PaymentHandler | bot.py:444-460 | the new fields, outcome and messages of `Flow.PaymentHandler` |
| Engine.Session.PlaceOrder | bot.py:465-530 | the order built from the session before it is cleared, as `Flow.PlaceOrder` |
| Engine.Conversation.constructor | bot.py:613-629 | no conversation state and an empty session |
| Engine.Conversation.Handle | bot.py:613-635 | routes the update and updates state and session exactly as `Flow.Dispatch` |

## Left out

- Telegram transport: replies, photos, edits, the alert of bot.py:327 and sending to the order chat become `Message` values. The plain `query.answer()` acknowledgements (bot.py:307, 363, 421, 446, 475) send nothing the user reads, and they are not modelled. Polling and application building (bot.py:607-638) are not modelled.
- Async execution and concurrency: each handler is one atomic step on one user's session.
- Configuration and the image file (bot.py:30-37, 159-164): whether an image is present is the boolean `Env.hasImage`. It only chooses between a photo and a text message.
- `datetime.now()` and `strftime("%Y-%m-%d")`: today is an integer day number passed in `Env.today`, and a date label is its decimal rendering.
- Latitude and longitude are floats in the source. Here they are opaque texts, concatenated into the map link.
- `str.lower()` covers ASCII and the Cyrillic capitals U+0400..U+042F. `str.strip()` covers Python's whitespace set. `str.format` is a template of literals and slots.
- The edit failure handling and "message not modified" suppression of `quantity_handler` (bot.py:341-356) and the order-forward and thank-you fallbacks (bot.py:503-512). Every branch leaves the session as it is, so an edit is always a single `EditCaption` or `EditText` message.
- Arguments of `/start` are not modelled. A command is identified by its name alone.
- `_history` missing from the session: every path that clears the session sets it again (bot.py:193, 521), so the history is always a list.
- Which message a reply or edit goes to (`query.message`, `update.effective_chat`) is not modelled; those messages are always assumed present.
- The final `return await start(...)` of the history renderer (bot.py:603) cannot be reached: every state has its own branch.
- PhoneNumbers.NormalizePhone: counts only the ASCII digits `0`-`9` as digits. The source's `\d` matches every Unicode decimal digit, so it also keeps and counts, for example, Arabic-Indic digits; the model drops them, and a number written only in them is rejected here.
- FlowProps.ForwardShowsEntry: leaves out the payment tap, which shows the order button and not the payment choice, and says nothing about the comment-text step, whose back render is the comment question. The language screen that back re-renders has no photo (`FlowProps.StartShowsEntry`).
- PhoneNumbers.DigitCount: counts only ASCII digits; the `\D` of bot.py:143 leaves every Unicode decimal digit to be counted.
- PhoneNumbers.KeepDialChars: keeps only ASCII digits and `+`; the source also keeps every other Unicode decimal digit.
- Catalog.GetText: takes a `Key` of the model, not a free string. The handlers only ever ask for the keys the tables hold; other strings reach the fallback only through `Catalog.GetTextForLang`.
- Screens.BuildQtyMarkup: its own contract states only the shape and the count button. The tokens are stated by `Screens.QtyMarkupTokens`.
