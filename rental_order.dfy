/** The rental-order state of the product page and what each page event does to it,
    as values: `Step` is one event, `Run` a sequence of them. The component class in
    module ProductDetailsComponent is proved to follow `Step`, so every lemma here
    holds of the running component. */
module RentalOrder {
  import opened Wrappers
  import opened Decimal
  import opened Calendar
  import opened DateFormat

  /** Price of one rental day. */
  const DailyRate: int := 100
  /** Minor currency units (cents) per unit, for the payment-intent amount. */
  const MinorUnitsPerUnit: int := 100
  /** The item id every payment intent carries, whatever product is shown. */
  const PayableItemId: string := "xl-tshirt"
  /** The e-mail service and template the order notification goes to. */
  const EmailServiceId: string := "service_bcw3hh9"
  const EmailTemplateId: string := "template_aihrkpk"

  /** The component's ten state fields. */
  datatype OrderState = OrderState(
    flag: bool,
    totalPrice: int,
    startDate: Date,
    endDate: Date,
    customerName: string,
    customerEmail: string,
    customerPhoneNumber: string,
    isSubmitting: bool,
    isEmailSent: bool,
    clientSecret: string)

  /** The template parameters of the order e-mail; there is no phone-number field. */
  datatype EmailPayload = EmailPayload(
    customerName: string,
    price: string,
    customerEmail: string,
    startDate: string,
    endDate: string)

  /** A request to an outside service. */
  datatype Request =
    | SendEmail(serviceId: string, templateId: string, payload: EmailPayload)
    | CreatePaymentIntent(itemIds: seq<string>, amount: int)

  /** User actions and network replies, each handled to completion before the next. */
  datatype Event =
    | StartDateChanged(date: Date)
    | EndDateChanged(date: Date)
    | ConfirmPressed
    | NameTyped(name: string)
    | EmailTyped(email: string)
    | PhoneTyped(phone: string)
    | SubmitPressed
    | EmailSucceeded
    | EmailFailed
    | PaymentIntentReturned(secret: string)
  {
    predicate IsTyping() { NameTyped? || EmailTyped? || PhoneTyped? }
  }

  datatype Transition = Transition(state: OrderState, request: Option<Request>)

  /** The final state after a sequence of events, and every request issued on the way,
      in order. */
  datatype Transcript = Transcript(state: OrderState, requests: seq<Request>)

  /** What the customer sees of the order: the total-price label and, once confirmed,
      the contact panel with its alert, Submit button and checkout. */
  datatype ContactPanel = ContactPanel(
    name: string,
    email: string,
    phoneNumber: string,
    orderSentAlert: bool,
    submitDisabled: bool,
    checkout: Option<string>)

  datatype View = View(totalPriceLabel: string, contactPanel: Option<ContactPanel>)

  /** Rental price of the days from `start` to `end`; a reversed range is not clamped. */
  function RentalPrice(start: Date, end: Date): (price: int)
    ensures price % DailyRate == 0 && price / DailyRate == CalendarDaysBetween(end, start)
    ensures price > 0 <==> Precedes(start, end)
    ensures price == 0 <==> start == end
    ensures price < 0 <==> Precedes(end, start)
  {
    var days := CalendarDaysBetween(end, start);
    ScaleByRate(days);
    days * DailyRate
  }

  lemma ScaleByRate(days: int)
    ensures (days * DailyRate) % DailyRate == 0 && (days * DailyRate) / DailyRate == days
    ensures days * DailyRate > 0 <==> days > 0
    ensures days * DailyRate == 0 <==> days == 0
  {
  }

  /** A price in minor units, the amount the payment service expects. */
  function MinorUnits(price: int): (amount: int)
    ensures amount % MinorUnitsPerUnit == 0 && amount / MinorUnitsPerUnit == price
    ensures amount == 0 <==> price == 0
  {
    price * MinorUnitsPerUnit
  }

  /** The request the payment-intent effect issues when it runs for `price`. */
  function PaymentIntentFor(price: int): (r: Option<Request>)
    ensures r.None? <==> price == 0
    ensures r.Some? ==> r.value.CreatePaymentIntent? && r.value.itemIds == [PayableItemId]
    ensures r.Some? ==> r.value.amount != 0 && r.value.amount == MinorUnits(price)
  {
    if price == 0 then None
    else Some(CreatePaymentIntent([PayableItemId], MinorUnits(price)))
  }

  /** The e-mail parameters Submit sends: name and e-mail as typed, the price as its
      decimal text and the dates as `DD/MM/YYYY`. */
  function OrderPayload(s: OrderState): (p: EmailPayload)
    ensures p.customerName == s.customerName && p.customerEmail == s.customerEmail
  {
    EmailPayload(s.customerName, IntToString(s.totalPrice), s.customerEmail,
                 FormatDate(s.startDate), FormatDate(s.endDate))
  }

  /** Every text field of the order e-mail reads back as the state it came from: the
      price as `totalPrice`, the two dates as the rental dates. */
  lemma OrderPayloadReadsBack(s: OrderState)
    ensures ParseInt(OrderPayload(s).price) == Some(s.totalPrice)
    ensures ParseDate(OrderPayload(s).startDate) == Some(s.startDate)
    ensures ParseDate(OrderPayload(s).endDate) == Some(s.endDate)
  {
    IntToStringRoundTrip(s.totalPrice);
    FormatDateRoundTrip(s.startDate);
    FormatDateRoundTrip(s.endDate);
  }

  /** The phone number is collected but never sent: the payload does not depend on it. */
  lemma PayloadIgnoresPhone(s: OrderState, phone: string)
    ensures OrderPayload(s.(customerPhoneNumber := phone)) == OrderPayload(s)
  {
  }

  /** The order part of the page for state `s`. */
  function Render(s: OrderState): (v: View)
    ensures v.contactPanel.Some? <==> s.flag
    ensures v.contactPanel.Some? ==>
      var panel := v.contactPanel.value;
      (panel.submitDisabled <==> s.isSubmitting) &&
      (panel.orderSentAlert <==> s.isEmailSent) &&
      (panel.checkout.Some? <==> s.clientSecret != "") &&
      (panel.checkout.Some? ==> panel.checkout.value == s.clientSecret) &&
      panel.name == s.customerName && panel.email == s.customerEmail &&
      panel.phoneNumber == s.customerPhoneNumber
  {
    View("$" + IntToString(s.totalPrice),
         if s.flag then
           Some(ContactPanel(s.customerName, s.customerEmail, s.customerPhoneNumber,
                             s.isEmailSent, s.isSubmitting,
                             if s.clientSecret != "" then Some(s.clientSecret) else None))
         else None)
  }

  /** The total-price label is a dollar sign followed by text that reads back as the
      price. */
  lemma PriceLabelReadsBack(s: OrderState)
    ensures |Render(s).totalPriceLabel| >= 2 && Render(s).totalPriceLabel[0] == '$'
    ensures ParseInt(Render(s).totalPriceLabel[1..]) == Some(s.totalPrice)
  {
    IntToStringRoundTrip(s.totalPrice);
    var text := IntToString(s.totalPrice);
    assert ("$" + text)[1..] == text;
  }

  /** The state when the page mounts, with both dates on `today`. Nothing is shown
      beyond the price and the mount-time run of the payment-intent effect asks for
      nothing. */
  function Initial(today: Date): (s: OrderState)
    ensures s.startDate == today && s.endDate == today
    ensures s.totalPrice == RentalPrice(s.startDate, s.endDate)
    ensures s.customerName == "" && s.customerEmail == "" && s.customerPhoneNumber == ""
    ensures PaymentIntentFor(s.totalPrice).None?
    ensures Render(s).contactPanel.None?
    ensures s.clientSecret == "" && !s.isSubmitting && !s.isEmailSent
  {
    OrderState(false, 0, today, today, "", "", "", false, false, "")
  }

  /** One event. Changing the end date recomputes the price, and the payment-intent
      effect then runs if, and only if, the price changed. */
  function Step(s: OrderState, e: Event): (t: Transition)
    ensures t.state.isEmailSent <==> s.isEmailSent || e == EmailSucceeded
    ensures !e.IsTyping() ==>
      t.state.customerName == s.customerName && t.state.customerEmail == s.customerEmail &&
      t.state.customerPhoneNumber == s.customerPhoneNumber
    ensures t.state.totalPrice != s.totalPrice ==> e.EndDateChanged? && t.request == PaymentIntentFor(t.state.totalPrice)
    ensures e.EndDateChanged? ==> t.state.totalPrice == RentalPrice(s.startDate, e.date)
    ensures t.request.Some? && t.request.value.CreatePaymentIntent? ==>
      t.state.totalPrice != s.totalPrice && t.request == PaymentIntentFor(t.state.totalPrice)
    ensures t.request.Some? && t.request.value.SendEmail? ==>
      e == SubmitPressed && t.request.value.payload == OrderPayload(s)
    ensures t.state.clientSecret != s.clientSecret ==> e == PaymentIntentReturned(t.state.clientSecret)
  {
    match e
    case StartDateChanged(d) => Transition(s.(startDate := d), None)
    case EndDateChanged(d) =>
      var price := RentalPrice(s.startDate, d);
      Transition(s.(endDate := d, totalPrice := price),
                 if price != s.totalPrice then PaymentIntentFor(price) else None)
    case ConfirmPressed => Transition(s.(flag := !s.flag), None)
    case NameTyped(name) => Transition(s.(customerName := name), None)
    case EmailTyped(email) => Transition(s.(customerEmail := email), None)
    case PhoneTyped(phone) => Transition(s.(customerPhoneNumber := phone), None)
    case SubmitPressed =>
      Transition(s.(isSubmitting := true),
                 Some(SendEmail(EmailServiceId, EmailTemplateId, OrderPayload(s))))
    case EmailSucceeded => Transition(s.(isSubmitting := false, isEmailSent := true), None)
    case EmailFailed => Transition(s.(isSubmitting := false), None)
    case PaymentIntentReturned(secret) => Transition(s.(clientSecret := secret), None)
  }

  function Emitted(r: Option<Request>): seq<Request>
  {
    if r.Some? then [r.value] else []
  }

  /** Events applied in order from `s`. */
  function Run(s: OrderState, es: seq<Event>): (t: Transcript)
    ensures |t.requests| <= |es|
  {
    if es == [] then Transcript(s, [])
    else
      var before := Run(s, es[..|es| - 1]);
      var step := Step(before.state, es[|es| - 1]);
      Transcript(step.state, before.requests + Emitted(step.request))
  }

  /** The amount of the most recent payment-intent request, if any. */
  function LastIntentAmount(rs: seq<Request>): Option<int>
  {
    if rs == [] then None
    else if rs[|rs| - 1].CreatePaymentIntent? then Some(rs[|rs| - 1].amount)
    else LastIntentAmount(rs[..|rs| - 1])
  }

  /** A well-formed payment-intent request: the fixed item, a non-zero amount worth a
      whole number of rental days. */
  predicate WellFormedIntent(r: Request)
  {
    r.CreatePaymentIntent? ==>
      r.itemIds == [PayableItemId] && r.amount != 0 &&
      r.amount % (DailyRate * MinorUnitsPerUnit) == 0
  }

  // ---------------------------------------------------------------------------
  // Single events

  lemma RunOne(s: OrderState, e: Event)
    ensures Run(s, [e]) == Transcript(Step(s, e).state, Emitted(Step(s, e).request))
  {
    assert [e][..0] == [];
  }

  lemma RunTwo(s: OrderState, e1: Event, e2: Event)
    ensures
      var t1 := Step(s, e1);
      var t2 := Step(t1.state, e2);
      Run(s, [e1, e2]) == Transcript(t2.state, Emitted(t1.request) + Emitted(t2.request))
  {
    RunOne(s, e1);
    assert [e1, e2][..1] == [e1];
  }

  /** Pressing Confirm twice gives back the same state and view, contact details
      included, and sends nothing. */
  lemma ConfirmTwiceRestores(s: OrderState)
    ensures Run(s, [ConfirmPressed, ConfirmPressed]) == Transcript(s, [])
    ensures Render(Run(s, [ConfirmPressed]).state).contactPanel.Some? <==> !s.flag
  {
    RunTwo(s, ConfirmPressed, ConfirmPressed);
    RunOne(s, ConfirmPressed);
  }

  /** Submit sends the order e-mail, marks the order as being submitted (nothing
      else changes) and disables the Submit button. */
  lemma SubmitSendsOrder(s: OrderState)
    ensures Step(s, SubmitPressed).state == s.(isSubmitting := true)
    ensures Step(s, SubmitPressed).request ==
      Some(SendEmail(EmailServiceId, EmailTemplateId, OrderPayload(s)))
    ensures s.flag ==>
      var panel := Render(Step(s, SubmitPressed).state).contactPanel;
      panel.Some? && panel.value.submitDisabled
  {
  }

  /** A successful reply re-enables Submit, records the order as sent and shows the
      alert; nothing else changes. */
  lemma SubmitThenSuccess(s: OrderState)
    ensures
      var done := Step(Step(s, SubmitPressed).state, EmailSucceeded).state;
      done == s.(isSubmitting := false, isEmailSent := true) &&
      (s.flag ==>
        var panel := Render(done).contactPanel;
        panel.Some? && !panel.value.submitDisabled && panel.value.orderSentAlert)
  {
  }

  /** A failed send re-enables Submit and leaves the sent flag as it was, so the
      customer can submit again. */
  lemma SubmitThenFailure(s: OrderState)
    ensures
      var done := Step(Step(s, SubmitPressed).state, EmailFailed).state;
      done == s.(isSubmitting := false) &&
      (s.flag ==>
        var panel := Render(done).contactPanel;
        panel.Some? && !panel.value.submitDisabled)
  {
  }

  // ---------------------------------------------------------------------------
  // Sequences of events

  lemma RunSnoc(s: OrderState, es: seq<Event>, e: Event)
    ensures Run(s, es + [e]).state == Step(Run(s, es).state, e).state
    ensures Run(s, es + [e]).requests == Run(s, es).requests + Emitted(Step(Run(s, es).state, e).request)
  {
    assert (es + [e])[..|es|] == es;
  }

  /** The order counts as sent exactly when it was sent before or a send succeeded
      since: no event ever clears it. */
  lemma {:induction false} EmailSentIsPermanent(s: OrderState, es: seq<Event>)
    ensures Run(s, es).state.isEmailSent <==> s.isEmailSent || EmailSucceeded in es
  {
    if es != [] {
      var p := es[..|es| - 1];
      EmailSentIsPermanent(s, p);
      assert es == p + [es[|es| - 1]];
    }
  }

  /** Only typing changes the name, e-mail and phone fields; in particular the
      Confirm toggle never touches them. */
  lemma {:induction false} ContactDetailsOnlyChangeByTyping(s: OrderState, es: seq<Event>)
    requires forall i :: 0 <= i < |es| ==> !es[i].IsTyping()
    ensures Run(s, es).state.customerName == s.customerName
    ensures Run(s, es).state.customerEmail == s.customerEmail
    ensures Run(s, es).state.customerPhoneNumber == s.customerPhoneNumber
  {
    if es != [] {
      ContactDetailsOnlyChangeByTyping(s, es[..|es| - 1]);
    }
  }

  /** Every payment-intent request is for the fixed item and a non-zero amount worth a
      whole number of rental days. */
  lemma {:induction false} IntentsAreWellFormed(s: OrderState, es: seq<Event>)
    ensures forall r :: r in Run(s, es).requests ==> WellFormedIntent(r)
  {
    if es != [] {
      var p, e := es[..|es| - 1], es[|es| - 1];
      assert es == p + [e];
      IntentsAreWellFormed(s, p);
      RunSnoc(s, p, e);
      StepIntentWellFormed(Run(s, p).state, e);
    }
  }

  lemma StepIntentWellFormed(s: OrderState, e: Event)
    ensures forall r :: r in Emitted(Step(s, e).request) ==> WellFormedIntent(r)
  {
    var t := Step(s, e);
    if t.request.Some? && t.request.value.CreatePaymentIntent? {
      assert e.EndDateChanged?;
      var days := CalendarDaysBetween(e.date, s.startDate);
      var price := RentalPrice(s.startDate, e.date);
      assert price == days * DailyRate;
      assert t.request == PaymentIntentFor(price);
      assert t.request.value.amount == MinorUnits(price) == price * MinorUnitsPerUnit;
      WholeDaysInMinorUnits(days, t.request.value.amount);
    }
  }

  lemma WholeDaysInMinorUnits(days: int, amount: int)
    requires amount == days * DailyRate * MinorUnitsPerUnit
    ensures amount % (DailyRate * MinorUnitsPerUnit) == 0
  {
  }

  lemma LastIntentAmountSnoc(rs: seq<Request>, extra: seq<Request>)
    requires |extra| <= 1
    ensures LastIntentAmount(rs + extra) ==
      if extra != [] && extra[0].CreatePaymentIntent? then Some(extra[0].amount)
      else LastIntentAmount(rs)
  {
    if extra == [] {
      assert rs + extra == rs;
    } else {
      assert (rs + extra)[..|rs|] == rs;
    }
  }

  /** From a zero price (as at mount), whenever the price is non-zero the most recent
      payment-intent request asked for exactly that price in minor units. */
  lemma {:induction false} LatestIntentMatchesPrice(s: OrderState, es: seq<Event>)
    requires s.totalPrice == 0
    ensures Run(s, es).state.totalPrice != 0 ==>
      LastIntentAmount(Run(s, es).requests) == Some(MinorUnits(Run(s, es).state.totalPrice))
  {
    if es != [] {
      var p, e := es[..|es| - 1], es[|es| - 1];
      assert es == p + [e];
      LatestIntentMatchesPrice(s, p);
      RunSnoc(s, p, e);
      var step := Step(Run(s, p).state, e);
      LastIntentAmountSnoc(Run(s, p).requests, Emitted(step.request));
    }
  }

  /** Starting with no client secret, a non-empty secret is always one the payment
      service returned. */
  lemma {:induction false} SecretComesFromReply(s: OrderState, es: seq<Event>)
    requires s.clientSecret == ""
    ensures Run(s, es).state.clientSecret != "" ==>
      PaymentIntentReturned(Run(s, es).state.clientSecret) in es
  {
    if es != [] {
      var p := es[..|es| - 1];
      SecretComesFromReply(s, p);
      assert es == p + [es[|es| - 1]];
    }
  }

  /** Everything above holds from the mounted page. */
  lemma FromMount(today: Date, es: seq<Event>)
    ensures Run(Initial(today), es).state.totalPrice != 0 ==>
      LastIntentAmount(Run(Initial(today), es).requests) ==
        Some(MinorUnits(Run(Initial(today), es).state.totalPrice))
    ensures Run(Initial(today), es).state.clientSecret != "" ==>
      PaymentIntentReturned(Run(Initial(today), es).state.clientSecret) in es
    ensures Run(Initial(today), es).state.isEmailSent <==> EmailSucceeded in es
  {
    LatestIntentMatchesPrice(Initial(today), es);
    SecretComesFromReply(Initial(today), es);
    EmailSentIsPermanent(Initial(today), es);
  }

  // ---------------------------------------------------------------------------
  // Worked scenarios

  /** 1 to 5 January 2024 is four days: a price of 400 and a payment intent of 40000. */
  lemma FourDayRental()
    ensures
      var t := Run(Initial(CivilDate(2024, 1, 1)), [EndDateChanged(CivilDate(2024, 1, 5))]);
      t.state.totalPrice == 400 &&
      t.requests == [CreatePaymentIntent([PayableItemId], 40000)]
  {
  }

  /** A reversed range is priced negatively, and the effect still asks for a
      (negative) payment intent. */
  lemma ReversedRental()
    ensures
      var t := Run(Initial(CivilDate(2024, 1, 5)), [EndDateChanged(CivilDate(2024, 1, 1))]);
      t.state.totalPrice == -400 &&
      t.requests == [CreatePaymentIntent([PayableItemId], -40000)]
  {
  }

  /** Moving the start date does not reprice: the shown price stays that of the old
      range until the end date is set again. */
  lemma StartChangeLeavesPriceStale()
    ensures
      var t := Run(Initial(CivilDate(2024, 1, 1)),
                   [EndDateChanged(CivilDate(2024, 1, 5)), StartDateChanged(CivilDate(2024, 1, 3))]);
      t.state.totalPrice == 400 && RentalPrice(t.state.startDate, t.state.endDate) == 200 &&
      |t.requests| == 1
  {
    var es := [EndDateChanged(CivilDate(2024, 1, 5)), StartDateChanged(CivilDate(2024, 1, 3))];
    assert es[..1] == [EndDateChanged(CivilDate(2024, 1, 5))];
  }
}
