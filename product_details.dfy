/** The product page's rental-order component: its ten state fields, updated in place
    by one handler per page event. Each handler is proved to do exactly what
    `RentalOrder.Step` says, so the lemmas of module RentalOrder apply to it. */
module ProductDetailsComponent {
  import opened Wrappers
  import opened Calendar
  import opened RentalOrder

  class ProductDetails {
    var flag: bool
    var totalPrice: int
    var startDate: Date
    var endDate: Date
    var customerName: string
    var customerEmail: string
    var customerPhoneNumber: string
    var isSubmitting: bool
    var isEmailSent: bool
    var clientSecret: string

    /** E-mail sends and payment-intent requests issued and not yet answered: a reply
        event answers one of them. */
    ghost var pendingSends: nat
    ghost var pendingIntents: nat

    /** The current state as a value. */
    function Snapshot(): OrderState
      reads this
    {
      OrderState(flag, totalPrice, startDate, endDate, customerName, customerEmail,
                 customerPhoneNumber, isSubmitting, isEmailSent, clientSecret)
    }

    /** The price is always a whole number of rental days, and Submit is only
        disabled while a send is awaiting its reply. */
    ghost predicate Valid()
      reads this
    {
      totalPrice % DailyRate == 0 && (isSubmitting ==> pendingSends > 0)
    }

    /** Mounting the page on `today`. */
    constructor (today: Date)
      ensures Valid() && Snapshot() == Initial(today)
      ensures pendingSends == 0 && pendingIntents == 0
    {
      flag := false;
      totalPrice := 0;
      startDate, endDate := today, today;
      customerName, customerEmail, customerPhoneNumber := "", "", "";
      isSubmitting, isEmailSent := false, false;
      clientSecret := "";
      pendingSends, pendingIntents := 0, 0;
    }

    /** The start-date picker: only the start date changes; the price is not
        recomputed. */
    method SetStartDate(date: Date)
      requires Valid()
      modifies this
      ensures Valid()
      ensures Snapshot() == old(Snapshot()).(startDate := date)
      ensures pendingSends == old(pendingSends) && pendingIntents == old(pendingIntents)
      ensures Step(old(Snapshot()), StartDateChanged(date)) == Transition(Snapshot(), None)
    {
      startDate := date;
    }

    /** The end-date picker: stores the end date and reprices the rental from the
        current start date; the payment-intent effect then runs if the price changed,
        asking for a payment intent unless the new price is zero. */
    method HandleEndDateChange(date: Date) returns (request: Option<Request>)
      requires Valid()
      modifies this
      ensures Valid()
      ensures endDate == date && totalPrice == RentalPrice(old(startDate), date)
      ensures Snapshot() == old(Snapshot()).(endDate := date, totalPrice := totalPrice)
      ensures request == if totalPrice != old(totalPrice) then PaymentIntentFor(totalPrice) else None
      ensures pendingSends == old(pendingSends)
      ensures pendingIntents == old(pendingIntents) + |Emitted(request)|
      ensures Step(old(Snapshot()), EndDateChanged(date)) == Transition(Snapshot(), request)
    {
      endDate := date;
      var price := RentalPrice(startDate, date);
      var changed := price != totalPrice;
      totalPrice := price;
      if changed {
        request := PaymentIntentFor(totalPrice);
      } else {
        request := None;
      }
      pendingIntents := pendingIntents + |Emitted(request)|;
    }

    /** The Confirm button shows or hides the contact panel. */
    method ToggleConfirm()
      requires Valid()
      modifies this
      ensures Valid()
      ensures flag == !old(flag)
      ensures Snapshot() == old(Snapshot()).(flag := flag)
      ensures pendingSends == old(pendingSends) && pendingIntents == old(pendingIntents)
      ensures Step(old(Snapshot()), ConfirmPressed) == Transition(Snapshot(), None)
    {
      flag := !flag;
    }

    method SetCustomerName(name: string)
      requires Valid()
      modifies this
      ensures Valid()
      ensures Snapshot() == old(Snapshot()).(customerName := name)
      ensures pendingSends == old(pendingSends) && pendingIntents == old(pendingIntents)
      ensures Step(old(Snapshot()), NameTyped(name)) == Transition(Snapshot(), None)
    {
      customerName := name;
    }

    method SetCustomerEmail(email: string)
      requires Valid()
      modifies this
      ensures Valid()
      ensures Snapshot() == old(Snapshot()).(customerEmail := email)
      ensures pendingSends == old(pendingSends) && pendingIntents == old(pendingIntents)
      ensures Step(old(Snapshot()), EmailTyped(email)) == Transition(Snapshot(), None)
    {
      customerEmail := email;
    }

    method SetCustomerPhoneNumber(phone: string)
      requires Valid()
      modifies this
      ensures Valid()
      ensures Snapshot() == old(Snapshot()).(customerPhoneNumber := phone)
      ensures pendingSends == old(pendingSends) && pendingIntents == old(pendingIntents)
      ensures Step(old(Snapshot()), PhoneTyped(phone)) == Transition(Snapshot(), None)
    {
      customerPhoneNumber := phone;
    }

    /** Submit: marks the order as being submitted and sends the order e-mail built
        from the state at the time of the press. Nothing here refuses a second press
        while a send is pending. */
    method SubmitHandler() returns (request: Request)
      requires Valid()
      modifies this
      ensures Valid()
      ensures isSubmitting
      ensures Snapshot() == old(Snapshot()).(isSubmitting := true)
      ensures request == SendEmail(EmailServiceId, EmailTemplateId, OrderPayload(old(Snapshot())))
      ensures pendingSends == old(pendingSends) + 1 && pendingIntents == old(pendingIntents)
      ensures Step(old(Snapshot()), SubmitPressed) == Transition(Snapshot(), Some(request))
    {
      SubmitSendsOrder(Snapshot());
      request := SendEmail(EmailServiceId, EmailTemplateId, OrderPayload(Snapshot()));
      isSubmitting := true;
      pendingSends := pendingSends + 1;
    }

    /** The e-mail service accepted a pending send. A reply may arrive while the page
        shows that it is submitting: the invariant then guarantees a send is pending. */
    method EmailSent()
      requires Valid() && (isSubmitting || pendingSends > 0)
      modifies this
      ensures Valid()
      ensures !isSubmitting && isEmailSent
      ensures Snapshot() == old(Snapshot()).(isSubmitting := false, isEmailSent := true)
      ensures pendingSends == old(pendingSends) - 1 && pendingIntents == old(pendingIntents)
      ensures Step(old(Snapshot()), EmailSucceeded) == Transition(Snapshot(), None)
    {
      isSubmitting := false;
      isEmailSent := true;
      pendingSends := pendingSends - 1;
    }

    /** The e-mail service rejected a pending send: Submit is enabled again and the
        sent flag keeps its value. */
    method EmailNotSent()
      requires Valid() && (isSubmitting || pendingSends > 0)
      modifies this
      ensures Valid()
      ensures !isSubmitting && isEmailSent == old(isEmailSent)
      ensures Snapshot() == old(Snapshot()).(isSubmitting := false)
      ensures pendingSends == old(pendingSends) - 1 && pendingIntents == old(pendingIntents)
      ensures Step(old(Snapshot()), EmailFailed) == Transition(Snapshot(), None)
    {
      isSubmitting := false;
      pendingSends := pendingSends - 1;
    }

    /** A payment-intent reply: its secret replaces the stored one, whichever request
        it answers. */
    method ReceiveClientSecret(secret: string)
      requires Valid() && pendingIntents > 0
      modifies this
      ensures Valid()
      ensures Snapshot() == old(Snapshot()).(clientSecret := secret)
      ensures pendingSends == old(pendingSends) && pendingIntents == old(pendingIntents) - 1
      ensures Step(old(Snapshot()), PaymentIntentReturned(secret)) == Transition(Snapshot(), None)
    {
      clientSecret := secret;
      pendingIntents := pendingIntents - 1;
    }
  }
}
