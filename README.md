# Rental order flow of the product page

A Dafny model of the rental-order state kept by the `ProductDetails` page component of a
Next.js storefront (`src/components/features/product/ProductDetails.tsx`). The shopper picks a
start and an end date. The component prices the rental at 100 per calendar day. A price change
asks the payment service for a payment intent in minor units. "Confirm" shows or hides the
contact panel. "Submit" e-mails the order. The replies of the two services update the state.

The model has six modules:

- `Wrappers` (`wrappers.dfy`): the `Option` type for results that may be absent.
- `Calendar` (`calendar.dfy`): Gregorian dates and their day ordinals (`DayNumber`). The
  calendar-day difference that `differenceInCalendarDays` computes is the difference of two
  ordinals. It is proved to order dates exactly as the calendar does and to go up by one
  from each day to the next.
- `Decimal` (`decimal.dfy`): the integer-to-text conversion that `totalPrice.toString()` and the
  price label perform, with a reader that inverts it.
- `DateFormat` (`date_format.dfy`): the `DD/MM/YYYY` text of a date, with a reader that inverts it.
- `RentalOrder` (`rental_order.dfy`): the component's ten state fields as a value (`OrderState`),
  the page events (date changes, Confirm, typing, Submit, and the replies of the e-mail and
  payment services) and `Step`, which applies one event. `Step` returns the request the event
  sends out, if any. `Run` applies a sequence of events, and the lemmas about event sequences
  are stated on it.
- `ProductDetailsComponent` (`product_details.dfy`): the class `ProductDetails` with the ten
  fields, updated in place by one method per handler. Each method states its new state
  field by field. It also states that it does what `Step` does for its event, so every lemma
  of `RentalOrder` holds of the class. Two ghost counters record the e-mail sends and
  payment-intent requests still waiting for a reply. A reply event needs one of them to be
  pending; for an e-mail reply it is enough that the page shows it is submitting, since the
  class invariant `Valid()` guarantees a pending send then.

Dates are valid calendar dates with years 1 to 9999. Replies from the network are events.
The payment-intent effect (`useEffect` on `[totalPrice]`) runs after `HandleEndDateChange`,
and only when the price has really changed. React re-runs an effect only when a dependency
changes. At mount, the effect runs with a price of 0 and sends nothing.

The model follows the code, including behaviour a reader might not expect:

- A failed send leaves `isEmailSent` as it was. It is not set to false, so after an earlier
  success it stays true.
- Nothing blocks a Submit with an empty name or e-mail. Nothing blocks a second Submit while a
  send is pending; only the disabled button prevents it.
- A reversed date range gives a negative price. The effect then asks for a payment intent with
  a negative amount (`ReversedRental`).
- A payment intent is requested whenever the price changes to any non-zero value, not only
  when it leaves 0.
- The Submit button, the order-sent alert and the checkout all sit inside the contact panel.
  So all of them are shown only while `flag` is true.

## Model

| member | source | states |
|---|---|---|
| Calendar.CalendarDaysBetween | src/components/features/product/ProductDetails.tsx:60-63 | days from start to the new end date: positive iff the start is the earlier date, zero iff the dates are equal, negative iff the end is earlier |
| Calendar.DayNumberOrder | src/components/features/product/ProductDetails.tsx:60-63 | day ordinals order dates as the calendar does and are equal only for equal dates |
| Calendar.NextDay | src/components/features/product/ProductDetails.tsx:60-63 | the next calendar day (rolling over month and year ends) is a later date |
| Calendar.NextDayIsSuccessor | src/components/features/product/ProductDetails.tsx:60-63 | no date lies strictly between a date and its next day |
| Calendar.NextDayIsOneLater | src/components/features/product/ProductDetails.tsx:60-63 | the day ordinal of the next day is exactly one more, so ordinal differences count calendar days |
| Decimal.IntToString | src/components/features/product/ProductDetails.tsx:76 | the price's text starts with `-` exactly when the price is negative, and the digits after it denote its magnitude in shortest form: a leading `0` only in the text `0` itself |
| Decimal.IntToStringRoundTrip | src/components/features/product/ProductDetails.tsx:76 | the decimal text of the price reads back as the same integer, sign included |
| DateFormat.FormatDate | src/components/features/product/ProductDetails.tsx:78-79 | a date prints as ten characters with `/` at positions 2 and 5 |
| DateFormat.FormatDateRoundTrip | src/components/features/product/ProductDetails.tsx:78-79 | the `DD/MM/YYYY` text of a date reads back as the same day, month and year |
| RentalOrder.RentalPrice | src/components/features/product/ProductDetails.tsx:60-66 | the price is a whole multiple of the daily rate 100 and divided by it gives the calendar days; it is positive, zero or negative exactly when the range is forward, empty or reversed (no clamping) |
| RentalOrder.MinorUnits | src/components/features/product/ProductDetails.tsx:110 | the payment amount is a multiple of 100 that divides back to the price, and is zero only for a zero price |
| RentalOrder.PaymentIntentFor | src/components/features/product/ProductDetails.tsx:102-110 | the effect sends nothing iff the price is 0; otherwise one request for item `xl-tshirt` with a non-zero amount equal to 100 times the price |
| RentalOrder.OrderPayload | src/components/features/product/ProductDetails.tsx:74-80 | name and e-mail are copied as typed; for the price and date texts see OrderPayloadReadsBack, for the missing phone number PayloadIgnoresPhone |
| RentalOrder.OrderPayloadReadsBack | src/components/features/product/ProductDetails.tsx:74-80 | the e-mail's price text reads back as `totalPrice` and its two date texts read back as the start and end dates |
| RentalOrder.PayloadIgnoresPhone | src/components/features/product/ProductDetails.tsx:74-80 | the phone number never reaches the e-mail payload |
| RentalOrder.PriceLabelReadsBack | src/components/features/product/ProductDetails.tsx:175 | the total-price label is `$` followed by text that reads back as `totalPrice` |
| RentalOrder.Render | src/components/features/product/ProductDetails.tsx:182-218 | the contact panel is shown iff `flag`; inside it Submit is disabled iff submitting, the sent alert shows iff `isEmailSent`, and checkout is offered iff the client secret is non-empty |
| RentalOrder.Initial | src/components/features/product/ProductDetails.tsx:45-54 | at mount both dates are today, the price 0 agrees with them and name, e-mail and phone are empty; the mount-time effect sends nothing; no panel, secret, submission or sent flag |
| RentalOrder.Step | src/components/features/product/ProductDetails.tsx:56-113 | no event clears `isEmailSent`, and only a successful send sets it; only typing changes contact details; only an end-date change changes the price, and it reprices from the start date; a price change issues exactly the effect's request; only Submit sends e-mail, carrying the payload of the state it was pressed in; only a reply changes the client secret |
| RentalOrder.ConfirmTwiceRestores | src/components/features/product/ProductDetails.tsx:177 | pressing Confirm twice restores the whole state, contact details included, and sends nothing; one press flips whether the panel shows |
| RentalOrder.SubmitSendsOrder | src/components/features/product/ProductDetails.tsx:71-81 | Submit sends the order e-mail of the current state to the fixed service and template, sets `isSubmitting` and changes nothing else, and disables Submit |
| RentalOrder.SubmitThenSuccess | src/components/features/product/ProductDetails.tsx:82-86 | after Submit, a successful reply clears `isSubmitting`, sets `isEmailSent`, changes nothing else, re-enables Submit and shows the sent alert |
| RentalOrder.SubmitThenFailure | src/components/features/product/ProductDetails.tsx:87-90 | after Submit, a failed reply only clears `isSubmitting`, so `isEmailSent` is kept and Submit is enabled again for a retry |
| RentalOrder.EmailSentIsPermanent | src/components/features/product/ProductDetails.tsx:82-90 | after any event sequence, the order counts as sent iff it was sent before or the sequence holds a successful send |
| RentalOrder.ContactDetailsOnlyChangeByTyping | src/components/features/product/ProductDetails.tsx:186-194 | a sequence without typing leaves name, e-mail and phone unchanged |
| RentalOrder.IntentsAreWellFormed | src/components/features/product/ProductDetails.tsx:102-114 | every payment-intent request ever sent is for item `xl-tshirt` and a non-zero amount worth a whole number of rental days |
| RentalOrder.LatestIntentMatchesPrice | src/components/features/product/ProductDetails.tsx:102-114 | starting from price 0, whenever the price is non-zero the latest payment-intent request was for that price in minor units |
| RentalOrder.SecretComesFromReply | src/components/features/product/ProductDetails.tsx:113 | starting with no secret, a non-empty client secret is always one a payment-intent reply delivered |
| RentalOrder.FromMount | src/components/features/product/ProductDetails.tsx:45-54 | from the mounted page: the latest intent matches a non-zero price, a secret comes from a reply, and the order is sent iff a send succeeded |
| RentalOrder.FourDayRental | src/components/features/product/ProductDetails.tsx:56-67 | 1 to 5 January 2024 prices at 400 and asks for a payment intent of 40000 |
| RentalOrder.ReversedRental | src/components/features/product/ProductDetails.tsx:56-67 | 5 back to 1 January 2024 prices at -400 and still asks for a payment intent of -40000 |
| RentalOrder.StartChangeLeavesPriceStale | src/components/features/product/ProductDetails.tsx:168 | moving the start date keeps the old price (400) although the new range is worth 200, and sends nothing |
| ProductDetailsComponent.ProductDetails.constructor | src/components/features/product/ProductDetails.tsx:45-54 | the mounted component holds the initial state, with nothing pending |
| ProductDetailsComponent.ProductDetails.SetStartDate | src/components/features/product/ProductDetails.tsx:168 | only `startDate` changes |
| ProductDetailsComponent.ProductDetails.HandleEndDateChange | src/components/features/product/ProductDetails.tsx:56-114 | stores the end date, sets the price from the current start date and changes nothing else; returns the effect's request when the price changed, otherwise nothing |
| ProductDetailsComponent.ProductDetails.ToggleConfirm | src/components/features/product/ProductDetails.tsx:177 | only `flag` changes, to its negation |
| ProductDetailsComponent.ProductDetails.SetCustomerName | src/components/features/product/ProductDetails.tsx:186 | only `customerName` changes |
| ProductDetailsComponent.ProductDetails.SetCustomerEmail | src/components/features/product/ProductDetails.tsx:190 | only `customerEmail` changes |
| ProductDetailsComponent.ProductDetails.SetCustomerPhoneNumber | src/components/features/product/ProductDetails.tsx:194 | only `customerPhoneNumber` changes |
| ProductDetailsComponent.ProductDetails.SubmitHandler | src/components/features/product/ProductDetails.tsx:71-81 | sets `isSubmitting` and nothing else; returns the order e-mail to the fixed service and template, built from the state before the press |
| ProductDetailsComponent.ProductDetails.EmailSent | src/components/features/product/ProductDetails.tsx:82-86 | clears `isSubmitting`, sets `isEmailSent`, nothing else changes |
| ProductDetailsComponent.ProductDetails.EmailNotSent | src/components/features/product/ProductDetails.tsx:87-90 | clears `isSubmitting` only; `isEmailSent` keeps its value |
| ProductDetailsComponent.ProductDetails.ReceiveClientSecret | src/components/features/product/ProductDetails.tsx:112-113 | the returned secret overwrites `clientSecret`; nothing else changes |

## Left out

- Rendering apart from the order panel's visibility and the price label: layout, theme, images, the CMS inspector wiring, the quantity selector, and the product's own displayed `price` with its currency formatting. They are presentation or calls into the CMS SDK.
- The Stripe library, the `Elements` wrapper and the checkout form. These are an external payment UI; the model only says when the checkout is offered and with which secret.
- `emailjs.init`, `emailjs.send` and `fetch` as transport. They are network I/O, so the requests are returned as values and the replies are events. The API key and the endpoint URL are not modelled.
- A failing or malformed payment-intent reply. The source has no error handler there. A reply without a `clientSecret` field would store `undefined`. The model's reply always carries a string.
- Out-of-order payment-intent replies. Each reply is an event that overwrites the secret, whichever request it answers.
- The clock. The two `new Date()` calls at mount are taken to fall on the same day `today`, which is a parameter.
- Clearing a date picker, which passes `null` and makes the price `NaN`. The model's dates are always valid calendar dates with years 1 to 9999.
- Time of day and time zones. `differenceInCalendarDays` and the `DD/MM/YYYY` format see only the calendar date, so that is all the model stores.
- Decimal.IntToString: JavaScript numbers are doubles. The model uses unbounded integers, so it does not cover prices beyond 2^53 or the exponent notation JavaScript prints from 10^21 on.
- `console.log` and `console.error` tracing, which is logging only.
