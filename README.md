# PagSeguro payment plugin for nopCommerce: a Dafny model

This project models the two halves of the nopCommerce PagSeguro payment plugin.

**Notification reconciler** (`PaymentPagSeguroController`). PagSeguro posts a notification
code. The handler:

- refuses an empty code;
- exchanges the code, trimmed and upper-cased, for the authoritative transaction;
- resolves the transaction's `Reference` into an order lookup (a 36-character GUID or an
  `int` id);
- applies the transaction status to the order.

The order side of a status has three parts:

- the payment status and order status it sets;
- the calls it makes on the order-processing, order and messaging services;
- the order notes it appends.

For status 3 the handler can also compose a shipment note. That note names the
manufacturer and delivery-date label of the order line with the longest delivery window.
Its deadline is that many work days after today (`GetBiggestInteger`,
`GetBiggestDeliveryDate`, `DateTimeExtensions.AddWorkDays`).

**Checkout request** (`PagSeguroPaymentProcessor`). `PostProcessPayment` fills in the
payment request: currency, shipping type and cost, one item per order line, the discount
as a negative `ExtraAmount`, the order id as reference, the shipping address and the
sender. The gateway has length and character limits, so the request goes through the
field normalisers:

- spaces, digits-only, postal code;
- street, district, number and complement;
- phone with area code;
- full name;
- item description.

`CanRePostProcessPayment` decides whether a pending order may be sent again.

## How the model is organised

- `common.dfy`: `Option`, `Result` and the .NET exceptions the code can end in.
- `text.dfy` (`Text`) covers:
  - .NET white space and `Trim`;
  - ASCII digits;
  - `int.ToString` and `int.Parse` for 32-bit values.
- `workdays.dfy` (`WorkDays`):
  - dates are day numbers, with day 0 being Monday 1 January 0001;
  - `AddWorkDays` walks over the dates and skips Saturdays, Sundays and holidays. `IsHoliday` knows no holidays.
- `domain.dfy` (`Domain`): payment status, order status, order notes, order lines.
- `delivery.dfy` (`DeliveryEstimate`): the digit-run scanner, the running maximum over
  order lines, and the facts the shipment note states.
- `resolver.dfy` (`OrderResolver`): GUID and id parsing of the transaction reference.
- `reconciler.dfy` (`Reconciler`):
  - the status switch as a specification function `Transition`, over the order's state and the log of service calls;
  - the classes `Order` and `PaymentPagSeguroController`, whose methods update the order in place and are proved against `Transition`.
- `checkout_fields.dfy` (`CheckoutFields`): the field normalisers of the processor.
- `checkout_request.dfy` (`CheckoutRequest`):
  - the request built by `PostProcessPayment`;
  - the amount rounding;
  - `CanRePostProcessPayment`.

**Modelling choices:**

- **Services.** The services the controller calls are not modelled. Each call is
  recorded, in order, in the controller's ghost `calls` log. So is each e-mail sent for a
  note.
- **Gateway, clock and date.** They are parameters:
  - `verify` stands for `CheckTransaction`;
  - `utcNow` stamps the notes;
  - `today` is the date the work days are counted from.
- **Money.** A `decimal` amount is an integer number of ten-thousandths.
  `decimal.Round(v, 2)` and `Math.Round(v, 2)` round to the nearest cent, half to even.

**Status 3 has no guard.** The design notes describe the "paid" status as authorizing only
an order that is still pending or voided. The code has no such guard: status 3 sets the
payment to Authorized whatever it was before. The model follows the code, and
`PaidReauthorizesCancelledOrder` states the consequence: a refunded, cancelled order is
authorized again.

## Model

| member | source | states |
|---|---|---|
| Reconciler.PaymentPagSeguroController.PaymentReturn | src/Nop.Plugin.Payments.PagSeguro/Controllers/PaymentPagSeguroController.cs:144-282 | A refused notification gives HTTP 500 and changes no order. So does an unknown order. Otherwise the found order ends in the state `Transition` gives for the transaction's status and payment label, and no other order changes. The call log grows by the admission calls and then the switch's calls. The answer is OK exactly when the switch completes. |
| Reconciler.AdmitOutcomes | src/Nop.Plugin.Payments.PagSeguro/Controllers/PaymentPagSeguroController.cs:151-212 | An absent or empty code is refused with no gateway call. Otherwise there is exactly one `CheckTransaction`, with the normalised code. A gateway error or a bad reference is refused after it. Admission happens only when the gateway returned a transaction whose reference resolves, followed by a single order lookup with that key. |
| Reconciler.NormaliseCode | src/Nop.Plugin.Payments.PagSeguro/Controllers/PaymentPagSeguroController.cs:176 | The trimmed, upper-cased code is no longer than the original. It is empty exactly when the original is blank. |
| Text.Trim | src/Nop.Plugin.Payments.PagSeguro/Controllers/PaymentPagSeguroController.cs:176 | The trimmed text is empty exactly when the input is blank. Otherwise it starts and ends with a non-white-space character. |
| Text.TrimIsSlice | src/Nop.Plugin.Payments.PagSeguro/Controllers/PaymentPagSeguroController.cs:176 | `Trim` returns a contiguous slice of its input. |
| Text.TrimOfTrimmed | src/Nop.Plugin.Payments.PagSeguro/Controllers/PaymentPagSeguroController.cs:176 | Text with no white space at either end is left unchanged by `Trim`. |
| Text.ParseInt32 | src/Nop.Plugin.Payments.PagSeguro/Controllers/PaymentPagSeguroController.cs:204 | A parsed value lies in the 32-bit range. A failure is a FormatException or an OverflowException. |
| Text.IntToStringParses | src/Nop.Plugin.Payments.PagSeguro/PagSeguroPaymentProcessor.cs:192 | Any 32-bit id written by `ToString()` parses back to the same id. |
| Text.IntToStringShort | src/Nop.Plugin.Payments.PagSeguro/PagSeguroPaymentProcessor.cs:192 | A 32-bit id written out has at most 11 characters, so it never takes the 36-character GUID path. |
| OrderResolver.ResolveReference | src/Nop.Plugin.Payments.PagSeguro/Controllers/PaymentPagSeguroController.cs:201-204 | A null reference is a NullReferenceException. A 36-character reference is a GUID lookup or that GUID's parse error. Any other length is an id lookup or the `int.Parse` error. |
| OrderResolver.ParseGuid | src/Nop.Plugin.Payments.PagSeguro/Controllers/PaymentPagSeguroController.cs:202 | A parsed GUID has 32 hexadecimal digits. A failure is a FormatException. |
| OrderResolver.FormatGuidParses | src/Nop.Plugin.Payments.PagSeguro/Controllers/PaymentPagSeguroController.cs:202 | Writing a GUID and parsing it back gives the same GUID. |
| OrderResolver.GuidReferenceResolvesByGuid | src/Nop.Plugin.Payments.PagSeguro/Controllers/PaymentPagSeguroController.cs:201-202 | A GUID written out as the reference resolves to a lookup of that GUID. |
| OrderResolver.CheckoutReferenceResolvesById | src/Nop.Plugin.Payments.PagSeguro/Controllers/PaymentPagSeguroController.cs:201-204 | The reference the checkout sends, the order id written out, resolves to a lookup of that id. |
| CheckoutRequest.RequestReferenceFindsOrder | src/Nop.Plugin.Payments.PagSeguro/PagSeguroPaymentProcessor.cs:192 | The request's reference for a 32-bit order id comes back in a notification as a lookup of that order's id. |
| Reconciler.FindOrder | src/Nop.Plugin.Payments.PagSeguro/Controllers/PaymentPagSeguroController.cs:202-212 | When nothing is found, no order matches the key. Otherwise the result is the first order whose GUID or id matches. |
| Reconciler.GetPaymentDescription | src/Nop.Plugin.Payments.PagSeguro/Controllers/PaymentPagSeguroController.cs:409-436 | The label is empty exactly for payment method types other than 1, 2, 3, 4, 5 and 7. |
| Reconciler.PaymentDescriptionsDistinct | src/Nop.Plugin.Payments.PagSeguro/Controllers/PaymentPagSeguroController.cs:409-436 | Different known payment method types get different labels. |
| Reconciler.PaymentPagSeguroController.AddOrderNote | src/Nop.Plugin.Payments.PagSeguro/Controllers/PaymentPagSeguroController.cs:440-457 | Exactly one note is appended, stamped with the clock reading and carrying its visibility. The order is saved, and the note is e-mailed exactly when asked. |
| Reconciler.NoteCalls | src/Nop.Plugin.Payments.PagSeguro/Controllers/PaymentPagSeguroController.cs:448-456 | A note always causes an order update. It causes a customer e-mail, carrying that note, exactly when `sendEmail` is set. |
| Reconciler.PaymentPagSeguroController.ApplyTransactionStatus | src/Nop.Plugin.Payments.PagSeguro/Controllers/PaymentPagSeguroController.cs:217-268 | The order's statuses and notes, the call log and the completion flag after the switch are those of `Transition`. |
| Reconciler.Transition | src/Nop.Plugin.Payments.PagSeguro/Controllers/PaymentPagSeguroController.cs:217-268 | The switch fails to complete only for status 3, with the shipment note enabled, when composing that note throws (service calls are taken to return normally; see Left out). An unknown status changes nothing. |
| Reconciler.AwaitingPaymentIsPending | src/Nop.Plugin.Payments.PagSeguro/Controllers/PaymentPagSeguroController.cs:228-237 | Statuses 1 and 2 set the payment to Pending and keep the order status. They append the status note and the payment-method note, both visible and neither e-mailed. |
| Reconciler.PaidIsAuthorized | src/Nop.Plugin.Payments.PagSeguro/Controllers/PaymentPagSeguroController.cs:238-246 | Status 3:<br>• sets Authorized through the order-processing service;<br>• adds the approval note, the payment-method note and a hidden print reminder;<br>• when configured, adds the shipment note, visible and e-mailed, or ends incomplete if the note cannot be composed. |
| Reconciler.PaidReauthorizesCancelledOrder | src/Nop.Plugin.Payments.PagSeguro/Controllers/PaymentPagSeguroController.cs:238-240 | With no guard on status 3, a refunded, cancelled order becomes Authorized and stays Cancelled. |
| Reconciler.AvailableMarksPaid | src/Nop.Plugin.Payments.PagSeguro/Controllers/PaymentPagSeguroController.cs:247-250 | Status 4 changes no status itself. It asks the service to mark the order paid and adds one hidden note. |
| Reconciler.DisputeVoidsPayment | src/Nop.Plugin.Payments.PagSeguro/Controllers/PaymentPagSeguroController.cs:251-255 | Status 5 voids the payment, keeps the order status, and adds a visible, e-mailed note. |
| Reconciler.ReturnedRefundsAndCancels | src/Nop.Plugin.Payments.PagSeguro/Controllers/PaymentPagSeguroController.cs:256-261 | Status 6 marks the payment Refunded and the order Cancelled, with the cancellation notifying the customer. It adds a visible, e-mailed note. |
| Reconciler.CancelledVoidsAndCancels | src/Nop.Plugin.Payments.PagSeguro/Controllers/PaymentPagSeguroController.cs:262-267 | Status 7 voids the payment and cancels the order. Its visible note is not e-mailed. |
| Reconciler.TransitionCases | src/Nop.Plugin.Payments.PagSeguro/Controllers/PaymentPagSeguroController.cs:217-268 | For every known status, the call log only grows, the existing notes are kept as a prefix, and at least one note is added. The exact calls and notes per status are stated by the per-status lemmas above. |
| Reconciler.RedeliverySameStatusMoreNotes | src/Nop.Plugin.Payments.PagSeguro/Controllers/PaymentPagSeguroController.cs:217-268 | Delivering the same notification twice leaves the statuses as one delivery does. The notes are added a second time. |
| Reconciler.NotesAppendedAndStamped | src/Nop.Plugin.Payments.PagSeguro/Controllers/PaymentPagSeguroController.cs:217-268 | Existing notes are kept as a prefix. Every added note carries the request's clock reading. The log only grows. Only statuses 6 and 7 change the order status. |
| Reconciler.EmailedNotesAreAddedAndVisible | src/Nop.Plugin.Payments.PagSeguro/Controllers/PaymentPagSeguroController.cs:217-268 | Every e-mail sent carries a note just added to the order and shown to the customer. |
| DeliveryEstimate.RunStart | src/Nop.Plugin.Payments.PagSeguro/Controllers/PaymentPagSeguroController.cs:368-404 | The returned start leaves a run of digits up to the position, and that run cannot be extended to the left. |
| DeliveryEstimate.MaxOrZero | src/Nop.Plugin.Payments.PagSeguro/Controllers/PaymentPagSeguroController.cs:395-403 | The result is at least every collected value, and is one of them unless it is 0. |
| DeliveryEstimate.BiggestInteger | src/Nop.Plugin.Payments.PagSeguro/Controllers/PaymentPagSeguroController.cs:368-404 | The result is null exactly for blank text. |
| DeliveryEstimate.GetBiggestInteger | src/Nop.Plugin.Payments.PagSeguro/Controllers/PaymentPagSeguroController.cs:368-404 | The two loops compute `BiggestInteger`. |
| DeliveryEstimate.ClosedRunsAreClosedRuns | src/Nop.Plugin.Payments.PagSeguro/Controllers/PaymentPagSeguroController.cs:379-393 | The collected values are exactly the values of the maximal digit runs that a later non-digit closes. |
| DeliveryEstimate.BiggestIntegerIsLargestClosedRun | src/Nop.Plugin.Payments.PagSeguro/Controllers/PaymentPagSeguroController.cs:368-404 | On non-blank text the answer is at least every closed digit run. It equals one of them, or is 0. |
| DeliveryEstimate.TrailingDigitRunIgnored | src/Nop.Plugin.Payments.PagSeguro/Controllers/PaymentPagSeguroController.cs:379-393 | A digit run at the very end of the text is never collected. |
| DeliveryEstimate.FiveToTenYieldsFive | src/Nop.Plugin.Payments.PagSeguro/Controllers/PaymentPagSeguroController.cs:368-404 | The label "5 a 10" yields 5, not 10. |
| DeliveryEstimate.SelectMax | src/Nop.Plugin.Payments.PagSeguro/Controllers/PaymentPagSeguroController.cs:335-366 | The selection fails exactly when some line has no delivery date, and the failure is an ArgumentNullException. |
| DeliveryEstimate.SelectBiggest | src/Nop.Plugin.Payments.PagSeguro/Controllers/PaymentPagSeguroController.cs:335-366 | The same, stated over order lines: the selection fails, with an ArgumentNullException, exactly when a line's product has no delivery date. |
| DeliveryEstimate.LineDays | src/Nop.Plugin.Payments.PagSeguro/Controllers/PaymentPagSeguroController.cs:345-362 | One entry per line: none where the delivery date is missing, otherwise the line's value. |
| DeliveryEstimate.SelectMaxIsMaximum | src/Nop.Plugin.Payments.PagSeguro/Controllers/PaymentPagSeguroController.cs:335-366 | Every line's value is at most the selected value. No line is chosen exactly when that value is 0. |
| DeliveryEstimate.SelectMaxIsEarliest | src/Nop.Plugin.Payments.PagSeguro/Controllers/PaymentPagSeguroController.cs:335-366 | The chosen line holds the selected value, and every earlier line holds a strictly smaller one. |
| DeliveryEstimate.SelectBiggestIsEarliestMaximum | src/Nop.Plugin.Payments.PagSeguro/Controllers/PaymentPagSeguroController.cs:335-366 | Over order lines, the chosen line is the earliest one with the greatest window. With no window above 0, nothing is chosen. |
| DeliveryEstimate.GetBiggestDeliveryDate | src/Nop.Plugin.Payments.PagSeguro/Controllers/PaymentPagSeguroController.cs:335-366 | The foreach computes `SelectBiggest`. |
| DeliveryEstimate.ReceivedPaymentNote | src/Nop.Plugin.Payments.PagSeguro/Controllers/PaymentPagSeguroController.cs:286-332 | A line without a delivery date is an ArgumentNullException. No window above 0 is an InvalidOperationException. Success is a shipment narrative, and only happens for an order with a shipping method (`ShippingMethod.Contains` on null throws). |
| DeliveryEstimate.ReceivedPaymentNoteReports | src/Nop.Plugin.Payments.PagSeguro/Controllers/PaymentPagSeguroController.cs:286-332 | A composed note names the chosen line's manufacturer and delivery-date label. Its deadline is a work day after today, exactly that many work days later. Once a line is chosen, composing fails, with a NullReferenceException, exactly when that line has no manufacturer or the order has no shipping method. |
| DeliveryEstimate.GetOrdeNoteRecievedPayment | src/Nop.Plugin.Payments.PagSeguro/Controllers/PaymentPagSeguroController.cs:286-332 | The method computes `ReceivedPaymentNote`, including its failure on a missing shipping method. |
| WorkDays.DayOfWeek | src/Nop.Plugin.Payments.PagSeguro/Controllers/PaymentPagSeguroController.cs:466-467 | The day of the week is one of the seven DayOfWeek values. |
| WorkDays.NextWorkDay | src/Nop.Plugin.Payments.PagSeguro/Controllers/PaymentPagSeguroController.cs:473-480 | The first work day in the walking direction. It is at most three days away, and no work day lies in between. |
| WorkDays.WalkWorkDays | src/Nop.Plugin.Payments.PagSeguro/Controllers/PaymentPagSeguroController.cs:462-471 | After at least one step the result is a work day, strictly in the walking direction. |
| WorkDays.AddWorkDays | src/Nop.Plugin.Payments.PagSeguro/Controllers/PaymentPagSeguroController.cs:462-471 | Zero work days is an InvalidOperationException, since `Last()` runs on an empty sequence. Otherwise the result is a work day, after the date for positive counts and before it for negative ones. |
| WorkDays.AddWorkDaysCountsExactly | src/Nop.Plugin.Payments.PagSeguro/Controllers/PaymentPagSeguroController.cs:462-485 | Exactly n work days lie between the date and the result, in either direction. |
| WorkDays.FridayPlusThreeIsWednesday | src/Nop.Plugin.Payments.PagSeguro/Controllers/PaymentPagSeguroController.cs:462-485 | Three work days after a Friday is the following Wednesday. |
| CheckoutFields.NormaliseSpaces | src/Nop.Plugin.Payments.PagSeguro/PagSeguroPaymentProcessor.cs:567-581 | The result is no longer than the input, and does not end in white space. |
| CheckoutFields.RemoveIncorrectSpaces | src/Nop.Plugin.Payments.PagSeguro/PagSeguroPaymentProcessor.cs:567-581 | The character loop followed by `Trim()` computes `NormaliseSpaces`. |
| CheckoutFields.NormaliseSpacesShape | src/Nop.Plugin.Payments.PagSeguro/PagSeguroPaymentProcessor.cs:567-581 | The result never holds two spaces in a row. |
| CheckoutFields.NormaliseSpacesKeepsNormal | src/Nop.Plugin.Payments.PagSeguro/PagSeguroPaymentProcessor.cs:567-581 | Text already without double spaces and trimmed is left unchanged. |
| CheckoutFields.NormaliseSpacesIdempotent | src/Nop.Plugin.Payments.PagSeguro/PagSeguroPaymentProcessor.cs:567-581 | Normalising twice gives the same as normalising once. |
| CheckoutFields.NormaliseSpacesEmpty | src/Nop.Plugin.Payments.PagSeguro/PagSeguroPaymentProcessor.cs:567-581 | The result is empty exactly when the input is blank. |
| CheckoutFields.KeptSource | src/Nop.Plugin.Payments.PagSeguro/PagSeguroPaymentProcessor.cs:571-578 | Every kept character is the input's character at some earlier position. |
| CheckoutFields.OnlyDigits | src/Nop.Plugin.Payments.PagSeguro/PagSeguroPaymentProcessor.cs:600-609 | The result is only digits and no longer than the input. Digit-only input is kept, and input without digits gives the empty text. |
| CheckoutFields.OnlyDigitsAppend | src/Nop.Plugin.Payments.PagSeguro/PagSeguroPaymentProcessor.cs:600-609 | The digits of a concatenation are the concatenation of the digits. |
| CheckoutFields.GetOnlyNumbers | src/Nop.Plugin.Payments.PagSeguro/PagSeguroPaymentProcessor.cs:600-609 | The loop computes `OnlyDigits`, the ASCII digits of the input in order. |
| CheckoutFields.RetouchPostalCode | src/Nop.Plugin.Payments.PagSeguro/PagSeguroPaymentProcessor.cs:588-598 | The result is at most 8 digits and is a prefix of the input's digits: all of them when there are 8 or fewer, otherwise exactly the first 8. |
| CheckoutFields.PostalCodeWithHyphen | src/Nop.Plugin.Payments.PagSeguro/PagSeguroPaymentProcessor.cs:588-598 | A hyphenated CEP such as 01310-100 becomes its eight digits. |
| CheckoutFields.EnsureStreet | src/Nop.Plugin.Payments.PagSeguro/PagSeguroPaymentProcessor.cs:427-442 | The result is a prefix of the street, at most 80 long, and empty exactly for a blank street. Streets up to 80 are kept. Longer ones are cut to 79. |
| CheckoutFields.EnsureNeiborhood | src/Nop.Plugin.Payments.PagSeguro/PagSeguroPaymentProcessor.cs:444-459 | The result is a prefix, at most 60 long, and empty exactly when blank. Values up to 60 are kept. Longer ones are cut to 59. |
| CheckoutFields.WithDefaults | src/Nop.Plugin.Payments.PagSeguro/PagSeguroPaymentProcessor.cs:389-425 | The number is never blank and the complement never empty, each defaulting to "--". The complement is at most 40, cut to a 39-character prefix when longer. |
| CheckoutFields.GetCustomNumberAndComplement | src/Nop.Plugin.Payments.PagSeguro/PagSeguroPaymentProcessor.cs:389-425 | The attribute loop computes `NumberAndComplementOf`. |
| CheckoutFields.ScanLastMatchWins | src/Nop.Plugin.Payments.PagSeguro/PagSeguroPaymentProcessor.cs:400-421 | The number (or complement) found is the first value of the last attribute named "Número"/"Numero" (or "Complemento"), ignoring case. |
| CheckoutFields.ScanNoMatch | src/Nop.Plugin.Payments.PagSeguro/PagSeguroPaymentProcessor.cs:400-421 | With no attribute of that name the field stays empty. |
| CheckoutFields.ScanFails | src/Nop.Plugin.Payments.PagSeguro/PagSeguroPaymentProcessor.cs:400-421 | The scan fails exactly when a matching attribute has no values, and the failure is an ArgumentOutOfRangeException. |
| CheckoutFields.RemoveIncorrectFoneAreaCodes | src/Nop.Plugin.Payments.PagSeguro/PagSeguroPaymentProcessor.cs:540-554 | The number is either kept or loses one leading zero. A zero is dropped exactly when the number is longer than 9 and starts with "0". |
| CheckoutFields.PhoneDigits | src/Nop.Plugin.Payments.PagSeguro/PagSeguroPaymentProcessor.cs:515-538 | The result holds only digits. |
| CheckoutFields.GetPhoneNumber | src/Nop.Plugin.Payments.PagSeguro/PagSeguroPaymentProcessor.cs:515-538 | A missing address is a NullReferenceException and a missing phone an ArgumentNullException. Otherwise both parts are digits and the number is at most 9 long. For up to 11 digits the parts rejoin to the digits. The area code has two digits exactly for 10 or 11 digits. More than 11 digits gives two empty parts. |
| CheckoutFields.PhoneWithTrunkPrefix | src/Nop.Plugin.Payments.PagSeguro/PagSeguroPaymentProcessor.cs:515-554 | A phone written as "0" + area code + 8 or 9 digits splits into that area code and that local number. |
| CheckoutFields.ComposeName | src/Nop.Plugin.Payments.PagSeguro/PagSeguroPaymentProcessor.cs:461-496 | The first and last names are joined by one space when both are present. Otherwise the present one is used alone. |
| CheckoutFields.GetBillingShippingFullName | src/Nop.Plugin.Payments.PagSeguro/PagSeguroPaymentProcessor.cs:461-496 | A missing address is an ArgumentNullException. The name is the space-normalised composition, kept whole up to 50 and otherwise cut to exactly 50. |
| CheckoutFields.FullNameShape | src/Nop.Plugin.Payments.PagSeguro/PagSeguroPaymentProcessor.cs:461-496 | The full name has no double space and does not start with white space. It is empty exactly when no name is present. |
| CheckoutFields.FullNameOfTwoWords | src/Nop.Plugin.Payments.PagSeguro/PagSeguroPaymentProcessor.cs:461-496 | Two short single-word names give "first last". |
| CheckoutFields.GetProcuctName | src/Nop.Plugin.Payments.PagSeguro/PagSeguroPaymentProcessor.cs:556-563 | The name is never blank. A present name is used, otherwise "Nome não especificado". |
| CheckoutFields.ReplaceTagsKeepsTagFree | src/Nop.Plugin.Payments.PagSeguro/PagSeguroPaymentProcessor.cs:503 | Text without a tag is left unchanged. |
| CheckoutFields.ReplaceTagsLeavesNoTag | src/Nop.Plugin.Payments.PagSeguro/PagSeguroPaymentProcessor.cs:503 | After the replacement no complete tag is left. |
| CheckoutFields.ReplaceTagsKeepsNonBlank | src/Nop.Plugin.Payments.PagSeguro/PagSeguroPaymentProcessor.cs:503 | Replacing tags with " - " never makes a non-blank text blank. |
| CheckoutFields.DescribedName | src/Nop.Plugin.Payments.PagSeguro/PagSeguroPaymentProcessor.cs:498-507 | A blank attribute description leaves the name alone. Otherwise the result is exactly the name, " - " and `ReplaceTags` of the description, and that suffix is tag-free and non-blank. |
| CheckoutFields.AddItemDescrition | src/Nop.Plugin.Payments.PagSeguro/PagSeguroPaymentProcessor.cs:498-513 | The description is at most 100 long and is a prefix of the described name: all of it up to 100, otherwise its first 99 characters. |
| CheckoutRequest.RoundToCents | src/Nop.Plugin.Payments.PagSeguro/PagSeguroPaymentProcessor.cs:142 | The result is a whole number of cents within half a cent of the value. A tie goes to the even cent. |
| CheckoutRequest.RoundToCentsUnique | src/Nop.Plugin.Payments.PagSeguro/PagSeguroPaymentProcessor.cs:160 | These properties determine the rounded value uniquely. |
| CheckoutRequest.RoundToCentsKeepsCents | src/Nop.Plugin.Payments.PagSeguro/PagSeguroPaymentProcessor.cs:170 | An amount already in whole cents is unchanged. |
| CheckoutRequest.TruncateToWhole | src/Nop.Plugin.Payments.PagSeguro/PagSeguroPaymentProcessor.cs:161 | The `(long)` cast of the weight is its whole part, truncated toward zero. |
| CheckoutRequest.ShippingTypeOf | src/Nop.Plugin.Payments.PagSeguro/PagSeguroPaymentProcessor.cs:118-139 | PAC exactly for "PAC". SEDEX exactly for the three SEDEX method names. Anything else is not specified. |
| CheckoutRequest.ShippingFor | src/Nop.Plugin.Payments.PagSeguro/PagSeguroPaymentProcessor.cs:116-143 | The shipping type and the cost, rounded to cents, are set exactly when the order has a non-empty shipping method. |
| CheckoutRequest.DiscountSum | src/Nop.Plugin.Payments.PagSeguro/PagSeguroPaymentProcessor.cs:164-181 | The summed, rounded discounts are never negative. |
| CheckoutRequest.ExtraAmount | src/Nop.Plugin.Payments.PagSeguro/PagSeguroPaymentProcessor.cs:164-188 | There is no extra amount exactly when the discounts sum to 0. Otherwise it is the negated sum, below 0. |
| CheckoutRequest.ExtraAmountOfCents | src/Nop.Plugin.Payments.PagSeguro/PagSeguroPaymentProcessor.cs:164-188 | Discounts already in cents give exactly minus their sum. |
| CheckoutRequest.ItemFor | src/Nop.Plugin.Payments.PagSeguro/PagSeguroPaymentProcessor.cs:147-161 | The id is the SKU when it is not blank, otherwise the product id written out. The description is `AddItemDescrition` of `GetProcuctName` and the attribute description, so at most 100 long. The quantity is copied. The amount is the unit price rounded to cents. The weight is the product weight truncated to a whole number. |
| CheckoutRequest.ItemsForLines | src/Nop.Plugin.Payments.PagSeguro/PagSeguroPaymentProcessor.cs:146-162 | The k-th item is the k-th order line's item, and there is one item per line. |
| CheckoutRequest.BuildItems | src/Nop.Plugin.Payments.PagSeguro/PagSeguroPaymentProcessor.cs:146-162 | The foreach computes `ItemsFor`. |
| CheckoutRequest.AddressFor | src/Nop.Plugin.Payments.PagSeguro/PagSeguroPaymentProcessor.cs:194-212 | The country is "BRA". The postal code is at most 8 digits, the street at most 80, the district at most 60. The number is never blank and the complement at most 40. Street, district and postal code are the normalisers' results, the city is copied, and the number and complement are those the attribute scan (`NumberAndComplementOf`) found. A failing attribute scan is passed on. After a successful scan, building fails exactly when the state is missing (NullReferenceException) or, with a state, the postal code is null (ArgumentNullException from `Regex.Matches`). |
| CheckoutRequest.BuildShippingAddress | src/Nop.Plugin.Payments.PagSeguro/PagSeguroPaymentProcessor.cs:194-212 | The method computes `AddressFor`. |
| CheckoutRequest.ShippingWithAddress | src/Nop.Plugin.Payments.PagSeguro/PagSeguroPaymentProcessor.cs:116-212 | The shipping part with its address attached exactly when the order has a shipping address. |
| CheckoutRequest.SenderFor | src/Nop.Plugin.Payments.PagSeguro/PagSeguroPaymentProcessor.cs:214-217 | A missing billing address is an ArgumentNullException, and with one present the sender fails exactly when its phone is missing. A built sender has `GetBillingShippingFullName`'s name, `GetPhoneNumber`'s phone and the customer's e-mail. |
| CheckoutRequest.BuildPaymentRequest | src/Nop.Plugin.Payments.PagSeguro/PagSeguroPaymentProcessor.cs:101-217 | The request the method fills in, step by step, is `PaymentRequestFor` of the order. |
| CheckoutRequest.RequestMirrorsOrder | src/Nop.Plugin.Payments.PagSeguro/PagSeguroPaymentProcessor.cs:101-217 | The request:<br>• is in BRL, with one item per order line, each with the line's quantity and rounded price;<br>• has any extra amount negative;<br>• has a shipping type exactly when there is a shipping method;<br>• has an address exactly when there is a shipping address. |
| CheckoutRequest.RequestFailures | src/Nop.Plugin.Payments.PagSeguro/PagSeguroPaymentProcessor.cs:101-217 | Building fails exactly when the shipping address fails, the billing address is missing or its phone is missing. With neither address present the failure is an ArgumentNullException. |
| CheckoutRequest.CanRePostProcessPayment | src/Nop.Plugin.Payments.PagSeguro/PagSeguroPaymentProcessor.cs:284-298 | A null order is an ArgumentNullException. Otherwise the answer is true exactly for a pending order placed at least one minute ago. |
| CheckoutRequest.CanRePostStaysTrue | src/Nop.Plugin.Payments.PagSeguro/PagSeguroPaymentProcessor.cs:284-298 | Once re-posting is allowed, it stays allowed at every later time. |

## Left out

- **Services.** The order service, order-processing service, messaging service and logger are not modelled.
  - Their calls are recorded in a ghost log.
  - `MarkAsAuthorized`, `MarkOrderAsPaid` and `CancelOrder` are logged but do not change the order's state in the model. Only the assignments the controller makes itself do.
- Transition: every call on those services (`UpdateOrder`, `MarkAsAuthorized`, `MarkOrderAsPaid`, `CancelOrder`, the customer e-mail) is assumed to return normally. In the code an exception from any of them is caught by `PaymentReturn` and answered with HTTP 500, after the assignments and notes made before it. So `Transition`'s "fails to complete only for status 3", the completion of statuses 1, 2 and 4 to 7, and `PaymentReturn`'s OK hold only under that assumption. Example: statuses 6 and 7 set the order status to Cancelled just before calling `CancelOrder`, and the model does not know whether `CancelOrder` accepts an order in that state.
- **Exceptions.** `PagSeguroServiceException` handling is reduced to a gateway error value, and logging is not modelled. The `try`/`catch` of `PaymentReturn` is modelled by its outcome: HTTP 500.
- **Note text.** The rendered text of the shipment note is not modelled: the date in dd/MM/yyyy and the carrier sentence. The note is kept as its facts (manufacturer, delivery-date label, deadline).
- **Clock and date.** `DateTime.Now` and `DateTime.UtcNow` are parameters, not read from a clock. `DateTime` range limits are not modelled.
- NotesAppendedAndStamped: the clock is read once per request. Every note of one notification carries the same `utcNow`, while `AddOrderNote` reads `DateTime.UtcNow` afresh for each note. The clause on stamps states this abstraction, not that the stamps of the code are equal.
- EnsureStreet, EnsureNeiborhood, WithDefaults, GetBillingShippingFullName, AddItemDescrition: lengths count Unicode scalar values, while .NET counts UTF-16 code units. The two counts differ only for characters outside the Basic Multilingual Plane, such as emoji, which take two units in .NET. For such text the caps (80/79, 60/59, 40/39, 50, 100/99) cut at a different place in the source, and `Substring` there can split a surrogate pair. The model keeps whole characters.
- **Money.** Amounts are integers of ten-thousandths, and the 28-digit `decimal` range is not modelled.
- GetBiggestInteger: `int.Parse` overflow of a digit run longer than `int` can hold is not modelled, since runs are read as unbounded naturals. The per-character `int.TryParse` accepts exactly the ASCII digits, as modelled.
- Text.ParseInt32: its contract states only the range of a result and the kinds of failure. Exact acceptance is stated for written-out 32-bit values only, in `IntToStringParses`.
- `int.Parse` and `new Guid(...)` accept only the forms modelled. Those are an optionally signed run of ASCII digits, and the "D" and "N" GUID layouts. Culture-specific signs, braces and parentheses GUID layouts, and hexadecimal GUID forms are not modelled.
- `ToUpper()` on the notification code folds ASCII letters only (`ToUpperAscii`), not the full culture tables.
- SameIgnoringCase: the `InvariantCultureIgnoreCase` comparison of attribute names is modelled by folding ASCII letters and "ú" (`FoldChar`) and comparing character by character. The linguistic comparison of .NET also equates canonically equivalent forms, such as a decomposed "Nu\u0301mero" with "Número"; the model does not, since their lengths differ.
- **Null strings and objects.** Null is modelled only where the code tests for it or is known to dereference it:
  - the reference;
  - the addresses, the phone, the state and the postal code;
  - the names;
  - the delivery date, the manufacturer, the order's shipping method and the order.

  A null payment method, product, customer (`Order.Customer.Email`, read after the sender's name is built), city or line address is not modelled.
- `ShippingAddressId.HasValue && ShippingAddress != null` is one optional shipping address.
- The address-attribute parser (`ParseAddressAttributes`, `ParseValues`) and `GetLocalized` are not modelled. An address carries its parsed attributes and their values.
- GetOnlyNumbers: the model keeps the digits in order with a character loop, not a loop over regular-expression matches. It reads `\d` as the ASCII digits 0-9, while .NET's `\d` matches every Unicode decimal digit. The source keeps a digit such as the Arabic-Indic '٣', and `OnlyDigits` drops it; for ASCII digits the results agree. The same holds for `RetouchPostalCode`, which uses it.
- `Register`, the redirect to the gateway, and the rethrow of `PagSeguroServiceException` in `PostProcessPayment` are not modelled. The model stops at the filled-in request.
- **Other operations.** `ProcessPayment`, `Capture`, `Refund`, `Void`, the recurring-payment methods, `GetAdditionalHandlingFee`, `HidePaymentMethod`, configuration, routing, install and uninstall are not modelled. They are framework plumbing or fixed answers.
- `IsHoliday` returns false for every date, as the code does. No holiday calendar is modelled.
