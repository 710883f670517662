# Salon back office, modelled in Dafny

This project models the rules inside the admin screens of a salon booking app:
- **Bookings.** A booking is checked against the professional's other bookings before it is stored. The hourly grid shows each professional's day.
- **Checkout.** A finished service is billed with products and a discount, and a sale record is written.
- **Sales report.** The report sums revenue, commission, profit and margin over the sales. It can also refund a sale.
- **Notifications.** A notification centre queues toasts and counts unread notifications.
- **WhatsApp.** A confirmation link dials the client's phone, normalised to the Brazilian country code.
- **Dashboard.** It reads the total and the client's phone out of a notification's text.
- **Stock, customers and team.** These screens filter their lists and run an edit form.

One module per screen or utility:

| module | file | models |
|---|---|---|
| `Scheduling` | `scheduling.dfy` | `ManageAppointments.tsx`: time parsing, service totals, the overlap test, the first conflict and its message, the hourly grid, the service picker, the booking form (class `BookingScreen`) |
| `Checkout` | `checkout.dfy` | `FinalizeService.tsx`: the cart, the payable amount, the commission shown, the sale record, the stock decrements, the screen (class `CheckoutScreen`) |
| `Reports` | `reports.dfy` | `Reports.tsx`: revenue, commission, profit, margin, the period and professional query, the refund (class `SalesLedger`) |
| `Notifications` | `notifications.dfy` | `NotificationContext.tsx`: the toast queue, the notifications table and the unread counter (class `NotificationCenter`) |
| `WhatsApp` | `whatsapp.dfy` | `whatsapp.ts`: phone normalisation, the confirmation text and link |
| `Dashboard` | `dashboard.dfy` | `AdminDashboard.tsx`: today's sales, the bell badge, status labels, the notification-text patterns, the greeting link |
| `Stock` | `stock.dfy` | `StockControl.tsx`: search, low-stock figure, row labels, the product form (class `StockScreen`) |
| `Customers` | `customers.dfy` | `ManageCustomers.tsx`: search, the customer form (class `CustomerScreen`) |
| `Collaborators` | `collaborators.dfy` | `Collaborators.tsx`: the payload's password rule, the team form (class `CollaboratorScreen`) |
| `Values`, `Text`, `Lists` | `values.dfy`, `text.dfy`, `lists.dfy` | the JavaScript semantics the screens rely on: `x \|\| d` defaults, truthiness, `indexOf`, `includes`, `replace` with a string pattern, `toLowerCase`, `trim`, `toString`, `padStart`, `Number`, `Array.prototype.filter` |

Modelling choices:
- **Money.** Money is `real`, so sums are exact.
- **Times.** Times are minutes since midnight, as `int`.
- **`Number`.** `Number` of a time field is `Option<int>`, and `NaN` is `None`. Every comparison with `NaN` is false, so a booking whose time does not parse is never in conflict.
- **The store.** Every call to the store is a boolean parameter saying whether the store accepted it. Rows the store returns are parameters too.
- **Other outside inputs.** `encodeURIComponent` is a function parameter `encode`. A toast's random id is a parameter `freshId`. The dates the clock gives are the fields of `Reports.Calendar`.
- **Screen state.** The screens' React state becomes class fields. Each handler becomes a method whose `ensures` gives the whole new state.

Where the code and its description disagree, the model follows the code. A grid cell whose booking has no status is drawn as occupied (`ManageAppointments.tsx:269` compares the status with `'pending'` only), not as awaiting confirmation.

## Model

| member | source | states |
|---|---|---|
| Scheduling.ParseTimeOfDigits | src/pages/ManageAppointments.tsx:84-85 | `h*60+m` for a time written as digits, a colon and digits, optionally followed by a further `:` field |
| Scheduling.TwoDigitTime | src/pages/ManageAppointments.tsx:90-91 | an `HH:MM` time parses to `(10*h1+h2)*60 + 10*m1+m2`, and its minute field is the two minute digits |
| Scheduling.TotalsAppend | src/pages/ManageAppointments.tsx:80-81 | the duration and price totals add up over any split of the selection, so each service counts once |
| Scheduling.TotalDurationAllDefault | src/pages/ManageAppointments.tsx:80 | with no durations set, each service books 60 minutes |
| Scheduling.OverlapsIffSharedMinute | src/pages/ManageAppointments.tsx:93 | for non-empty intervals the test holds iff a minute lies in both; back-to-back intervals never overlap |
| Scheduling.FirstConflict | src/pages/ManageAppointments.tsx:88-96 | the result is the first booking in list order that blocks the candidate (same professional, same date, not rejected, overlapping, missing duration as 60); none means no booking blocks it |
| Scheduling.ClockTextRoundTrip | src/pages/ManageAppointments.tsx:99 | the message's padded `HH:MM` end time parses back to the end minute, for ends within 100 hours |
| Scheduling.TenOClockHourEndsAtEleven | src/pages/ManageAppointments.tsx:99 | the end the message names for a 60-minute booking at 10:00 is minute 660 (11:00) |
| Scheduling.HalfPastTenRefused | src/pages/ManageAppointments.tsx:88-98 | 10:30-11:00 is refused beside 10:00-11:00 of the same professional |
| Scheduling.OneMinuteOverlapRefused | src/pages/ManageAppointments.tsx:93 | 09:59-10:29 is refused beside 09:00-10:00: one shared minute is a conflict |
| Scheduling.BackToBackAccepted | src/pages/ManageAppointments.tsx:93 | 11:00-11:30 is accepted after 10:00-11:00 |
| Scheduling.EmptySelectionDoubleBooks | src/pages/ManageAppointments.tsx:80-86 | as written, a booking with no service is checked with duration 0, accepted at 10:00, and read back as 10:00-11:00 clashing with the existing booking |
| Scheduling.BookingKeepsScheduleFree | src/pages/ManageAppointments.tsx:88-114 | with the corrected duration, inserting a booking the check accepts keeps the schedule free of double bookings |
| Scheduling.ClassifySlot | src/pages/ManageAppointments.tsx:167-186 | a cell `[t, t+60)` is available iff nothing blocks it; otherwise finalized, awaiting or occupied iff the first blocker's status is `finalized`, `pending` or anything else (unset included); the first blocker is unique (`FirstBlockerUnique`) |
| Scheduling.LookupService | src/pages/ManageAppointments.tsx:535 | the first catalogue entry with the chosen id, or none iff no entry has it |
| Scheduling.WithoutService | src/pages/ManageAppointments.tsx:527 | keeps exactly the entries with another id; unchanged when the id is absent; its order is fixed by `WithoutServiceAppend` |
| Scheduling.WithoutServiceAppend | src/pages/ManageAppointments.tsx:527 | the filter distributes over concatenation, so with `WithoutServiceSingle` (one entry survives iff its id differs) the survivors are the other entries in their original order |
| Scheduling.WithoutServiceDistinct | src/pages/ManageAppointments.tsx:527 | removing by id keeps the selected ids distinct |
| Scheduling.BookingScreen.AddService | src/pages/ManageAppointments.tsx:534-538 | adds the looked-up service at the end unless it is already selected or not found; ids stay distinct |
| Scheduling.BookingScreen.RemoveService | src/pages/ManageAppointments.tsx:527 | the selection loses exactly that id; ids stay distinct |
| Scheduling.BookingScreen.Submit | src/pages/ManageAppointments.tsx:77-124 | as written: a conflict found with the raw total duration (`FindBookingConflictAsWritten`, 0 for an empty selection) refuses with the conflict message and writes nothing; otherwise the record (names, services, total duration and price, client name, `confirmed`) is inserted and, if the store accepts it, the form and selection are cleared |
| Scheduling.BookingScreen.SubmitCorrected | src/pages/ManageAppointments.tsx:77-124 | the same submission with the candidate checked for the duration it is read back with (`FindBookingConflict`), so by `BookingKeepsScheduleFree` what it inserts keeps the schedule free of double bookings |
| Checkout.ProductsValueAppend | src/pages/FinalizeService.tsx:62 | the products sum adds up over any split of the cart, counting duplicates |
| Checkout.ProductsValueDrop | src/pages/FinalizeService.tsx:57-59 | removing an entry lowers the sum by that entry's price |
| Checkout.DropIndex | src/pages/FinalizeService.tsx:58 | all entries but the one at `idx`, in order; the list unchanged for an index out of range |
| Checkout.CalculateTotal | src/pages/FinalizeService.tsx:61-68 | never negative; 0 iff subtotal less discount is not positive, and equal to it otherwise |
| Checkout.TotalAtMostSubtotal | src/pages/FinalizeService.tsx:63-67 | a non-negative discount never charges more than the subtotal |
| Checkout.DiscountCoveringSubtotal | src/pages/FinalizeService.tsx:65-67 | a discount covering the subtotal (100% or more) leaves 0 to pay |
| Checkout.FlatDiscountExample | src/pages/FinalizeService.tsx:61-68 | service 100, products 20 and 15, 10 off: subtotal 135, pays 125, commission 50 at the default rate |
| Checkout.PercentDiscountExample | src/pages/FinalizeService.tsx:66 | service 50, 80% off: a discount of 40, pays 10; commission 20 at 40% |
| Checkout.FlooredExample | src/pages/FinalizeService.tsx:67 | a discount of 200 on a subtotal of 135 pays 0 |
| Checkout.CommissionBounded | src/pages/FinalizeService.tsx:330-331 | for a rate in (0, 100], or none, the commission lies between 0 and the service value |
| Checkout.SaleRecord | src/pages/FinalizeService.tsx:73-86 | total is service plus products; the discount value is the raw amount (not clamped) and the percent is 0 for a flat discount; the final value is total less discount floored at 0 |
| Checkout.StockDecrements | src/pages/FinalizeService.tsx:102-104 | one decrement per cart entry, in cart order: the calls are `ProductIds(cart)`, the cart's ids position by position |
| Checkout.CheckoutScreen.SelectAppointment | src/pages/FinalizeService.tsx:151-157 | the booking is selected and its service value, or 0 when unset or 0, becomes the base |
| Checkout.CheckoutScreen.AddProduct | src/pages/FinalizeService.tsx:53-55 | exactly one entry is appended; the sum grows by its price |
| Checkout.CheckoutScreen.RemoveProduct | src/pages/FinalizeService.tsx:57-59 | only the entry at `i` goes; the sum drops by its price |
| Checkout.CheckoutScreen.Finalize | src/pages/FinalizeService.tsx:70-125 | nothing without a selection; otherwise the sale record is sent and, if accepted, the cart is decremented, the receipt shows the sale, and selection, cart, discount and base are reset |
| Reports.ProfitIsSumOfRowProfits | src/pages/Reports.tsx:111-124 | revenue less commission is the sum, sale by sale, of final value less that sale's commission |
| Reports.ProfitAtMostRevenue | src/pages/Reports.tsx:113-124 | with non-negative values and rates the commission (on `CommissionBase`: the service value when present and positive, else the final value) is non-negative and profit never exceeds revenue |
| Reports.MarginPercent | src/pages/Reports.tsx:259 | margin times revenue is profit times 100 for a non-zero revenue; a zero revenue divides by 1 |
| Reports.CheckoutExampleReport | src/pages/Reports.tsx:111-124 | the checkout example's sale reports revenue 125, commission 50, profit 75, margin 60% |
| Reports.BuildQuery | src/pages/Reports.tsx:81-100 | the professional filter applies iff the selection is not `all`; `year` has only a lower bound; `month`, `last_month` and `custom` have both; other values have none |
| Reports.RefundNeverReopensAsWritten | src/pages/Reports.tsx:47 | as written, the refund target (`RefundTargetAsWritten`, the row's `agendamento_id`) of any stored sale, as read back (`StoredRowAsWritten`) or joined (`StoredRow`), is none; the corrected target (`RefundTarget`, the stored `appointment_id`) is the sale's booking |
| Reports.RefundReopensSaleBooking | src/pages/Reports.tsx:46-49 | with the corrected target, a successful refund sets exactly the sale's booking to `confirmed`; as written, every status stays as it was |
| Reports.CommissionRateIgnoredAsWritten | src/pages/Reports.tsx:116 | as written (`StoredRowAsWritten` carries no rate), a 40% professional's commission on 100 is reported as 50; joined (`StoredRow`), it is 40 |
| Reports.ReportedCommissionMatchesCheckout | src/pages/Reports.tsx:113-120 | with the rate joined, the report charges each stored sale exactly the commission the checkout showed for it (FinalizeService.tsx:331); as written, the default rate's |
| Reports.WithoutSale | src/pages/Reports.tsx:43 | exactly the rows with another id remain |
| Reports.Reopen | src/pages/Reports.tsx:48 | the target booking becomes `confirmed` when the update succeeds; nothing else changes |
| Reports.SalesLedger.Refund | src/pages/Reports.tsx:34-60 | a failed delete changes nothing and reports an error; otherwise the sale is gone and its booking reopened; the dialog closes either way |
| Reports.SalesLedger.RefundAsWritten | src/pages/Reports.tsx:34-60 | the same, reopening the booking named by `agendamento_id` |
| Notifications.WithoutToast | src/context/NotificationContext.tsx:70-72 | exactly the toasts with another id remain |
| Notifications.WithoutToastAppend | src/context/NotificationContext.tsx:71 | removal splits over any division of the queue, so the kept toasts keep their order |
| Notifications.WithoutAbsentToast | src/context/NotificationContext.tsx:71 | removing an absent id leaves the queue as it is |
| Notifications.ShowThenDismiss | src/context/NotificationContext.tsx:57-61 | a toast shown under a fresh id and then expired leaves the queue as before |
| Notifications.UnreadIn | src/context/NotificationContext.tsx:48-51 | the unread count is at most the number of rows |
| Notifications.NoUnreadAfterMarkAll | src/context/NotificationContext.tsx:74-77 | after marking all read (`MarkAllRead`) every row is read with nothing else about it changed, and the store counts no unread row |
| Notifications.NewRowIsUnread | src/context/NotificationContext.tsx:66 | a new row raises the unread count by one |
| Notifications.NotificationCenter.FetchUnreadCount | src/context/NotificationContext.tsx:47-53 | the store's unread count, or 0 when it gives none |
| Notifications.NotificationCenter.TriggerToast | src/context/NotificationContext.tsx:55-57 | one toast appended under the fresh id, of the given kind or `info` when absent (`KindOr`), the others untouched |
| Notifications.NotificationCenter.RemoveNotification | src/context/NotificationContext.tsx:70-72 | the queue loses exactly that id |
| Notifications.NotificationCenter.AddNotification | src/context/NotificationContext.tsx:64-68 | only the store gains an unread row; the toast queue is untouched |
| Notifications.NotificationCenter.MarkAllAsRead | src/context/NotificationContext.tsx:74-77 | the counter is 0, and the rows all read when the update succeeds |
| Notifications.NotificationCenter.OnInsert | src/context/NotificationContext.tsx:34-38 | the insert event appends the row's toast and refreshes the count |
| WhatsApp.DigitsOnly | src/utils/whatsapp.ts:10 | only digits, exactly the input's digit characters |
| WhatsApp.DigitsOnlyAppend | src/utils/whatsapp.ts:10 | stripping splits over any division of the text, so the digits keep their order |
| WhatsApp.DigitsOnlyOfDigits | src/utils/whatsapp.ts:10 | a text of digits is kept whole |
| WhatsApp.NormalisePhone | src/utils/whatsapp.ts:10-11 | digits only, starting with `55`; the digits as they are when they start with `55`, prefixed otherwise |
| WhatsApp.NormaliseIdempotent | src/utils/whatsapp.ts:10-11 | normalising twice equals normalising once |
| WhatsApp.CountryCodeOptional | src/utils/whatsapp.ts:10-11 | writing `55` in front of a number that lacks it dials the same number |
| WhatsApp.AreaCode55Unprefixed | src/utils/whatsapp.ts:11 | a number whose area code is 55 gets no country code |
| WhatsApp.TotalLine | src/utils/whatsapp.ts:13 | empty iff the total is absent or empty; otherwise it carries the total |
| WhatsApp.UrlDialsNormalisedPhone | src/utils/whatsapp.ts:16-17 | the link's number, up to the first `?`, is exactly the normalised phone, whatever the text |
| Dashboard.TodaySales | src/pages/AdminDashboard.tsx:75 | the sum of the fetched final values, 0 when nothing is fetched |
| Dashboard.TodaySalesIsRevenue | src/pages/AdminDashboard.tsx:71-75 | the dashboard's figure over the rows' final values (`FinalValues`) equals the report's revenue over the same sales |
| Dashboard.Badge | src/pages/AdminDashboard.tsx:398-414 | shown iff the count is positive; `9+` above nine, otherwise one digit whose value is the count |
| Dashboard.StatusLabel | src/pages/AdminDashboard.tsx:218 | FINALIZADO iff `finalized`, CONFIRMADO iff `confirmed`, PENDENTE otherwise (unset included) |
| Dashboard.RunEnd | src/pages/AdminDashboard.tsx:451-453 | the end of the longest run of characters in the class |
| Dashboard.FirstFrom | src/pages/AdminDashboard.tsx:451-453 | the leftmost match position, or none iff nowhere |
| Dashboard.TotalAmount | src/pages/AdminDashboard.tsx:451 | a captured total starts with `R$ ` and has at least one digit, comma or full stop after it, and only those |
| Dashboard.NoTotalAnywhere | src/pages/AdminDashboard.tsx:451-452 | a search that finds nothing from the start finds nothing anywhere |
| Dashboard.ExtractTotal | src/pages/AdminDashboard.tsx:451-452 | none iff the pattern matches nowhere; otherwise the amount captured by the leftmost match |
| Dashboard.ExtractPhone | src/pages/AdminDashboard.tsx:453-454 | none iff the pattern matches nowhere; otherwise the trimmed run of phone characters after the leftmost `WHATSAPP: ` that is followed by `.` or the end |
| Dashboard.CleanMessageWithoutFragments | src/pages/AdminDashboard.tsx:455-457 | a text with neither fragment is shown unchanged |
| Dashboard.CleanMessageDropsTotal | src/pages/AdminDashboard.tsx:456 | with a total and no phone, the first ` VALOR TOTAL: <total>` is cut out and the rest joined |
| Dashboard.CleanMessageDropsPhone | src/pages/AdminDashboard.tsx:457 | with a phone and no total, the first `. WHATSAPP: <phone>` is cut out and the rest joined |
| Dashboard.CleanMessageKeepsPhoneAfterSwallowedStop | src/pages/AdminDashboard.tsx:451-457 | when the amount captures the sentence's full stop, removing the total also removes the stop the phone fragment starts with, so the phone text stays on screen |
| Dashboard.GreetingUrl | src/pages/AdminDashboard.tsx:483-491 | a link iff the notice is a booking notice with a phone, dialling that phone by the same rule as the confirmation link |
| Stock.FilterProducts | src/pages/StockControl.tsx:72-74 | exactly the products whose lower-cased name contains the lower-cased term |
| Stock.FilterProductsAppend | src/pages/StockControl.tsx:72-74 | the filter splits over any division of the list, so the original order is kept |
| Stock.EmptySearchKeepsAllProducts | src/pages/StockControl.tsx:72-74 | an empty term keeps every product, in order |
| Stock.LowStockCount | src/pages/StockControl.tsx:76 | at most the number of products, and 0 iff every product has more than five units |
| Stock.StockLabel | src/pages/StockControl.tsx:138 | `Em Dia` iff more than five units, `Crítico` iff five or fewer |
| Stock.LowStockCountsCriticalRows | src/pages/StockControl.tsx:76-138 | the low-stock figure is the number of rows labelled `Crítico` |
| Stock.StockScreen.OpenModal | src/pages/StockControl.tsx:55-64 | a product's name, quantity and price are copied and its id edited; no product gives the blank form editing nothing |
| Stock.StockScreen.CloseModal | src/pages/StockControl.tsx:66-70 | the blank form, editing nothing, whatever came before |
| Stock.StockScreen.Submit | src/pages/StockControl.tsx:26-43 | an update of the edited product or an insert, never both; the form closes only when the store accepts it |
| Customers.FilterCustomers | src/pages/ManageCustomers.tsx:89-92 | exactly the customers whose lower-cased name contains the lower-cased search or whose phone contains it; a customer without a phone is kept on a name match |
| Customers.FilterCustomersAppend | src/pages/ManageCustomers.tsx:89-92 | the filter splits over any division of the list, so the original order is kept |
| Customers.EmptySearchKeepsAllCustomers | src/pages/ManageCustomers.tsx:89-92 | an empty search keeps every customer, in order |
| Customers.CustomerScreen.OpenModal | src/pages/ManageCustomers.tsx:68-81 | a customer is edited with missing phone and e-mail as empty text; none gives the blank form |
| Customers.CustomerScreen.CloseModal | src/pages/ManageCustomers.tsx:83-87 | the blank form, editing nothing |
| Customers.CustomerScreen.Submit | src/pages/ManageCustomers.tsx:36-55 | an update when editing, an insert otherwise, never both; the form closes only when the store accepts it |
| Collaborators.BuildPayload | src/pages/Collaborators.tsx:38-41 | the password is dropped iff it is empty on an edit; every other field passes through |
| Collaborators.CreateKeepsPassword | src/pages/Collaborators.tsx:38-41 | a new professional's payload always carries the password, even empty |
| Collaborators.EditMayOmitPassword | src/pages/Collaborators.tsx:39-41 | an edit whose password field is empty, which the form allows, leaves the password out |
| Collaborators.CollaboratorScreen.OpenModal | src/pages/Collaborators.tsx:82-97 | an edit shows the rate, 50 when missing or 0, and an empty password; none gives the blank form with rate 50 |
| Collaborators.CollaboratorScreen.CloseModal | src/pages/Collaborators.tsx:99-103 | the blank form with rate 50, editing nothing |
| Collaborators.CollaboratorScreen.Submit | src/pages/Collaborators.tsx:35-64 | the payload goes to an update when editing, an insert otherwise; the form closes only when the store accepts it |

## Left out

- Store access: every select, insert, update and delete against the hosted database, and the order of the rows it returns. Fetched rows and each call's success are parameters.
- Checkout.StockDecrements: models only the calls made. The stock procedure's effect is not part of this model, and neither is the absence of a restock on refund.
- The realtime channel's subscription and removal. Its insert event is `NotificationCenter.OnInsert`.
- Concurrency: the gap between the conflict check and the insert, and the finalize's three separate writes (sale, status, stock), which are not a transaction.
- Floating point: `toFixed`, `parseFloat` and `parseInt` on form input, and binary rounding of money. Money is exact `real`.
- Timers and randomness: the five-second toast timer is a call to `RemoveNotification` with the toast's id, and the random toast id is a parameter.
- Dates: `new Date()`, `toISOString` and time zones. The dates the report filters use are the fields of `Reports.Calendar`, and the dashboard's day is left to the fetch.
- Browser and library calls: `encodeURIComponent` (an uninterpreted parameter), `window.open`, `window.print`, the PDF export, audio, and all rendering and styling.
- Text.ToLower: lower-cases ASCII and the Latin-1 capitals only, not the rest of Unicode.
- Scheduling.ParseTime: `Number` of a field accepts only digits (and the empty text, as 0). Surrounding whitespace, signs, decimals and exponents are not modelled.
- Notifications.NotificationCenter.TriggerToast: an explicit `null` type is treated as absent, as `undefined` would be.
- The checkout's product picker (its name search and first five results) and the receipt's display fields.
- The delete handlers of the stock, customer, team and booking screens, the booking status update, and the WhatsApp confirmation flag update: each is a single store call with a notification.
- The dashboard's own low-stock query, which counts fewer than five units and is a separate rule from the stock screen's five or fewer.
- The public booking page, the services screen, login, routing, and the service helpers are not part of this model.

## Findings

| source | as written | input that shows it | evidently intended | confidence | as-written member | corrected member |
|---|---|---|---|---|---|---|
| src/pages/ManageAppointments.tsx:80-86 | the conflict check uses the sum of the selected durations, which is 0 when no service is selected, while the stored booking's duration 0 reads back as 60 (`duration \|\| 60`) | a 10:00-11:00 booking of professional 7, and a new 10:00 booking for 7 on the same day with no service selected: accepted, then shown as 10:00-11:00 | the candidate is checked with the duration it will be read back with, so an accepted booking never double-books | medium, not executed | Scheduling.EmptySelectionDoubleBooks, Scheduling.BookingScreen.Submit | Scheduling.BookingKeepsScheduleFree, Scheduling.BookingScreen.SubmitCorrected |
| src/pages/Reports.tsx:47-48 | the refund reopens the booking named by `sale.agendamento_id`, a field the checkout never writes (it stores `appointment_id`, FinalizeService.tsx:76) | any sale stored by the checkout, refunded with both store calls succeeding: the sale is deleted and its booking stays `finalized` | the booking of the refunded sale returns to `confirmed`, as the dialog promises | medium, not executed | Reports.RefundNeverReopensAsWritten, Reports.SalesLedger.RefundAsWritten | Reports.RefundReopensSaleBooking, Reports.SalesLedger.Refund |
| src/pages/Reports.tsx:116 | the report selects `users(name)` only (line 76), so `r.users?.commission_rate` is always missing and every commission uses 50% | a sale with service value 100 by a professional with rate 40: reported commission 50 | the professional's own rate, as the checkout joins it (FinalizeService.tsx:36) | medium, not executed | Reports.CommissionRateIgnoredAsWritten | Reports.ReportedCommissionMatchesCheckout |
