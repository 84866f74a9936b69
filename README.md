# cleardrip backend core in Dafny

This project models the backend core of cleardrip, a booking and shop service for water purifiers, in Dafny. It covers:

- **Payment orders** (`PaymentGateway`). Creating an order for products, a service or a subscription plan. Verifying the gateway callback, which is idempotent and commits all or nothing. Cancelling an order, which confirms or cancels the subscription, starts or deletes the booking, or takes stock away and gives it back.
- **One-time passwords** (`OtpSchema`, `OtpService`, `OtpController`). The two request validators. Sending a code by SMS or email. Checking it against the newest usable session. Combining the per-channel results into one reply.
- **Service-booking handlers** (`ServicesController`):
  - the multipart upload loop and its file-type and size rules;
  - the price checks before a booking;
  - the listing scoped by role, with its `hasNext` rule;
  - "delete" as a status change to cancelled;
  - the admin-only additions and slot deletion;
  - the admin's booking update.
- **Phone normalisation** (`Phone`) and the **auth-cookie policy** (`Cookies`).

**Modelling conventions**
- The database tables are maps and sequences:
  - payment orders keyed by the gateway's order id;
  - transactions and OTP sessions in insertion order, so Prisma's `findFirst` is the first match;
  - products, bookings, subscriptions, services and plans keyed by id.
- A Prisma `$transaction` is computed on copies of the rows. It is committed only when no step throws.
- Money is integer paise.
- An absent or `null` database column is `None`. An absent request-body property is `None` too. JavaScript truthiness of an optional string is `Common.Truthy`.
- Calls whose code is not part of this model are parameters: function-typed oracles, or `Option` inputs where `None` means the call threw. These are:
  - the Razorpay gateway and signature check;
  - Twilio Verify;
  - the OTP hash and compare;
  - Cloudinary uploads;
  - the zod schemas of the services module;
  - `isAdmin`, `parsePagination`;
  - the `services.service` and `subscription.service` functions.

**The invariant of the payment tables** is `PaymentGateway.ValidTables`, which every store operation keeps:
- no inventory is below zero;
- every order is well formed: a positive amount, one purpose, the references that purpose needs, and a product order's amount equal to the sum of its lines;
- every transaction's order exists;
- no payment id is recorded twice;
- there is at most one successful transaction per order.

## Model

| member | source | states |
|---|---|---|
| Records.BookingStatusNamed | backend/src/controllers/services.controller.ts:550-554 | a status string is accepted by the booking-status enum exactly when it is PENDING, IN_PROGRESS, COMPLETED or CANCELLED, and each of these names maps to its own status |
| Phone.KeepPhoneChars | backend/src/utils/phone.ts:4 | the filter keeps only digits and '+', is never longer than its input, and is empty exactly when the input has no such character |
| Phone.StripLeadingZeros | backend/src/utils/phone.ts:8 | the result is a suffix of the input, everything dropped is '0', and the result does not start with '0' |
| Phone.FormatPhoneNumber | backend/src/utils/phone.ts:1-20 | undefined exactly for a missing or empty input or one without digits or '+'; every defined result starts with '+' and holds only digits and '+' |
| Phone.KeepPhoneCharsIdentity | backend/src/utils/phone.ts:4 | the filter leaves a string of digits and '+' unchanged |
| Phone.KeepPhoneCharsAppend | backend/src/utils/phone.ts:4 | filtering distributes over concatenation |
| Phone.InternationalFormUnchanged | backend/src/utils/phone.ts:10-12 | a value already of the form '+' followed by digits is returned unchanged |
| Phone.FormatIdempotent | backend/src/utils/phone.ts:4-12 | formatting a formatted number gives it back unchanged |
| Phone.SeparatorsIgnored | backend/src/utils/phone.ts:4-19 | formatting the filtered characters gives the same result as formatting the raw input |
| Phone.NationalNumberGetsCountryCode | backend/src/utils/phone.ts:13-18 | a 10-digit number not starting with 0 gets "+91", even when it starts with "91" |
| Phone.CountryCodeWithoutPlus | backend/src/utils/phone.ts:13-14 | a digit string longer than 10 that starts with "91" only gets '+' in front |
| Phone.OtherNumberGetsPlus | backend/src/utils/phone.ts:13-19 | a digit string not starting with '0' that is neither ten digits long nor a "91" number longer than ten only gets '+' in front |
| Phone.AllZerosGiveBarePlus | backend/src/utils/phone.ts:8-19 | an input of zeros only yields the lone "+" |
| Phone.LeadingZeroIgnored | backend/src/utils/phone.ts:8 | putting a '0' in front of any input that keeps a digit or '+' does not change the result |
| Cookies.CookieName | backend/src/utils/cookies.ts:5-11 | a role's cookie name is user_token, admin_token or super_admin_token, each exactly for its role |
| Cookies.MaxAge | backend/src/utils/cookies.ts:15 | the lifetime is a whole number of days: 30 with remember-me, 7 without |
| Cookies.AuthCookieOptions | backend/src/utils/cookies.ts:17-23 | the cookie is httpOnly, sameSite strict, path "/", secure exactly in production, with the lifetime above |
| Cookies.CookieNameInjective | backend/src/utils/cookies.ts:5-11 | different roles get different cookie names |
| Cookies.Reply.ClearCookie | backend/src/utils/cookies.ts:28-30 | clearing a cookie marks exactly that name cleared |
| Cookies.Reply.SetCookie | backend/src/utils/cookies.ts:17-23 | setting a cookie sets exactly that name to the value and options |
| Cookies.RemoveAuthCookie | backend/src/utils/cookies.ts:27-31 | all three auth names are cleared whatever the reply held; other cookies are untouched |
| Cookies.SetAuthCookie | backend/src/utils/cookies.ts:4-24 | afterwards exactly one auth cookie is set, the role's, with the token and options; the other two are cleared; other cookies are untouched |
| Cookies.SwitchRole | backend/src/utils/cookies.ts:4-24 | two logins in a row leave only the second role's cookie set, holding the second token |
| OtpSchema.ParseRequestOtp | backend/src/schemas/otp.schema.ts:3-9 | a request body is accepted exactly when phone or email is non-empty and a present email is well formed; it passes through unchanged |
| OtpSchema.ParseVerifyOtp | backend/src/schemas/otp.schema.ts:12-20 | a verify body is accepted exactly when phone or email is non-empty, a present email is well formed, a present phone has at least 10 UTF-16 code units and each present code has exactly 6; only the four declared fields survive |
| OtpSchema.Utf16Length | backend/src/schemas/otp.schema.ts:13-16 | a string's JavaScript length lies between its number of characters and twice that |
| OtpSchema.Utf16LengthOfBmp | backend/src/schemas/otp.schema.ts:13-16 | a string of Basic Multilingual Plane characters has JavaScript length equal to its number of characters |
| OtpSchema.AstralCharacterCountsTwice | backend/src/schemas/otp.schema.ts:13 | eight digits and one character outside the Basic Multilingual Plane pass the phone's `.min(10)` |
| OtpSchema.EmptyPhoneCountsAsAbsent | backend/src/schemas/otp.schema.ts:6 | an empty phone is treated like a missing one |
| OtpSchema.VerifyParseIgnoresOtp | backend/src/schemas/otp.schema.ts:12-20 | the undeclared `otp` property has no effect on parsing |
| OtpSchema.VerifyAcceptsBodyWithoutCodes | backend/src/schemas/otp.schema.ts:12-20 | a body with a long enough phone and no codes at all is accepted |
| OtpService.SmsDestination | backend/src/services/otp.service.ts:17-22 | the SMS destination always starts with '+': the phone itself when it starts with '+', else "+91" before it (the same rule is used when a code is checked) |
| OtpService.RateLimitWins | backend/src/services/otp.service.ts:29-31 | HTTP 429 or Twilio code 60212 is reported as too many requests, whatever the message |
| OtpService.OtpCode | backend/src/services/otp.service.ts:66 | the email code is an integer from 100000 to 999999 |
| OtpService.DecimalRoundTrip | backend/src/services/otp.service.ts:66 | reading back the decimal digits of a number gives the number modulo 10^width |
| OtpService.OtpText | backend/src/services/otp.service.ts:66 | the code as text is six decimal digits and denotes the code |
| OtpService.NewEmailSession | backend/src/services/otp.service.ts:76-88 | the stored session holds the hashed code, channel EMAIL, not verified, the email and user, expiring five minutes after now |
| OtpService.NewSessionIsNewestEligible | backend/src/services/otp.service.ts:157-169 | a freshly stored code is the one a check compares against, exactly until it expires |
| OtpService.VerifiedSessionIsSpent | backend/src/services/otp.service.ts:183-186 | once a session is marked verified it is never selected again, so a session succeeds at most once |
| OtpService.OlderSessionShadowed | backend/src/services/otp.service.ts:157-169 | an older session is never compared while a newer one is still eligible |
| OtpService.OtpStore.SendEmailOtp | backend/src/services/otp.service.ts:57-91 | an empty email or an unknown user throws and stores nothing; otherwise exactly one new session is appended and "pending" is returned |
| OtpService.OtpStore.GenerateAndSendOtp | backend/src/services/otp.service.ts:9-55 | no channel throws; a phone wins over an email and its Twilio outcome or mapped error is returned without storing a session; otherwise the email path runs |
| OtpService.OtpStore.VerifyOtp | backend/src/services/otp.service.ts:93-141 | every failure, including Twilio errors with mapped messages, is `success: false` and leaves the users unchanged; success only after an "approved" check, and it marks exactly that user's phone verified |
| OtpService.OtpStore.VerifyEmailOtp | backend/src/services/otp.service.ts:144-200 | missing input, unknown user, no eligible session or a mismatch change nothing; a match marks the newest eligible session verified and then the user's email, and the second write fails if the user found does not hold that email |
| OtpController.RequestOtpHandler | backend/src/controllers/auth/auth.otp.controller.ts:7-23 | a schema failure is 400 with no work done; 200 with the channel exactly when the returned status is "pending"; everything else is 500; on the email path a 200 means exactly the new email session was appended |
| OtpController.CombineResults | backend/src/controllers/auth/auth.otp.controller.ts:39-67 | the response has an entry for exactly the verifiers that ran; the reply is 200 exactly when one of them succeeded, else 400 |
| OtpController.VerifyOtpHandlerAsWritten | backend/src/controllers/auth/auth.otp.controller.ts:25-72 | as written, every verify call is answered 400 and changes nothing, because both verifiers always receive `undefined` |
| OtpController.VerifyOtpHandler | backend/src/controllers/auth/auth.otp.controller.ts:25-72 | with each channel given its own code: a verifier runs exactly for each present channel; 200 exactly when one succeeds; a phone success means Twilio approved that code; an email success means the code matched the newest eligible session, which is now marked verified |
| PaymentGateway.PurposeFor | backend/src/controllers/paymentgateway.controller.ts:32-44 | PRODUCT, SERVICE and SUBSCRIPTION map to their purposes; every other value, OTHER included, is refused |
| PaymentGateway.ItemQuantity | backend/src/controllers/paymentgateway.controller.ts:64 | the quantity is the requested one when it is positive, else 1 |
| PaymentGateway.LineItems | backend/src/controllers/paymentgateway.controller.ts:59-75 | one line per requested product, each with a positive quantity and subtotal = price × quantity |
| PaymentGateway.LineItemsAt | backend/src/controllers/paymentgateway.controller.ts:64-74 | line k is request k, priced from the catalog |
| PaymentGateway.FirstUnknown | backend/src/controllers/paymentgateway.controller.ts:59-62 | finds the first requested product missing from the catalog; none exactly when every one is known |
| PaymentGateway.ProductPricing | backend/src/controllers/paymentgateway.controller.ts:49-75 | priced exactly when the list is non-empty and every product is known, with the lines and their total; an empty or missing list is 400; 404 exactly when no product is known |
| PaymentGateway.PricingNamesFirstUnknown | backend/src/controllers/paymentgateway.controller.ts:59-62 | when only some products are known, the 400 names the first unknown id |
| PaymentGateway.PriceProducts | backend/src/controllers/paymentgateway.controller.ts:49-75 | the pricing loop computes exactly `ProductPricing` |
| PaymentGateway.CapturedInventory | backend/src/controllers/paymentgateway.controller.ts:263-276 | a successful capture takes exactly the ordered quantity of each product and changes nothing else |
| PaymentGateway.RestockedInventory | backend/src/controllers/paymentgateway.controller.ts:355-360 | a restock succeeds exactly when every line's product exists, and gives back exactly the ordered quantities |
| PaymentGateway.CaptureSucceedsIff | backend/src/controllers/paymentgateway.controller.ts:263-276 | a capture succeeds exactly when, product by product, stock covers everything the lines order |
| PaymentGateway.CaptureKeepsStockNonNegative | backend/src/controllers/paymentgateway.controller.ts:268-275 | a capture never drives an inventory below zero |
| PaymentGateway.RestockKeepsStockNonNegative | backend/src/controllers/paymentgateway.controller.ts:355-360 | a restock keeps every inventory non-negative |
| PaymentGateway.RestockUndoesCapture | backend/src/controllers/paymentgateway.controller.ts:350-360 | restocking the lines of a successful capture restores the stock exactly |
| PaymentGateway.CancelTwiceRestocksTwice | backend/src/controllers/paymentgateway.controller.ts:334-362 | cancelling the same order twice gives the quantities back twice |
| PaymentGateway.ApplyCapture | backend/src/controllers/paymentgateway.controller.ts:263-276 | the decrement loop computes exactly `Captured` |
| PaymentGateway.ApplyRestock | backend/src/controllers/paymentgateway.controller.ts:355-360 | the increment loop computes exactly `Restocked` |
| PaymentGateway.OnCaptured | backend/src/controllers/paymentgateway.controller.ts:246-277 | the capture effects never add or remove a product, booking or subscription row |
| PaymentGateway.OnCancelled | backend/src/controllers/paymentgateway.controller.ts:340-361 | the cancellation effects never add or remove a product or subscription row |
| PaymentGateway.ProductCaptureIff | backend/src/controllers/paymentgateway.controller.ts:258-277 | for a product order, capture succeeds exactly when stock covers its lines, and no inventory goes below zero |
| PaymentGateway.CancelUndoesProductCapture | backend/src/controllers/paymentgateway.controller.ts:350-360 | cancelling a captured product order restores every row |
| PaymentGateway.EffectsKeepStockNonNegative | backend/src/controllers/paymentgateway.controller.ts:228-280 | capture and cancellation both keep every inventory non-negative |
| PaymentGateway.ToLowerAscii | backend/src/controllers/paymentgateway.controller.ts:202 | lower-casing keeps the length and lowers each letter |
| PaymentGateway.GatewayRejection | backend/src/controllers/paymentgateway.controller.ts:196-206 | a payment settles the order exactly when the amounts are equal and the status is captured or authorized in any case; an amount mismatch is reported first |
| PaymentGateway.RecordedTransaction | backend/src/controllers/paymentgateway.controller.ts:180-192 | a repeat is found exactly when some transaction succeeded for the order or carries the payment id; a success for the order is preferred |
| PaymentGateway.NewOrderKeepsValid | backend/src/controllers/paymentgateway.controller.ts:113-136 | storing a well-formed order keeps the table invariant |
| PaymentGateway.StatusChangeKeepsValid | backend/src/controllers/paymentgateway.controller.ts:241-244 | changing an order's status keeps the table invariant |
| PaymentGateway.RecordingKeepsValid | backend/src/controllers/paymentgateway.controller.ts:229-239 | recording a success that is not a repeat keeps the invariant, and it is what a repeat then finds |
| PaymentGateway.ApplyOnCaptured | backend/src/controllers/paymentgateway.controller.ts:246-277 | the branch writes of verification compute exactly `OnCaptured` |
| PaymentGateway.ApplyOnCancelled | backend/src/controllers/paymentgateway.controller.ts:340-361 | the branch writes of cancellation compute exactly `OnCancelled` |
| PaymentGateway.PaymentStore.CreateOrder | backend/src/controllers/paymentgateway.controller.ts:18-151 | it refuses with 401, the 400 purpose error, the pricing errors, the service and plan errors, 400 for a non-positive total and 500 for gateway or store failure, storing nothing. Otherwise exactly one pending, well-formed order is stored under the gateway's id. A subscription row created before a later refusal stays |
| PaymentGateway.PaymentStore.VerifyPayment | backend/src/controllers/paymentgateway.controller.ts:153-316 | every refusal and every repeat leaves all tables unchanged; a repeat returns the recorded transaction. Otherwise one success row is appended, the order becomes SUCCESS whatever its status, and `OnCaptured` is applied, all together or not at all |
| PaymentGateway.PaymentStore.CancelPayment | backend/src/controllers/paymentgateway.controller.ts:319-370 | the checks run in order 401, 400, 404, 403, each refusal changing nothing. Then the order becomes CANCELLED and `OnCancelled` is applied atomically, with no status check |
| PaymentGateway.PaymentStore.CommitCapture | backend/src/controllers/paymentgateway.controller.ts:228-280 | the verification's database transaction commits exactly when its effects succeed, and then records the transaction as the one a repeat finds |
| PaymentGateway.PaymentStore.CommitCancel | backend/src/controllers/paymentgateway.controller.ts:334-362 | the cancellation's database transaction commits exactly when its effects succeed |
| PaymentGateway.PaymentStore.PlaceOrder | backend/src/controllers/paymentgateway.controller.ts:107-136 | a non-positive total is 400, a failed gateway or taken id is 500, else the order is stored under the new id |
| PaymentGateway.DeliverTwice | backend/src/controllers/paymentgateway.controller.ts:180-192 | a second delivery of a verified callback returns the same transaction as already recorded and leaves every table as the first delivery left it |
| ServicesController.LastFile | backend/src/controllers/services.controller.ts:44-47 | the kept file is the last file part; none exactly when no file was sent |
| ServicesController.FieldsOfLastWins | backend/src/controllers/services.controller.ts:48-51 | a form field's value is that of the last part carrying it |
| ServicesController.FieldsOfAbsent | backend/src/controllers/services.controller.ts:48-51 | a field no part carries is absent |
| ServicesController.PartsScan | backend/src/controllers/services.controller.ts:26-52 | the scan accepts exactly when no file has a wrong type or exceeds 5 MiB, yielding all fields and the last file; a refusal is one of the two upload errors |
| ServicesController.FirstBadFileDecides | backend/src/controllers/services.controller.ts:30-42 | the first bad file decides the refusal: its type if unaccepted, otherwise its size |
| ServicesController.ScanParts | backend/src/controllers/services.controller.ts:26-52 | the upload loop computes exactly `PartsScan` |
| ServicesController.WithUpload | backend/src/controllers/services.controller.ts:85-88 | an uploaded URL replaces the before-image; without upload the request is unchanged |
| ServicesController.BookService | backend/src/controllers/services.controller.ts:12-128 | checks run in order: 401, upload refusals, schema 400, upload failure 500, 404, missing price 500, non-positive or non-finite price 400. Only then are the gateway and booking called, and a booking carries a positive price |
| ServicesController.VisibleTo | backend/src/controllers/services.controller.ts:189-195 | an admin sees every row; anyone else exactly their own rows |
| ServicesController.PageRows | backend/src/controllers/services.controller.ts:190-193 | the page is rows skip to skip+take of the visible rows, at most take long |
| ServicesController.ListServices | backend/src/controllers/services.controller.ts:179-211 | 401 without a user, 500 on failure; the total counts the visible rows, hasNext is exactly skip + take < total, and "No services found" exactly for an empty page |
| ServicesController.ListingIsScoped | backend/src/controllers/services.controller.ts:189-195 | a non-admin's page holds only their own rows; an admin's total counts every row |
| ServicesController.NextPageNonEmpty | backend/src/controllers/services.controller.ts:203 | when hasNext holds, the next page is not empty |
| ServicesController.DeleteService | backend/src/controllers/services.controller.ts:248-264 | 400 without an id; otherwise only a status change to CANCELLED is requested, unscoped for an admin or a missing user, and any failure is 422 |
| ServicesController.AnonymousDeleteIsUnscoped | backend/src/controllers/services.controller.ts:250-256 | a non-admin request without a user gets the same unscoped update an admin's gets |
| ServicesController.AddHandler | backend/src/controllers/services.controller.ts:266-311 | body validation (400) comes before the role check (403); an addition happens exactly for a valid body from an admin with a user id, and a thrown error is 500 with its message |
| ServicesController.SlotIdList | backend/src/controllers/services.controller.ts:317 | a list is kept as it is and a single value, even a missing one, becomes a list of one |
| ServicesController.DeleteSlotsAsWritten | backend/src/controllers/services.controller.ts:313-334 | as written, 400 happens exactly for an explicit empty list; then 403 for a non-admin; a deletion happens only for an admin |
| ServicesController.MissingSlotIdPassesGuard | backend/src/controllers/services.controller.ts:316-320 | a request without slotIds passes the guard and reaches the deletion as [undefined] |
| ServicesController.DeleteSlots | backend/src/controllers/services.controller.ts:313-334 | corrected: 400 exactly when no slot id is given; then 403; a deletion happens only for an admin with ids |
| ServicesController.DeleteSlotsAgreeWhenGiven | backend/src/controllers/services.controller.ts:313-334 | corrected and written handlers answer alike whenever a slot id is given |
| ServicesController.AfterImage | backend/src/controllers/services.controller.ts:522-554 | without an upload the existing after-image is kept; a non-empty uploaded URL replaces it |
| ServicesController.BookingTable.AdminUpdateBooking | backend/src/controllers/services.controller.ts:456-606 | the checks run in order: 401, upload refusals, a missing status 400, an unknown booking 404. Any later throw (failed upload, unknown status) is 400 "Status is required" and changes nothing. Otherwise exactly that booking gets the new status and after-image |

## Left out

- The Razorpay HMAC signature check, `razorpay.payments.fetch`, `createRazorpayOrder` and `createSubscription` are parameters (verdicts and ids).
- Twilio Verify, `encryptOtp`/`compareOtp`, Cloudinary uploads and the email queue are also parameters. The email queue is fire-and-forget output and is not modelled at all.
- `OtpService.FindUser`: `findUserByEmailOrPhone` of user.service is not part of this model. It is taken to return the first user whose email or phone equals the key.
- `OtpSchema.ParseVerifyOtp`: body properties are strings or absent. A `null` or non-string value, which `z.string().optional()` rejects with a 400, is not represented (the same holds for `OtpSchema.ParseRequestOtp`).
- Floating-point money: paymentgateway.controller.ts multiplies `Number(price)` (line 65), rounds `amount * 100` (line 196) and divides by 100 (line 208). Amounts are integer paise throughout, so the round trip is exact.
- `PaymentTransaction.amountPaid` holds paise, not rupees.
- `ServicesController.BookService`: prices are exact reals, and `NotFinite` stands for a non-finite JavaScript number.
- `OtpService.OtpCode`: `Math.random()` is the parameter `draw`; IEEE rounding of the product is not modelled.
- Product inventory is an integer; a `null` inventory (read as 0 at line 268) is not modelled.
- The Prisma decimal type and non-array `products` bodies are not modelled. A `products` value that is not a list is the same as a missing one.
- Quantities are integers.
- The email-template lookups in verification (lines 210-226 and 283-308) only feed the email, and are left out.
- The `details` and issue lists sent with error replies are left out; replies carry the status code and the error or message text.
- Concurrency: two verifications of the same payment racing between the repeat check and the write are not modelled. Each operation runs alone.
- Uniqueness of the gateway order id is modelled. The other database constraints are not, because the schema is not part of this model.
- The controllers' own re-checks that the schema already guarantees are subsumed by the parse models. For example, `if (!phone && !email)` in auth.otp.controller.ts lines 14 and 32 can never fire after the schema's refinement.
- `ServicesController.ListServices`: `getAllServices` and `getTotalServicesCount` are not part of this model. The page is assumed to be the visible rows from `skip` to `skip + take`, and the total their number.
- `ServicesController.AddHandler`: what `addServiceDefinition` and `addSlot` store is not modelled; only their success or thrown message is.
- `ServicesController.DeleteService`: `updateStatus` is a parameter. How it applies the owner scope is not part of this model.
- `ServicesController.BookingTable.AdminUpdateBooking`: `updatedAt` and the included relations of the reply are not modelled.
- `ServicesController.BookService`: `serviceSchema` is a parameter; only `serviceId` and `beforeImageUrl` of the booking request are represented.
- The other handlers of services.controller.ts are not part of the named core, for example `GetServiceByIdHandler`, `UpdateStatusHandler`, cancel and reschedule.
- Multipart streaming is not modelled: a file part carries its byte length, as `toBuffer` gives it.

## Findings

| source | as written | input that shows it | evidently intended | confidence | as-written member | corrected member |
|---|---|---|---|---|---|---|
| backend/src/controllers/auth/auth.otp.controller.ts:31-37 | both verifiers receive `body.data.otp`, but the verify schema does not declare `otp` and zod strips undeclared keys, so they always receive `undefined` | `{"phone": "9721235063", "otp": "123456"}` with the correct code: the phone verifier receives `undefined` and reports "OTP and phone number are required", the email verifier does not run (no email), and the reply is 400 | each verifier receives its channel's declared code, `phoneOtp` or `emailOtp` | high; not executed | OtpController.VerifyOtpHandlerAsWritten | OtpController.VerifyOtpHandler |
| backend/src/controllers/services.controller.ts:316-320 | the emptiness guard tests `[body.slotIds]`, so a missing `slotIds` becomes `[undefined]`, passes the 400 check and reaches `deleteSlot` | an admin's `{}` body: `DeleteSlotsAsWritten` calls the deletion with `[None]` instead of answering 400 "Slot ID is required" | 400 whenever no slot id is given | medium; not executed | ServicesController.DeleteSlotsAsWritten | ServicesController.DeleteSlots |
