# Infinite Mobile Carwash front end: client-side rules in Dafny

This project models the client-side logic of the Infinite Mobile Carwash &
Detailing web site, a React front end. It covers the rules the browser
applies on its own, before or between calls to the back end:

- **Booking form** (`Booking`, from `src/components/BookingSystem.jsx`):
  - the two-tier service catalogue;
  - the tiered deposit rule;
  - hourly time slots that hide slots already booked in the session;
  - the required-field check and nested field updates;
  - the step machine booking form → payment → confirmation → new booking.
- **Subscription wizard** (`Subscription`, from `src/components/SubscriptionSystem.jsx`):
  - four steps, with gated forward moves and one-step back moves;
  - the ordered list of missing fields;
  - the price lookup with its fallback to 0;
  - the frequencies a plan offers;
  - services per month;
  - the request that is sent.
- **Driver form** (`DriverForms`, from `src/components/DriverForm.jsx`):
  - new-form defaults, and fallbacks when an existing driver is edited;
  - the specialization and working-day toggles;
  - per-field error clearing;
  - the validator, with its required-field checks and its email and phone patterns.
- **Admin driver list** (`Admin`, from `src/pages/Admin.jsx`): the case-insensitive search plus the exact status filter, and the status badge with its fallback.
- **Chat assistant** (`Chat`, from `src/components/ChatBot.jsx`): the append-only message log with computed ids, and first-match keyword replies.
- **API helper** (`Api`, from `src/config/api.js`): URL building, the shallow option merge, and the error on a non-ok response.
- **Tracking page** (`Tracking`, from `src/pages/Tracking.jsx`): the three-way booking-id check, open/close, and the demo button.
- **Home carousel** (`Carousel`, from `src/pages/EnhancedHome.jsx`): next and previous moves modulo six images.

`Text` holds the string helpers these share:

- JavaScript `trim` with the ECMAScript white-space set;
- ASCII lower-casing;
- `includes`, `indexOf`, `split` and `join`;
- an order-preserving `filter`.

How the source's form is kept:

- Component state that handlers update becomes a `class`: `Booking.BookingSystem`, `Subscription.SubscriptionWizard`, `DriverForms.DriverForm`, `Admin.DriverList`, `Chat.ChatBot`, `Tracking.TrackingPage` and `Carousel.ImageCarousel`.
- Each handler is a method that states the whole new state.
- Pure expressions become functions, and their properties are proved as lemmas.
- The two source loops become loop methods proved against a specification function: the slot generator and the chat reply search.

Network answers, payment results, the environment name, the current date and the list of plans are method parameters. They are not fetched.

## Model

Definitions that only compute are stated through the members in their rows:

- `Booking.ComputePricing` through `Booking.BasePriceLookup` and `Booking.DepositFor`.
- `Booking.AvailableSlots` and `Booking.FreeSlotsBetween` through `Booking.AvailableSlotsSpec` and the `FreeSlots` lemmas.
- `Booking.ParseFieldPath` through `Booking.ParseFieldPathRoundTrip`.
- `Booking.IsFormValid` through `Booking.FormValidIff`.
- `Subscription.MissingFields` through `Subscription.MissingFieldsSpec`.
- `Subscription.OfferedFrequencies` through `Subscription.OfferedFrequenciesSpec`.
- `DriverForms.ToggleWorkingDay` through `DriverForms.ToggleWorkingDaySpec`.
- `DriverForms.FieldError` and `DriverForms.ValidationErrors` through the error lemmas and `DriverForms.ValidIff`.
- `DriverForms.EmailOk` through `DriverForms.EmailOkIff`.
- `Admin.FilterDrivers` through `Admin.FilterDriversSpec`.
- `Chat.FirstMatch` and `Chat.ReplyFor` through `Chat.FirstMatchSpec` and `Chat.FindResponse`.
- `Api.GetApiUrl` through the three `Api` URL lemmas.
- `Tracking.ValidateBookingId` through `Tracking.ValidateBookingIdSpec`.
- `Carousel.Next` and `Carousel.Prev` through `Carousel.NextPrevInverse` and the carousel methods.

| member | source | states |
|---|---|---|
| Booking.Find | src/components/BookingSystem.jsx:98-99 | the entry found, core or premium, carries the requested id and is in the list; no result only when no entry has that id |
| Booking.CatalogueIdsDistinct | src/components/BookingSystem.jsx:57-85 | service ids are unique within each tier and across the two tiers, so a lookup is unambiguous |
| Booking.BasePriceLookup | src/components/BookingSystem.jsx:95-105 | the base price is the core entry's price for the vehicle when the id is a core service, else the premium entry's flat price, else 0 |
| Booking.DepositFor | src/components/BookingSystem.jsx:107-119 | three tiers: from 500 the deposit is exactly half the price and 50%; from 200 to 499 it is 70 pounds with the percentage rounded half up; below 200 it is 0 and 0% |
| Booking.RoundedShare | src/components/BookingSystem.jsx:116 | for prices 200..499 the integer formula (14000 + p) / (2p) is `Math.round(70 / p * 100)` |
| Booking.DepositIsRoundedShare | src/components/BookingSystem.jsx:111-117 | whenever a deposit is due it is positive, at most half the price, and its shown percentage (1..50) is its share of the price rounded half up |
| Booking.FullValetExample | src/components/BookingSystem.jsx:57-68 | a medium full valet costs 55 and takes no deposit |
| Booking.FullDetailingExample | src/components/BookingSystem.jsx:114-116 | full detailing (300) takes 70 pounds, shown as 23% |
| Booking.Stage1PolishingExample | src/components/BookingSystem.jsx:114-116 | stage 1 polishing (400) takes 70 pounds; the exact half 17.5% is shown as 18% |
| Booking.Stage2PolishingExample | src/components/BookingSystem.jsx:111-113 | stage 2 polishing (550) takes 275 pounds, 50% |
| Booking.CoreServicesTakeNoDeposit | src/components/BookingSystem.jsx:57-85 | no core service is priced high enough, for any vehicle, to need a deposit |
| Booking.AllSlotsAreLabels | src/components/BookingSystem.jsx:126-127 | the day's slots are the eleven zero-padded labels "08:00" to "18:00" |
| Booking.SlotLabelOrder | src/components/BookingSystem.jsx:127 | zero padding makes string order of labels agree with hour order |
| Booking.FreeSlotsMembership | src/components/BookingSystem.jsx:126-133 | a label is in the generated list exactly when it is the label of an hour in range whose date-slot key is not booked |
| Booking.FreeSlotsAscending | src/components/BookingSystem.jsx:126-133 | the generated list is strictly ascending in string order |
| Booking.FreeSlotsLength | src/components/BookingSystem.jsx:126 | the list has at most one slot per hour of the range |
| Booking.AvailableSlotsSpec | src/components/BookingSystem.jsx:124-135 | the offered slots are exactly the day's slots whose key is not booked, ascending, at most eleven |
| Booking.SlotKeyInjective | src/components/BookingSystem.jsx:128 | with equal-length slot labels a key determines its date and its slot |
| Booking.FreeSlotsSameKeys | src/components/BookingSystem.jsx:128-130 | the offered slots depend only on whether this date's keys are booked |
| Booking.OtherDateUnaffected | src/components/BookingSystem.jsx:128-130 | booking a slot on another date leaves a date's offered slots unchanged |
| Booking.BookedSlotNotOffered | src/components/BookingSystem.jsx:195-196 | a slot whose key has been recorded is no longer offered for its date |
| Booking.SetField | src/components/BookingSystem.jsx:137-153 | an update changes the named field to the value and leaves every other field, nested or not, unchanged |
| Booking.CustomerPathRoundTrip | src/components/BookingSystem.jsx:138-146 | the dotted name `customerInfo.<child>` is read back as that nested field |
| Booking.ParseFieldPathRoundTrip | src/components/BookingSystem.jsx:137-153 | every field name the form passes is read back as its own field, plain or dotted |
| Booking.FormValidIff | src/components/BookingSystem.jsx:232-241 | the form is valid exactly when all eight required fields are non-empty; address, postcode and special requests never change validity |
| Booking.PaymentDataFor | src/components/BookingSystem.jsx:159-172 | the request carries the customer's address only for a mobile service and "Unit Visit" otherwise, the current price and deposit, the date, the time and the contact details |
| Booking.BookingSystem.GenerateTimeSlots | src/components/BookingSystem.jsx:124-135 | the loop returns exactly the offered slots for the chosen date |
| Booking.BookingSystem.constructor | src/components/BookingSystem.jsx:23-48 | the initial state: form step, empty form, zero pricing, nothing booked, no pending request, not complete |
| Booking.BookingSystem.HandleInputChange | src/components/BookingSystem.jsx:93-153 | the named field is updated (a name that is not a form field changes nothing the model holds; see Left out), pricing is recomputed only when vehicle or service changed and both are chosen, and nothing else changes |
| Booking.BookingSystem.SubmitForm | src/components/BookingSystem.jsx:155-208 | an invalid form changes nothing; a valid one records the request; with a deposit it moves to payment and books nothing; without one it books the slot and completes only on an ok answer |
| Booking.BookingSystem.PaymentSucceeded | src/components/BookingSystem.jsx:210-220 | the slot key is appended, the booking completes and the step returns to the form |
| Booking.BookingSystem.PaymentFailed | src/components/BookingSystem.jsx:222-225 | only an alert naming the error; no state changes |
| Booking.BookingSystem.BackToBooking | src/components/BookingSystem.jsx:227-230 | back to the form step with the pending request dropped; nothing else changes |
| Booking.BookingSystem.BookAnother | src/components/BookingSystem.jsx:327-340 | empty form and zero pricing, but the session's booked slots are kept |
| Subscription.SetValue | src/components/SubscriptionSystem.jsx:361-446 | typing into a customer field changes only that field |
| Subscription.EmptyAmongSpec | src/components/SubscriptionSystem.jsx:90 | the filter keeps exactly the empty fields, in their original order |
| Subscription.EmptyAmongSameText | src/components/SubscriptionSystem.jsx:88-92 | the missing list reads only the text fields, so records agreeing on them have the same missing fields |
| Subscription.MissingFieldsSpec | src/components/SubscriptionSystem.jsx:88-92 | the missing list is exactly the eight required fields that are empty, in declared order; special requests are never missing |
| Subscription.OfferedFrequenciesSpec | src/components/SubscriptionSystem.jsx:145-149 | the frequencies offered are those of the fixed list that the plan allows, in the fixed order |
| Subscription.PriceLookup | src/components/SubscriptionSystem.jsx:64-69 | no price when the plan lists nothing for the vehicle; otherwise the listed price for the frequency, or 0 when none is listed |
| Subscription.PriceAfterEffect | src/components/SubscriptionSystem.jsx:35-39 | the price is recomputed only with plan, vehicle and frequency chosen and a price row for the vehicle; otherwise it is kept |
| Subscription.ServicesPerMonth | src/components/SubscriptionSystem.jsx:527 | a month holds 4 services exactly for weekly, 2 exactly for bi_weekly, and 1 for anything else |
| Subscription.PerServicePrice | src/components/SubscriptionSystem.jsx:528 | the per-service prices of a month add up to the monthly price, and none exceeds it |
| Subscription.SubscriptionWizard.constructor | src/components/SubscriptionSystem.jsx:6-28 | step 1, no plan, no choices, price 0, an empty customer form with the given start date |
| Subscription.SubscriptionWizard.SelectPlan | src/components/SubscriptionSystem.jsx:71-77 | the plan is set, vehicle and frequency are cleared, the price is 0 and the step is 2 |
| Subscription.SubscriptionWizard.ChooseVehicleType | src/components/SubscriptionSystem.jsx:283 | the vehicle type is set and the pricing effect runs when it changed |
| Subscription.SubscriptionWizard.ChooseFrequency | src/components/SubscriptionSystem.jsx:299 | the frequency is set and the pricing effect runs when it changed |
| Subscription.SubscriptionWizard.ConfigurationNext | src/components/SubscriptionSystem.jsx:79-86 | step 3 only with both choices made; otherwise step 2 and the "select" message |
| Subscription.SubscriptionWizard.UpdateCustomerInfo | src/components/SubscriptionSystem.jsx:361-446 | one customer field changes, and the step invariant is kept |
| Subscription.SubscriptionWizard.CustomerInfoNext | src/components/SubscriptionSystem.jsx:88-99 | step 4 only when no required field is missing; otherwise step 3 and "Please fill in: " with the missing keys joined by ", " |
| Subscription.SubscriptionWizard.SetEmailNotifications | src/components/SubscriptionSystem.jsx:455-460 | only the email-notification preference changes, so the missing list and the step invariant are kept |
| Subscription.SubscriptionWizard.SetSmsNotifications | src/components/SubscriptionSystem.jsx:463-468 | only the SMS-notification preference changes, so the missing list and the step invariant are kept |
| Subscription.SubscriptionWizard.SetDaysAhead | src/components/SubscriptionSystem.jsx:472-481 | only the days-ahead preference changes, so the missing list and the step invariant are kept |
| Subscription.SubscriptionWizard.Back | src/components/SubscriptionSystem.jsx:340 | exactly one step back, and the step stays within 1..4 with what each step demands |
| Subscription.SubscriptionWizard.SubmissionPayload | src/components/SubscriptionSystem.jsx:106-112 | the request holds the plan id, vehicle type, frequency, "Mobile Service" and every customer field |
| Subscription.SubscriptionWizard.Submit | src/components/SubscriptionSystem.jsx:101-136 | the payload is sent and the message reports success with the id, the server's error (or "Unknown error"), or a failed request |
| DriverForms.Set | src/components/DriverForm.jsx:71-75 | an input changes only its own field |
| DriverForms.Or | src/components/DriverForm.jsx:52-64 | a present non-empty value is kept, an absent or empty one gives the fallback |
| DriverForms.FromDriver | src/components/DriverForm.jsx:50-69 | an edited driver's form never has empty status, availability or working days; absent ones take the defaults 'active', 08:00-18:00 and all seven days |
| DriverForms.EmptyDriverGivesDefaults | src/components/DriverForm.jsx:9-24 | a driver with nothing filled in opens exactly the new-driver form |
| DriverForms.RemoveAll | src/components/DriverForm.jsx:89-90 | removal drops every copy of the entry, keeps every copy of every other entry (same count) and keeps their order |
| DriverForms.Toggle | src/components/DriverForm.jsx:86-93 | the toggled entry's membership flips, every other entry keeps its membership, and a new entry goes at the end |
| DriverForms.ToggleTwice | src/components/DriverForm.jsx:86-93 | toggling twice restores membership of every entry |
| DriverForms.SplitPartsFree | src/components/DriverForm.jsx:96 | no part of a split contains the separator |
| DriverForms.SegmentsFree | src/components/DriverForm.jsx:96 | the days read from a working-day string are non-empty and comma-free |
| DriverForms.ToggleWorkingDaySpec | src/components/DriverForm.jsx:95-105 | reading the new string back gives the toggled day list; the day flips, other days keep their membership, and no empty segment appears |
| DriverForms.NoEmptyRemoved | src/components/DriverForm.jsx:96 | dropping empty segments from a list with none leaves it unchanged |
| DriverForms.EmailOkIff | src/components/DriverForm.jsx:118-119 | the direct email test accepts exactly the strings the pattern `local@domain.tld` over non-space, non-@ characters matches |
| DriverForms.UncheckedFieldError | src/components/DriverForm.jsx:107-128 | fields outside the six checked ones never carry an error |
| DriverForms.RequiredFieldError | src/components/DriverForm.jsx:110-115 | name, licence number, registration and model are reported exactly when blank after trimming |
| DriverForms.EmailError | src/components/DriverForm.jsx:111-121 | a non-empty email not matching the pattern gets the invalid message; the email has no error exactly when it matches |
| DriverForms.PhoneError | src/components/DriverForm.jsx:112-127 | a non-empty phone with a character outside the pattern gets the invalid message; no error exactly when it matches and is not blank |
| DriverForms.ValidationErrorsAt | src/components/DriverForm.jsx:107-128 | each field's entry in the errors object is that field's own error |
| DriverForms.SameErrors | src/components/DriverForm.jsx:107-128 | a map agreeing with every checked field's error and holding nothing else is the errors object |
| DriverForms.PatternStage | src/components/DriverForm.jsx:117-127 | the two pattern checks applied after the required checks produce the errors object, later messages overwriting earlier ones |
| DriverForms.ValidIff | src/components/DriverForm.jsx:107-131 | there are no errors exactly when the four plain fields are not blank, the email matches and the phone matches and is not blank |
| DriverForms.ValidationErrorsEmpty | src/components/DriverForm.jsx:130 | the errors object is empty exactly when no checked field has an error |
| DriverForms.BlankEmailIsInvalid | src/components/DriverForm.jsx:111-121 | a whitespace-only email is reported as invalid, not as missing |
| DriverForms.BlankPhoneIsRequired | src/components/DriverForm.jsx:112-127 | a whitespace-only phone passes the pattern and is reported as missing |
| DriverForms.BlankFieldErrors | src/components/DriverForm.jsx:108-115 | after the required checks a field has an error exactly when it is one of the six and blank, with its own message |
| DriverForms.DriverForm.constructor | src/components/DriverForm.jsx:9-69 | a new driver gets the defaults, an edited one its values with fallbacks, and there are no errors |
| DriverForms.DriverForm.HandleInputChange | src/components/DriverForm.jsx:71-84 | the field takes the value; only that field's error is cleared, and only when one is showing |
| DriverForms.DriverForm.ToggleSpecialization | src/components/DriverForm.jsx:86-93 | only the specialization list changes, by the toggle |
| DriverForms.DriverForm.ToggleDay | src/components/DriverForm.jsx:95-105 | only the working-day string changes, by the day toggle |
| DriverForms.DriverForm.ValidateForm | src/components/DriverForm.jsx:107-131 | the errors become the errors object of the form, and the answer is true exactly when it is empty |
| DriverForms.DriverForm.HandleSubmit | src/components/DriverForm.jsx:133-141 | the form data is handed on exactly when validation leaves no error |
| Admin.FilterDriversIsShown | src/pages/Admin.jsx:125-141 | the search filter followed by the status filter is one filter by "passes both" |
| Admin.FilterDriversSpec | src/pages/Admin.jsx:125-141 | a driver is listed exactly when it passes both filters; the list keeps the original order; a status filter other than "all" leaves only that exact status; an empty term with "all" lists every driver |
| Admin.NameSearchIgnoresCase | src/pages/Admin.jsx:130 | a term found in the name in any letter case finds the driver |
| Admin.StatusBadge | src/pages/Admin.jsx:209-217 | active and busy have their own badges; any other status gets the inactive badge |
| Admin.DriverList.constructor | src/pages/Admin.jsx:50-52 | an empty list with an empty term and status "all" |
| Admin.DriverList.SetDrivers | src/pages/Admin.jsx:50-52 | a new driver list re-filters the shown list |
| Admin.DriverList.SetSearchTerm | src/pages/Admin.jsx:50-52 | a new term re-filters the shown list |
| Admin.DriverList.SetStatusFilter | src/pages/Admin.jsx:50-52 | a new status filter re-filters the shown list |
| Chat.FirstMatchSpec | src/components/ChatBot.jsx:60-65 | the match found is the earliest non-default entry whose key occurs in the message; none is found only when no entry matches |
| Chat.FindResponse | src/components/ChatBot.jsx:56-65 | the loop with its early exit returns the first matching entry's reply, else the default reply |
| Chat.QuickReplyAnswers | src/components/ChatBot.jsx:19-36 | each of the five quick replies, sent as is, gets its own specific answer |
| Chat.ChatBot.constructor | src/components/ChatBot.jsx:9-17 | the log is the single greeting with id 1, and the input is empty |
| Chat.ChatBot.TypeInput | src/components/ChatBot.jsx:173 | the input holds the typed text |
| Chat.ChatBot.SendMessage | src/components/ChatBot.jsx:41-76 | a blank message changes nothing; otherwise the user message (id length+1) and the reply (id length+2) are appended, the input is cleared, ids stay position+1, and the quick replies are hidden; once hidden they never show again |
| Chat.ChatBot.SendInput | src/components/ChatBot.jsx:78-80 | the send button and the Enter key send the typed input, as `handleSendMessage` with its default argument, with the same effect on the log and the quick replies |
| Chat.ChatBot.VisibleQuickReplies | src/components/ChatBot.jsx:149-153 | the first three quick replies show only while the log holds the greeting alone |
| Api.ApiBase | src/config/api.js:2-4 | the production address under NODE_ENV "production", the local development address otherwise |
| Api.GetApiUrlShape | src/config/api.js:6-10 | every URL starts with the base and '/', followed by the endpoint without its leading slash, and its length follows |
| Api.LeadingSlashIgnored | src/config/api.js:8 | an endpoint with one leading slash gives the same URL as without it |
| Api.OnlyOneSlashStripped | src/config/api.js:8 | only one slash is removed, so a doubled slash survives |
| Api.MergeOptions | src/config/api.js:15-23 | the merged keys are both key sets; the caller's value wins and the default fills the rest |
| Api.MergeOptionsDefaults | src/config/api.js:15-23 | the method defaults to GET, caller headers replace the default headers entirely, and no options give the defaults |
| Api.HandleResponse | src/config/api.js:30-34 | a non-ok response is an error carrying its status, an ok one gives its data |
| Api.PrepareRequest | src/config/api.js:12-23 | the request goes to the built URL with the merged options |
| Tracking.ValidateBookingIdSpec | src/pages/Tracking.jsx:17-31 | a blank id is refused as empty; otherwise an id shorter than five characters, padding counted, is refused as malformed; otherwise it is accepted |
| Tracking.PaddedShortIdAccepted | src/pages/Tracking.jsx:18-24 | a two-character id padded with spaces passes, because the length check counts the padding |
| Tracking.DemoIdValid | src/pages/Tracking.jsx:120 | the demo id would itself pass the check |
| Tracking.TrackingPage.constructor | src/pages/Tracking.jsx:13-15 | the id is the booking parameter or empty, and tracking starts exactly when the parameter is non-empty |
| Tracking.TrackingPage.TrackBooking | src/pages/Tracking.jsx:17-31 | a refused id shows its error and leaves tracking as it was; an accepted one clears the error and starts tracking |
| Tracking.TrackingPage.CloseTracking | src/pages/Tracking.jsx:33-37 | tracking stops and the id is cleared |
| Tracking.TrackingPage.EditBookingId | src/pages/Tracking.jsx:79-82 | typing sets the id and clears the error |
| Tracking.TrackingPage.ViewDemo | src/pages/Tracking.jsx:119-122 | the demo id is set and tracking starts without the check |
| Carousel.NextPrevInverse | src/pages/EnhancedHome.jsx:91-96 | next and previous stay in range and undo each other |
| Carousel.Advance | src/pages/EnhancedHome.jsx:59-64 | any number of auto-advances stays in range |
| Carousel.AdvanceIsShift | src/pages/EnhancedHome.jsx:61 | n advances move n places around the ring of six |
| Carousel.FullCycle | src/pages/EnhancedHome.jsx:25-61 | six advances return to the starting image |
| Carousel.ImageCarousel.constructor | src/pages/EnhancedHome.jsx:21 | the carousel starts on the first image |
| Carousel.ImageCarousel.NextImage | src/pages/EnhancedHome.jsx:89-92 | one step forward modulo six, staying in range |
| Carousel.ImageCarousel.PrevImage | src/pages/EnhancedHome.jsx:94-97 | one step back modulo six, staying in range |

## Left out

- Network calls, Stripe payment, timers and sound are not modelled. The booking and subscription requests, the admin driver fetch and the payment SDK are replaced by their outcomes, which are method parameters. The one-second chat reply delay, the subscription redirect, alert expiry, the carousel's five-second interval and the click sound are also left out.
- Booking.BookingSystem.SubmitForm: treats the booking API's answer as one boolean. A thrown network error and a non-ok status both leave the state as it was, and the alert text is not modelled.
- Booking.DepositFor: keeps the deposit exact in pence instead of the floating-point `basePrice * 0.5`. The pence conversion `Math.round(deposit * 100)` and the `toFixed(2)` balance on the payment page are not modelled.
- Booking.BasePriceLookup: a core service with a vehicle id missing from its price table would give `undefined` in JavaScript. It is modelled as 0, which takes the same no-deposit branch. The form only offers the four listed vehicle ids.
- Booking.BookingSystem.HandleInputChange: a name that is not one of the form's fields changes nothing in the model. The form never passes such a name. In JavaScript:
  - a plain unknown name adds a key to `bookingData`;
  - a bare `customerInfo` replaces the nested record with the string;
  - a dotted name with a parent other than `customerInfo` writes an object into that field.
- Booking: the catalogue is the booking component's own. `src/pages/Services.jsx` lists other prices and is not part of this model.
- Booking: the render guards (payment screen, confirmation screen) are not modelled as preconditions. Each handler is modelled on the state it is given.
- Subscription: the plan list, the default start date ("tomorrow") and the server's answer are inputs. Prices are `real` numbers, and the per-service price is the exact quotient, not the rounded `toFixed(2)` text.
- Subscription.SubscriptionWizard.SetDaysAhead: takes the chosen option as an integer. The `parseInt` of the select's text value is not modelled, since the options are 1, 2 and 3.
- Subscription.SubscriptionWizard.ChooseFrequency: does not require the frequency to be one the plan offers. Only the buttons restrict that.
- Subscription.SubscriptionWizard.Submit: does not model the transient empty message shown while the request is in flight.
- DriverForms.FromDriver: specializations arrive already parsed. The `JSON.parse` of their text is not modelled.
- DriverForms.DriverForm.HandleInputChange: setting an error to `null` is modelled as removing its key, since both read as "no error".
- DriverForms.ToggleWorkingDaySpec: requires the toggled day to be non-empty and comma-free, as every day button's value is.
- Admin and Chat: lower-casing is ASCII only. Unicode case mapping is not modelled.
- Admin.StatusBadge: a status that names an inherited property of a JavaScript object (such as "constructor") is not modelled. There the lookup would not fall back to the inactive badge.
- Chat.ChatBot.SendMessage: the user message and the delayed reply are appended as one step. Overlapping sends within the delay, which could repeat ids, are not modelled. Message timestamps are left out.
- Tracking: navigation to `/tracking` on close and the live-tracking map are not modelled.
- Rendering, styling, animation, routing and the static pages are not modelled. These include the admin dashboard, live notifications, live tracking and the subscription pop-up.
